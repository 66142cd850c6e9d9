# font-blanky core in Dafny

A model of the logic at the heart of font-blanky, a small Vue and p5.js
editor. The editor keeps a scene of spinning, gradient-coloured spheres, and
a "blanky" page lays a line of text out over a height map. The model covers
these pieces:

- `mathUtils` (module `MathUtils`, `math_utils.dfy`): `clamp`, `lerp`, and
  vector `add` and `subtract`.
- The `Sphere` entity (module `SphereModel`, `sphere.dfy`): a class whose
  validating setters clamp numbers into range or throw. The nested `colors`,
  `material` and `rotation` objects are classes of their own, because
  `clone` shares them with the copy.
- The `Scene` aggregate (module `SceneModel`, `scene.dfy`): an ordered list
  of sphere references, with the camera, the lighting and the pause flag.
  It also has the JSON round trip.
- The non-drawing part of `SphereRenderer` (module `Renderer`,
  `renderer.dfy`):
  - the colour parser;
  - the per-frame rotation update and its wrap into [0, TWO_PI);
  - the pause gate and frame clock of `render`;
  - the screen projection;
  - the closest-sphere hit test.
- The blanky layout (module `Blanky`, `blanky.dfy`):
  - `processHeightMap`, which turns heights into step vectors;
  - the chunking and placement arithmetic of `drawLine`.
- `js.dfy` (module `Js`) holds the JavaScript notions the model needs:
  - a dynamic value as `typeof` and `isNaN` see it;
  - truthiness;
  - `undefined` as an `Option`;
  - a thrown `Error` as a `Status`.

Numbers are `real` (heights and steps are `int`). A setter that throws
returns `Thrown(message)` and leaves the state its `ensures` describe.

Each loop of the source is a method with invariants, proved against a
specification function:
- `processHeightMap` against `Steps` and `PairVectors`;
- `drawLine` against `PlacementAt` and `Prefix`;
- the rotation update against a fold `Spin` of per-frame advances;
- the hit test against the predicate `IsPick`.

## Model

| member | source | states |
|---|---|---|
| MathUtils.Clamp | src/utils/mathUtils.js:9-11 | with min ≤ max the result lies in [min, max]; a value in range is returned unchanged; below min gives min (or max when the bounds cross); above max gives max; crossed bounds always give max |
| MathUtils.ClampIdempotent | src/utils/mathUtils.js:9-11 | clamping twice equals clamping once, for any bounds |
| MathUtils.ClampMonotone | src/utils/mathUtils.js:9-11 | clamp preserves the order of the clamped values |
| MathUtils.Lerp | src/utils/mathUtils.js:13-15 | factor 0 gives the start and factor 1 gives the end |
| MathUtils.LerpBetween | src/utils/mathUtils.js:13-15 | for a factor in [0, 1] the result lies between the two ends, in either order |
| MathUtils.Add | src/utils/mathUtils.js:19-21 | subtracting either summand from the sum gives back the other |
| MathUtils.Subtract | src/utils/mathUtils.js:23-25 | the difference is zero exactly when the vectors are equal, and swapping the operands negates it |
| MathUtils.AddSubtractInverse | src/utils/mathUtils.js:19-25 | `subtract(add(a, b), b) == a` and `add(subtract(a, b), b) == a` componentwise |
| SphereModel.LastFour | src/models/Sphere.js:7 | `slice(-4)` gives the last min(4, length) characters, a suffix of the id |
| SphereModel.Sphere.constructor | src/models/Sphere.js:5-22 | a falsy or absent id, name, radius or speed takes its default (radius 0 → 50, speed 0 → 1, name "Sphere " + last four of the id); an absent position, rotation, colours or material takes its default, and a default nested object is fresh; `visible` defaults to true only when undefined, so an explicit false is kept; `selected` defaults to false |
| SphereModel.Sphere.SetRadius | src/models/Sphere.js:25-31 | a number stores `clamp(v, 1, 200)`; a non-number or NaN throws the type message and keeps the radius |
| SphereModel.Sphere.SetRotationSpeed | src/models/Sphere.js:33-39 | a number stores `clamp(v, -5, 5)`; a non-number or NaN throws and keeps the speed |
| SphereModel.Sphere.SetPosition | src/models/Sphere.js:41-50 | the type check comes before the NaN check; it succeeds exactly when all three are numbers, and then replaces the position by (x, y, z); on either error the position is unchanged |
| SphereModel.Sphere.SetColors | src/models/Sphere.js:52-62 | a truthy invalid start colour throws the start message, and otherwise a truthy invalid end colour throws the end message; success happens exactly when each argument is falsy or valid; both colours are checked before either is written, so an error writes nothing; a falsy argument leaves its end unchanged |
| SphereModel.Sphere.SetMaterial | src/models/Sphere.js:64-78 | an absent field is untouched and a present number is clamped (shininess into [0, 1000], metallic into [0, 1]); a bad shininess throws and changes nothing; a bad metallic throws after a valid shininess was already written (not atomic) |
| SphereModel.Sphere.SetVisibility | src/models/Sphere.js:80-86 | a boolean is stored; anything else throws and keeps the flag |
| SphereModel.Sphere.SetSelection | src/models/Sphere.js:88-94 | a boolean is stored; anything else throws and keeps the flag |
| SphereModel.Sphere.Validate | src/models/Sphere.js:101-136 | changes nothing; the errors are the failing checks' messages in the source's order; `isValid` holds iff there are no errors |
| SphereModel.ValidationErrorsExact | src/models/Sphere.js:101-136 | each of the six messages appears exactly when its range or format check fails, and there are never more than six |
| SphereModel.ValidIffInRange | src/models/Sphere.js:101-136 | a sphere validates exactly when every field is in the range the setters clamp to and both colours are well formed |
| SphereModel.ValidationErrors | src/models/Sphere.js:101-136 | at most six messages, each one of the six range and format messages (the position check of the source never reports for typed coordinates) |
| SphereModel.DefaultSphereIsValid | src/models/Sphere.js:5-22 | the constructor's defaults pass `validate` |
| SphereModel.NewSphereValidates | src/models/Sphere.js:5-22 | `new Sphere()` built by the constructor itself validates with no errors |
| SphereModel.SettersKeepValid | src/models/Sphere.js:25-94 | every value a setter can store keeps a valid sphere valid |
| SphereModel.ThreeBadFieldsThreeErrors | src/models/Sphere.js:104-114 | radius 0, speed 10 and start colour "invalid" give exactly the radius, speed and start-colour messages, in that order |
| SphereModel.ThreeBadFieldsOnNewSphere | src/models/Sphere.js:101-136 | on a constructed sphere, writing radius 0, speed 10 and start colour "invalid" into its fields makes `validate` return not valid with exactly those three messages in order |
| SphereModel.IsValidColor | src/models/Sphere.js:96-98 | a valid colour is a string and truthy, so `setColors` always writes it |
| SphereModel.ValidColorIgnoresCase | src/models/Sphere.js:97 | the colour check accepts a string exactly when it accepts its lower-case form |
| SphereModel.ColorExamples | src/models/Sphere.js:96-98 | '#' with 6 or 3 hex digits of either case is accepted; a missing '#', 4 or 7 digits, non-hex digits, a word, a number and null are rejected |
| SphereModel.Sphere.Spread | src/models/Scene.js:62 | `{ ...sphere }` holds the same field values and shares the nested objects |
| SphereModel.Sphere.Clone | src/models/Sphere.js:139-146 | the copy is fresh, with the new id (different from the original's), name + " Copy" and selected false; position, radius and visibility are copied; a speed of 0 becomes 1 through the constructor; the copy shares rotation, colours and material with the original |
| SphereModel.CloneThenEdit | src/models/Sphere.js:139-146 | resizing a clone leaves the original's radius alone, while recolouring the clone recolours the original through the shared colours object |
| SceneModel.IndexOfId | src/models/Scene.js:25-27 | the position of the first sphere with the id, or the length of the list when there is none |
| SceneModel.IndexOfSelected | src/models/Scene.js:33-35 | the position of the first selected sphere, or the length of the list when there is none |
| SceneModel.WithoutId | src/models/Scene.js:21-23 | the filter keeps exactly the spheres whose id differs, and keeps the list unchanged when no sphere has the id |
| SceneModel.WithoutIdAppend | src/models/Scene.js:21-23 | the filter distributes over concatenation, so kept spheres stay in their original order |
| SceneModel.VisibleOf | src/models/Scene.js:29-31 | the filter keeps exactly the visible spheres |
| SceneModel.VisibleOfAppend | src/models/Scene.js:29-31 | the visible filter distributes over concatenation, so order is kept |
| SceneModel.Scene.constructor | src/models/Scene.js:3-14 | each absent property takes its default; a supplied list is kept |
| SceneModel.NewSceneDefaults | src/models/Scene.js:3-14 | a fresh scene has no spheres, camera at (0, 0, 200) with rotation (0, 0), lighting 0.3/0.7, and is not paused |
| SceneModel.Scene.AddSphere | src/models/Scene.js:17-19 | appends without any check; earlier spheres keep their places |
| SceneModel.Scene.RemoveSphere | src/models/Scene.js:21-23 | drops every sphere with the id and keeps the rest in order; an absent id is a silent no-op |
| SceneModel.Scene.GetSphere | src/models/Scene.js:25-27 | none iff no sphere has the id; otherwise the first sphere that has it |
| SceneModel.Scene.GetVisibleSpheres | src/models/Scene.js:29-31 | exactly the visible spheres of the list |
| SceneModel.Scene.GetSelectedSphere | src/models/Scene.js:33-35 | none iff no sphere is selected; otherwise the first selected sphere |
| SceneModel.Scene.SelectSphere | src/models/Scene.js:37-43 | afterwards an entry is selected exactly when it is the object `getSphere(id)` returns, so an absent id leaves none selected; `getSelectedSphere` then returns that object; in a list without repeated objects at most one entry is selected |
| SceneModel.Scene.Reset | src/models/Scene.js:46-57 | empty list, default camera and lighting, not paused |
| SceneModel.Scene.ToJSON | src/models/Scene.js:60-67 | one fresh shallow copy per sphere, each with the same values and the same nested objects; camera, lighting and pause flag are copied |
| SceneModel.Scene.FromJSON | src/models/Scene.js:70-72 | a fresh scene holding the document's spheres, camera, lighting and pause flag |
| SceneModel.Scene.JsonRoundTrip | src/models/Scene.js:60-72 | `fromJSON(toJSON())` holds the same values, ids included, in the same number of new sphere objects that share nested objects with the original |
| Renderer.HexValue | src/components/canvas/SphereRenderer.js:154-156 | a hex digit of either case is worth less than 16 |
| Renderer.ParseByte | src/components/canvas/SphereRenderer.js:154-156 | `parseInt` of two hex digits is a byte |
| Renderer.IsRgbHex | src/components/canvas/SphereRenderer.js:152 | on seven-character strings the renderer's pattern and the sphere's colour check accept exactly the same strings |
| Renderer.HexValueIgnoresCase | src/components/canvas/SphereRenderer.js:152-156 | a digit and its lower-case form have the same value, and the lower-case form is the digit written for that value |
| Renderer.HexToRgbIgnoresCase | src/components/canvas/SphereRenderer.js:152-157 | a colour and its lower-case form parse to the same channels, or both to white (the `i` flag) |
| Renderer.HexToRgb | src/components/canvas/SphereRenderer.js:151-158 | every channel is in [0, 255]; a string that is not an optional '#' plus six hex digits gives white |
| Renderer.ParseFormatRoundTrip | src/components/canvas/SphereRenderer.js:151-158 | parsing `#rrggbb` written from a colour gives the colour back, with or without the '#'; that string also passes the sphere's colour check |
| Renderer.LongColorParses | src/components/canvas/SphereRenderer.js:151-158 | a six-digit colour the sphere accepts is parsed pair by pair |
| Renderer.ShortColorRendersWhite | src/components/canvas/SphereRenderer.js:151-158 | a three-digit colour the sphere accepts is rendered white |
| Renderer.JsRem | src/components/canvas/SphereRenderer.js:140-141 | JavaScript's truncated `%`: the result has the sign of the dividend and magnitude below the divisor |
| Renderer.WrapAngle | src/components/canvas/SphereRenderer.js:140-145 | after `% TWO_PI` and the negative fix-up the angle lies in [0, TWO_PI), and an angle already there is unchanged |
| Renderer.WrapIsFlooredRemainder | src/components/canvas/SphereRenderer.js:140-145 | the wrap removes exactly floor(a / TWO_PI) whole turns |
| Renderer.RotationDeltaPerSecond | src/components/canvas/SphereRenderer.js:131 | one second (1000 ms) turns by `speed` whole turns, the delta is proportional to the elapsed time, and no speed or no time gives no turn |
| Renderer.Advance | src/components/canvas/SphereRenderer.js:131-145 | one frame leaves both angles in [0, TWO_PI) |
| Renderer.Spin | src/components/canvas/SphereRenderer.js:128-147 | with no advances the angles are unchanged; otherwise both lie in [0, TWO_PI) |
| Renderer.SpeedsFor | src/components/canvas/SphereRenderer.js:128-129 | the advances a rotation object receives in one frame are nonzero speeds, at most one per sphere |
| Renderer.OwnRotationSpeeds | src/components/canvas/SphereRenderer.js:127-148 | with no shared rotation objects, a sphere's rotation receives exactly its own speed once, or nothing when that speed is 0 |
| Renderer.SpinOwnRotation | src/components/canvas/SphereRenderer.js:127-148 | so, unshared, one frame applies one `Advance` by the sphere's own speed, or leaves the angles alone at speed 0 |
| Renderer.NotHeldSpeeds | src/components/canvas/SphereRenderer.js:127-148 | a rotation object no sphere holds is not advanced |
| Renderer.SphereRenderer.constructor | src/components/canvas/SphereRenderer.js:3-7 | the frame clock starts at 0 |
| Renderer.SphereRenderer.AdvanceRotation | src/components/canvas/SphereRenderer.js:131-145 | the in-place field updates amount to one `Advance` of (x, y), with z unchanged |
| Renderer.SphereRenderer.UpdateSphereRotations | src/components/canvas/SphereRenderer.js:127-148 | every sphere's rotation, visible or not, ends at the fold of `Advance` over the nonzero speeds of the spheres holding that object, in list order; z is unchanged and nothing outside the rotation objects is written |
| Renderer.SphereRenderer.Render | src/components/canvas/SphereRenderer.js:10-20 | when attached, `lastFrameTime` becomes now, and unless paused the rotations advance by now minus the previous frame time; when paused or detached no angle changes |
| Renderer.WorldToScreenRoundTrip | src/components/canvas/SphereRenderer.js:186-192 | the projection loses only the depth: mapping a screen point back at the point's depth gives the point, and projecting that gives the screen point again |
| Renderer.WorldToScreenCentresOrigin | src/components/canvas/SphereRenderer.js:186-192 | the world origin lands on the canvas centre, and the depth does not move the screen point |
| Renderer.WorldToScreenTranslates | src/components/canvas/SphereRenderer.js:186-192 | moving a point in the world moves its screen point by the same amount, with y flipped |
| Renderer.GetSphereAtPosition | src/components/canvas/SphereRenderer.js:161-183 | null iff no visible sphere is within half its radius of the pointer; otherwise a visible sphere of the list that is hit, no farther than any other hit, and strictly closer than every earlier hit, so ties go to the earlier one |
| Blanky.BelowQuotientMeaning | src/blanky/blanky.ts:20-22 | the integer loop guard is exactly `v < abs(delta) / step` over the reals |
| Blanky.ExtraCountIsCeiling | src/blanky/blanky.ts:20-22 | the inner loop runs ceil(abs(delta) / step) times for a positive step |
| Blanky.PairVectors | src/blanky/blanky.ts:15-23 | a level pair gives one [1, 0]; an uneven pair gives vectors [0, step·sign(delta)], ceil(abs(delta) / step) of them for a positive step and none for a negative one |
| Blanky.Steps | src/blanky/blanky.ts:14-25 | every vector of the pairs is [1, 0] or vertical of height ±step, and with a positive step each pair contributes at least one |
| Blanky.PushPair | src/blanky/blanky.ts:15-23 | appends the pair's vectors to what was there |
| Blanky.ProcessHeightMap | src/blanky/blanky.ts:11-28 | the result is [1, 0] followed by each adjacent pair's vectors in order |
| Blanky.ShortHeightMap | src/blanky/blanky.ts:12-14 | fewer than two heights give just [[1, 0]] |
| Blanky.StepsSumX | src/blanky/blanky.ts:14-23 | the x components of the pair vectors count the level pairs |
| Blanky.UnitPairClimbs | src/blanky/blanky.ts:17-22 | with step 1 a pair's y components sum to its height difference |
| Blanky.StepsSumY | src/blanky/blanky.ts:14-23 | with step 1 the pair vectors' y components sum to the height reached minus the first |
| Blanky.UnitHeightMapSums | src/blanky/blanky.ts:11-28 | with step 1 the whole result's x components sum to 1 + the number of level pairs, and its y components to last − first |
| Blanky.ChunkAt | src/blanky/blanky.ts:38 | `slice(5i, 5i + 5)` is non-empty; it has 5 characters except the last chunk, which has what remains |
| Blanky.ChunkCount | src/blanky/blanky.ts:36 | the loop `i < len / 5` runs ceil(len / 5) times |
| Blanky.PlacementAt | src/blanky/blanky.ts:42-48 | chunk i sits at x = spacing·Σx and y = −30·Σy of the first i + 1 vectors; past their end each missing vector counts as [1, 0] |
| Blanky.PrefixThroughSum | src/blanky/blanky.ts:42-45 | the running vector after k chunks is the sum of the first k vectors, plus one unit right per chunk past their end |
| Blanky.PlacementFromRunningVector | src/blanky/blanky.ts:44-48 | the position drawn from the running vector is the placement of the prefix sum through vector i |
| Blanky.DrawLine | src/blanky/blanky.ts:30-48 | the line is shifted by −((len − 1)·spacing / 5) / 2 with depth `Z ?? 0`; there are ceil(len / 5) chunks, and chunk i is `slice(5i, 5i + 5)` at x = spacing·Σx and y = −30·Σy over the first i + 1 vectors |
| Blanky.JoinChunks | src/blanky/blanky.ts:36-38 | the first k chunks concatenate to the first 5k characters, or the whole line |
| Blanky.ChunksJoinToLine | src/blanky/blanky.ts:36-38 | the chunks concatenate to the line |
| Blanky.PrefixPastEnd | src/blanky/blanky.ts:42-45 | past the end of the vectors each chunk moves one unit right and none up |
| Blanky.PrefixIsSum | src/blanky/blanky.ts:34-45 | within the vectors, the running vector is the sum of the vectors so far |

## Left out

- Sphere fields are typed here, so `validate` never reports the position message or a wrong `typeof` on a stored field. Its `typeof` branches cannot fire in the model.
- Infinities are not represented: a stored number is finite and `Num` is a finite non-NaN number.
- SphereModel.Sphere.constructor: the properties object is assumed well-typed; a property of the wrong type is not modelled.
- SphereModel.Sphere.SetMaterial: the `TypeError` that `setMaterial(undefined)` raises when it reads a property of `undefined` is not modelled; the argument is always an object.
- The chaining result `this` of the setters is not modelled; they return a `Status` instead.
- The sphere's position is a value. The only code that writes it replaces it wholesale, so sharing it between a clone and its original cannot be observed.
- `generateUniqueId` (clock and randomness) is replaced by a fresh id passed in. `Sphere.Clone` requires that id to be non-empty and different from the original's.
- SceneModel.Scene.ToJSON: the copies are `Sphere` objects, not plain objects. Their values and nested objects are the same, and no code distinguishes the two.
- Scene methods that only the tests expect have no code, so they are not modelled: `setCameraPosition`, `setLighting`, `togglePause`, `setPaused`, `validate`, `clone`, `clearSelections`, `findSphere`, and throwing `addSphere`/`removeSphere`.
- SceneModel.Scene.constructor: the sphere list is a sequence value. In the source, `new Scene({ spheres })` and `fromJSON` keep the caller's own array, and `addSphere` pushes into it, so the caller sees later additions. That array aliasing is not captured; the sphere objects in the list are still shared references.
- The camera and lighting are values; no code writes into them.
- All p5 drawing is left out: `renderSphere`, `applySphereColors`, `drawSelectionIndicator`, `drawWireframeSphere`, `setupCanvas`, and the drawing and `console.log` calls in `drawLine`. They are foreign library calls.
- The Pinia store and the canvas are parameters. `p.millis()` is `Render`'s `now`, `p.width`/`p.height` are arguments, and `p.dist` is a function passed in. The store's `isPaused`, `spheres` and `visibleSpheres` are passed in; the visible list is computed from the spheres as its getter does.
- Renderer.SphereRenderer.Render: "`p` and `store` are both set" is one boolean `attached`.
- Renderer.SphereRenderer.Render: the pause flag is the store's top-level `isPaused`, as the renderer reads it. The store in the repository keeps the flag under `scene.isPaused` and has no top-level one, so with that store the pause gate never stops the rotations; the model takes the flag as given.
- `TWO_PI` is an abstract positive constant, and arithmetic is over the reals. In floating point the wrap can round up to exactly TWO_PI; that rounding is not modelled.
- Blanky.ProcessHeightMap: requires a nonzero step unless the map is level. With step 0 an uneven pair makes the JavaScript loop run forever, so that case has no result to model.
- Heights and steps in blanky are integers. A fractional step or height difference is not modelled.
- Blanky.ProcessHeightMap: the default `step = 1` of the source is not a separate entry point; a caller that omits the step is the call with step 1, which `UnitHeightMapSums` describes.
- Strings are sequences of characters. JavaScript's `.length` and `slice` count UTF-16 code units, so for text outside the Basic Multilingual Plane the chunk boundaries of `drawLine`, the centring width and the `slice(-4)` of a sphere's default name differ from the model.
- `magnitude` (square root) is not modelled.
- `book.ts`, a prose constant, is not part of this model.
- `api.js`, an unrelated HTTP client, is not part of this model.
