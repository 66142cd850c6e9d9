/** The logic of src/components/canvas/SphereRenderer.js that is not drawing:
    the colour parser, the per-frame rotation update with its wrap into
    [0, TWO_PI), the pause gate and frame clock of `render`, the screen
    projection and the 2D hit test.

    p5's `TWO_PI` is a positive constant of the renderer, `p.millis()` is the
    `now` argument of `Render`, `p.width`/`p.height` are arguments, `p.dist`
    is a distance function passed in, and the store the renderer reads
    (`isPaused`, `spheres`) is passed in. */
module Renderer {
  import opened Js
  import opened MathUtils
  import opened SphereModel
  import opened SceneModel

  // ---------------------------------------------------------------------
  // hexToRgb

  datatype Rgb = Rgb(r: int, g: int, b: int)

  const White := Rgb(255, 255, 255)

  predicate IsByte(n: int) {
    0 <= n <= 255
  }

  /** The value of one hex digit, either case. */
  function HexValue(c: char): (v: nat)
    requires IsHexDigit(c)
    ensures v < 16
  {
    if '0' <= c <= '9' then c as int - '0' as int
    else if 'a' <= c <= 'f' then c as int - 'a' as int + 10
    else c as int - 'A' as int + 10
  }

  /** `parseInt(pair, 16)` for two hex digits. */
  function ParseByte(hi: char, lo: char): (n: int)
    requires IsHexDigit(hi) && IsHexDigit(lo)
    ensures IsByte(n)
  {
    16 * HexValue(hi) + HexValue(lo)
  }

  /** `/^#?([a-f\d]{2})([a-f\d]{2})([a-f\d]{2})$/i`: an optional '#' and
      exactly six hex digits. */
  predicate IsRgbHex(hex: string)
    ensures |hex| == 7 ==> (IsRgbHex(hex) <==> IsValidColor(Str(hex)))
  {
    (|hex| == 7 && hex[0] == '#' && AllHex(hex[1..])) || (|hex| == 6 && AllHex(hex))
  }

  /** The three channels of a six-digit colour, or white for anything the
      pattern rejects. */
  function HexToRgb(hex: string): (c: Rgb)
    ensures IsByte(c.r) && IsByte(c.g) && IsByte(c.b)
    ensures !IsRgbHex(hex) ==> c == White
  {
    var digits := if |hex| == 7 && hex[0] == '#' then hex[1..] else hex;
    if |digits| == 6 && AllHex(digits) then
      Rgb(ParseByte(digits[0], digits[1]), ParseByte(digits[2], digits[3]), ParseByte(digits[4], digits[5]))
    else
      White
  }

  /** A lower-case hex digit for a value below 16. */
  function HexDigit(n: nat): (c: char)
    requires n < 16
    ensures IsHexDigit(c) && HexValue(c) == n
  {
    if n < 10 then ('0' as int + n) as char else ('a' as int + n - 10) as char
  }

  /** The two hex digits of a byte. */
  function ByteHex(n: int): (s: string)
    requires IsByte(n)
    ensures |s| == 2 && AllHex(s) && ParseByte(s[0], s[1]) == n
  {
    [HexDigit(n / 16), HexDigit(n % 16)]
  }

  /** `#rrggbb`, the reference writer the parser inverts. */
  function FormatHex(c: Rgb): (s: string)
    requires IsByte(c.r) && IsByte(c.g) && IsByte(c.b)
    ensures |s| == 7 && s[0] == '#'
  {
    "#" + ByteHex(c.r) + ByteHex(c.g) + ByteHex(c.b)
  }

  /** A digit is worth what its lower-case form is worth, and that form is
      the digit the writer produces for the value: the pattern's `i` flag. */
  lemma HexValueIgnoresCase(c: char)
    requires IsHexDigit(c)
    ensures IsHexDigit(Lower(c)) && HexValue(Lower(c)) == HexValue(c)
    ensures HexDigit(HexValue(c)) == Lower(c)
  {
  }

  /** The parser does not see case: a colour and its lower-case form give
      the same channels (or both give white). */
  lemma HexToRgbIgnoresCase(hex: string)
    ensures HexToRgb(LowerString(hex)) == HexToRgb(hex)
  {
    var low := LowerString(hex);
    var digits := if |hex| == 7 && hex[0] == '#' then hex[1..] else hex;
    var lowDigits := if |low| == 7 && low[0] == '#' then low[1..] else low;
    assert |low| == |hex|;
    assert |hex| == 7 ==> (low[0] == '#' <==> hex[0] == '#');
    assert |lowDigits| == |digits|;
    assert forall i :: 0 <= i < |digits| ==> lowDigits[i] == Lower(digits[i]);
    assert AllHex(lowDigits) <==> AllHex(digits) by {
      forall i | 0 <= i < |digits|
        ensures IsHexDigit(lowDigits[i]) <==> IsHexDigit(digits[i])
      {
        assert lowDigits[i] == Lower(digits[i]);
      }
    }
    if |digits| == 6 && AllHex(digits) {
      forall i | 0 <= i < 6
        ensures HexValue(lowDigits[i]) == HexValue(digits[i])
      {
        HexValueIgnoresCase(digits[i]);
      }
    }
  }

  /** Parsing a formatted colour gives the colour back, with or without its
      '#', and the formatted colour passes the sphere's colour check. */
  lemma ParseFormatRoundTrip(c: Rgb)
    requires IsByte(c.r) && IsByte(c.g) && IsByte(c.b)
    ensures HexToRgb(FormatHex(c)) == c
    ensures HexToRgb(FormatHex(c)[1..]) == c
    ensures IsValidColor(Str(FormatHex(c)))
  {
    var s := FormatHex(c);
    var r, g, b := ByteHex(c.r), ByteHex(c.g), ByteHex(c.b);
    assert s[1..] == r + g + b;
    assert AllHex(s[1..]) by {
      forall i | 0 <= i < 6 ensures IsHexDigit(s[1..][i]) {
        if i < 2 { assert s[1..][i] == r[i]; }
        else if i < 4 { assert s[1..][i] == g[i - 2]; }
        else { assert s[1..][i] == b[i - 4]; }
      }
    }
    assert s[1..][0] == r[0] && s[1..][1] == r[1];
    assert s[1..][2] == g[0] && s[1..][3] == g[1];
    assert s[1..][4] == b[0] && s[1..][5] == b[1];
  }

  /** A six-digit colour the sphere accepts is parsed digit pair by digit
      pair. */
  lemma LongColorParses(s: string)
    requires IsValidColor(Str(s)) && |s| == 7
    ensures HexToRgb(s) == Rgb(ParseByte(s[1], s[2]), ParseByte(s[3], s[4]), ParseByte(s[5], s[6]))
  {
    assert s[1..][0] == s[1] && s[1..][1] == s[2] && s[1..][2] == s[3];
    assert s[1..][3] == s[4] && s[1..][4] == s[5] && s[1..][5] == s[6];
  }

  /** A three-digit colour, which the sphere accepts, is not understood by
      the renderer and is drawn white. */
  lemma ShortColorRendersWhite(s: string)
    requires IsValidColor(Str(s)) && |s| == 4
    ensures HexToRgb(s) == White
  {
  }

  // ---------------------------------------------------------------------
  // Rotation update

  /** JavaScript's `a % m`: the remainder of division truncated toward
      zero, so it takes the sign of `a`. */
  function JsRem(a: real, m: real): (r: real)
    requires m > 0.0
    ensures a >= 0.0 ==> 0.0 <= r < m
    ensures a < 0.0 ==> -m < r <= 0.0
  {
    if a >= 0.0 then
      FloorRemBounds(a, m);
      a - ((a / m).Floor as real) * m
    else
      FloorRemBounds(-a, m);
      a + (((-a) / m).Floor as real) * m
  }

  /** `a - floor(a / m) * m` lies in [0, m). */
  lemma FloorRemBounds(a: real, m: real)
    requires m > 0.0
    ensures 0.0 <= a - ((a / m).Floor as real) * m < m
  {
    var q := a / m;
    var f := q.Floor as real;
    assert f <= q < f + 1.0;
    assert q * m == a;
    RemBetween(a, m, q, f);
  }

  /** Removing `f` whole m's, where `f` is the floor of the exact quotient
      `q`, leaves a remainder in [0, m). */
  lemma RemBetween(a: real, m: real, q: real, f: real)
    requires m > 0.0 && q * m == a && f <= q < f + 1.0
    ensures 0.0 <= a - f * m < m
  {
    var t := q - f;
    assert a - f * m == t * m;
    MulNonneg(t, m);
    MulNonneg(1.0 - t, m);
    assert (1.0 - t) * m == m - t * m;
  }

  /** A value in [0, m) is less than one whole m. */
  lemma FloorOfFraction(a: real, m: real)
    requires m > 0.0 && 0.0 <= a < m
    ensures (a / m).Floor == 0
  {
    var q := a / m;
    assert q * m == a;
    if q >= 1.0 {
      MulNonneg(q - 1.0, m);
    }
  }

  /** The source's wrap of one angle: `a % TWO_PI`, then `+ TWO_PI` when
      negative. */
  function WrapAngle(a: real, twoPi: real): (r: real)
    requires twoPi > 0.0
    ensures 0.0 <= r < twoPi
    ensures 0.0 <= a < twoPi ==> r == a
  {
    var rem := JsRem(a, twoPi);
    assert 0.0 <= a < twoPi ==> rem == a by {
      if 0.0 <= a < twoPi { FloorOfFraction(a, twoPi); }
    }
    if rem < 0.0 then rem + twoPi else rem
  }

  /** The wrap is the floored remainder: it removes a whole number of turns,
      namely `floor(a / TWO_PI)` of them. */
  lemma WrapIsFlooredRemainder(a: real, twoPi: real)
    requires twoPi > 0.0
    ensures WrapAngle(a, twoPi) == a - ((a / twoPi).Floor as real) * twoPi
  {
    var q := a / twoPi;
    assert q * twoPi == a;
    if a < 0.0 {
      var n := ((-a) / twoPi).Floor;
      assert -q == (-a) / twoPi;
      var rem := a + (n as real) * twoPi;
      assert JsRem(a, twoPi) == rem;
      if rem < 0.0 {
        // -q is not a whole number, so floor(q) = -floor(-q) - 1.
        assert (n as real) < -q;
        assert q.Floor == -n - 1;
      } else {
        // the remainder is 0: -q is the whole number n.
        assert rem == 0.0;
        assert (n as real) * twoPi == -a;
        assert q == -(n as real) by {
          assert (-q) * twoPi == (n as real) * twoPi;
          MulCancel(-q, n as real, twoPi);
        }
        assert q.Floor == -n;
      }
    }
  }

  lemma MulCancel(x: real, y: real, m: real)
    requires m > 0.0 && x * m == y * m
    ensures x == y
  {
    assert (x - y) * m == 0.0;
  }

  /** The two angles the update touches. */
  datatype Angles = Angles(x: real, y: real)

  /** The speed is in turns per second and the time in milliseconds. */
  function RotationDelta(speed: real, deltaTime: real, twoPi: real): real {
    speed * deltaTime * twoPi / 1000.0
  }

  /** A second turns the sphere `speed` whole turns, the angle grows in
      proportion to the time, and no time or no speed turns it not at all. */
  lemma RotationDeltaPerSecond(speed: real, deltaTime: real, twoPi: real)
    ensures RotationDelta(speed, 1000.0, twoPi) == speed * twoPi
    ensures RotationDelta(speed, 2.0 * deltaTime, twoPi) == 2.0 * RotationDelta(speed, deltaTime, twoPi)
    ensures speed == 0.0 || deltaTime == 0.0 ==> RotationDelta(speed, deltaTime, twoPi) == 0.0
  {
  }

  /** One frame for one sphere: `d = speed * dt * TWO_PI / 1000` is added to
      `y` and `0.3 * d` to `x`, and both are wrapped. */
  function Advance(a: Angles, speed: real, deltaTime: real, twoPi: real): (r: Angles)
    requires twoPi > 0.0
    ensures 0.0 <= r.x < twoPi && 0.0 <= r.y < twoPi
  {
    var delta := RotationDelta(speed, deltaTime, twoPi);
    Angles(WrapAngle(a.x + delta * 0.3, twoPi), WrapAngle(a.y + delta, twoPi))
  }

  /** A rotation object advanced once for each speed, in order. */
  function Spin(a: Angles, speeds: seq<real>, deltaTime: real, twoPi: real): (r: Angles)
    requires twoPi > 0.0
    ensures speeds != [] ==> 0.0 <= r.x < twoPi && 0.0 <= r.y < twoPi
    ensures speeds == [] ==> r == a
  {
    if speeds == [] then a
    else Advance(Spin(a, speeds[..|speeds| - 1], deltaTime, twoPi), speeds[|speeds| - 1], deltaTime, twoPi)
  }

  /** What the update reads from a sphere: the rotation object it holds and
      its speed. */
  datatype Spinner = Spinner(rotation: Rotation, speed: real)

  function SpinnersOf(ss: seq<Sphere>): (r: seq<Spinner>)
    reads ss
    ensures |r| == |ss|
    ensures forall i :: 0 <= i < |ss| ==> r[i] == Spinner(ss[i].rotation, ss[i].rotationSpeed)
  {
    seq(|ss|, i requires 0 <= i < |ss| reads ss => Spinner(ss[i].rotation, ss[i].rotationSpeed))
  }

  /** The nonzero speeds, in list order, of the spheres that hold this
      rotation object. Clones share their original's rotation, so one object
      can be advanced several times in a frame. */
  function SpeedsFor(rot: Rotation, ps: seq<Spinner>): (r: seq<real>)
    ensures |r| <= |ps|
    ensures forall i :: 0 <= i < |r| ==> r[i] != 0.0
  {
    if ps == [] then []
    else
      var last := ps[|ps| - 1];
      SpeedsFor(rot, ps[..|ps| - 1]) + (if last.rotation == rot && last.speed != 0.0 then [last.speed] else [])
  }

  /** Taking one more sphere into account adds its speed, when nonzero, to
      the speeds of the rotation object it holds and to no other. */
  lemma SpeedsForStep(ps: seq<Spinner>, i: nat)
    requires i < |ps|
    ensures forall rot :: SpeedsFor(rot, ps[..i + 1])
                          == SpeedsFor(rot, ps[..i])
                             + (if ps[i].rotation == rot && ps[i].speed != 0.0 then [ps[i].speed] else [])
  {
    assert ps[..i + 1][..i] == ps[..i];
  }

  /** One more speed is one more advance, applied last. */
  lemma SpinSnoc(a: Angles, speeds: seq<real>, speed: real, deltaTime: real, twoPi: real)
    requires twoPi > 0.0
    ensures Spin(a, speeds + [speed], deltaTime, twoPi) == Advance(Spin(a, speeds, deltaTime, twoPi), speed, deltaTime, twoPi)
  {
    assert (speeds + [speed])[..|speeds|] == speeds;
  }

  /** No two spheres of the list hold the same rotation object. */
  predicate OwnRotations(ps: seq<Spinner>) {
    forall i, j :: 0 <= i < j < |ps| ==> ps[i].rotation != ps[j].rotation
  }

  /** When no rotation is shared, a sphere's rotation is advanced once by its
      own speed, or not at all when that speed is 0. */
  lemma {:induction false} OwnRotationSpeeds(ps: seq<Spinner>, k: nat)
    requires k < |ps| && OwnRotations(ps)
    ensures SpeedsFor(ps[k].rotation, ps) == if ps[k].speed != 0.0 then [ps[k].speed] else []
  {
    var n := |ps|;
    var init := ps[..n - 1];
    var rot := ps[k].rotation;
    if k == n - 1 {
      forall i | 0 <= i < |init|
        ensures init[i].rotation != rot
      {
        assert init[i] == ps[i];
      }
      NotHeldSpeeds(rot, init);
    } else {
      forall i, j | 0 <= i < j < |init|
        ensures init[i].rotation != init[j].rotation
      {
        assert init[i] == ps[i] && init[j] == ps[j];
      }
      OwnRotationSpeeds(init, k);
      assert init[k] == ps[k];
      assert ps[n - 1].rotation != rot;
    }
  }

  /** So, when no rotation is shared, one frame advances each sphere's
      rotation exactly once by its own speed, and leaves it alone when that
      speed is 0. */
  lemma SpinOwnRotation(ps: seq<Spinner>, k: nat, a: Angles, deltaTime: real, twoPi: real)
    requires k < |ps| && OwnRotations(ps) && twoPi > 0.0
    ensures Spin(a, SpeedsFor(ps[k].rotation, ps), deltaTime, twoPi)
            == if ps[k].speed != 0.0 then Advance(a, ps[k].speed, deltaTime, twoPi) else a
  {
    OwnRotationSpeeds(ps, k);
    assert [ps[k].speed][..0] == [];
  }

  /** A rotation object no sphere of the list holds is not advanced. */
  lemma {:induction false} NotHeldSpeeds(rot: Rotation, ps: seq<Spinner>)
    requires forall i :: 0 <= i < |ps| ==> ps[i].rotation != rot
    ensures SpeedsFor(rot, ps) == []
  {
    if ps != [] {
      NotHeldSpeeds(rot, ps[..|ps| - 1]);
    }
  }

  // ---------------------------------------------------------------------
  // Screen projection and picking

  datatype Point2 = Point2(x: real, y: real)

  /** `worldToScreen`: the origin goes to the canvas centre, x to the right
      and y up (the screen's y grows downward); z is ignored. */
  function WorldToScreen(p: Vec3, width: real, height: real): Point2 {
    Point2(width / 2.0 + p.x, height / 2.0 - p.y)
  }

  /** The world point at depth `z` that projects to a screen point. */
  function ScreenToWorld(s: Point2, z: real, width: real, height: real): Vec3 {
    Vec3(s.x - width / 2.0, height / 2.0 - s.y, z)
  }

  /** Projection loses only the depth: going back at the same depth gives
      the point again, and projecting what comes back gives the screen point
      again. */
  lemma WorldToScreenRoundTrip(p: Vec3, s: Point2, width: real, height: real)
    ensures ScreenToWorld(WorldToScreen(p, width, height), p.z, width, height) == p
    ensures WorldToScreen(ScreenToWorld(s, p.z, width, height), width, height) == s
  {
  }

  /** The world origin lands on the canvas centre, whatever the depth, and
      two points that differ only in depth land on the same screen point. */
  lemma WorldToScreenCentresOrigin(p: Vec3, z: real, width: real, height: real)
    ensures WorldToScreen(Vec3(0.0, 0.0, z), width, height) == Point2(width / 2.0, height / 2.0)
    ensures WorldToScreen(p.(z := z), width, height) == WorldToScreen(p, width, height)
  {
  }

  /** Moving a sphere in the world moves its screen point by the same amount,
      with y flipped. */
  lemma WorldToScreenTranslates(p: Vec3, d: Vec3, width: real, height: real)
    ensures WorldToScreen(Add(p, d), width, height)
            == Point2(WorldToScreen(p, width, height).x + d.x, WorldToScreen(p, width, height).y - d.y)
  {
  }

  /** The screen distance from the pointer to a sphere's projected centre. */
  function ScreenDistance(s: Sphere, mouseX: real, mouseY: real, width: real, height: real,
                          dist: (real, real, real, real) -> real): real
    reads s
  {
    var p := WorldToScreen(s.position, width, height);
    dist(mouseX, mouseY, p.x, p.y)
  }

  /** The pointer is inside half the sphere's radius. */
  predicate Hit(s: Sphere, mouseX: real, mouseY: real, width: real, height: real,
                dist: (real, real, real, real) -> real)
    reads s
  {
    ScreenDistance(s, mouseX, mouseY, width, height, dist) < s.radius * 0.5
  }

  /** `vs[k]` is hit, no hit sphere is closer, and every hit sphere before
      it is strictly farther. */
  predicate IsPick(vs: seq<Sphere>, k: int, mouseX: real, mouseY: real, width: real, height: real,
                   dist: (real, real, real, real) -> real)
    reads vs
    requires 0 <= k < |vs|
  {
    && Hit(vs[k], mouseX, mouseY, width, height, dist)
    && (forall j :: 0 <= j < |vs| && Hit(vs[j], mouseX, mouseY, width, height, dist) ==>
          ScreenDistance(vs[k], mouseX, mouseY, width, height, dist)
          <= ScreenDistance(vs[j], mouseX, mouseY, width, height, dist))
    && (forall j :: 0 <= j < k && Hit(vs[j], mouseX, mouseY, width, height, dist) ==>
          ScreenDistance(vs[k], mouseX, mouseY, width, height, dist)
          < ScreenDistance(vs[j], mouseX, mouseY, width, height, dist))
  }

  class SphereRenderer {
    /** `this.p` and `this.store` are both set. */
    const attached: bool
    /** p5's `TWO_PI`. */
    const twoPi: real
    var lastFrameTime: real

    constructor (attached: bool, twoPi: real)
      requires twoPi > 0.0
      ensures this.attached == attached && this.twoPi == twoPi && lastFrameTime == 0.0
    {
      this.attached := attached;
      this.twoPi := twoPi;
      lastFrameTime := 0.0;
    }

    /** Each sphere with a nonzero speed, visible or not, advances its
        rotation object in place; `z`, and everything else, is left alone.
        Shared rotation objects are advanced once per sphere holding them. */
    method UpdateSphereRotations(deltaTime: real, spheres: seq<Sphere>)
      requires twoPi > 0.0
      modifies set s | s in spheres :: s.rotation
      ensures forall s :: s in spheres ==>
                && Angles(s.rotation.x, s.rotation.y)
                   == Spin(old(Angles(s.rotation.x, s.rotation.y)), SpeedsFor(s.rotation, SpinnersOf(spheres)), deltaTime, twoPi)
                && s.rotation.z == old(s.rotation.z)
    {
      ghost var ps := SpinnersOf(spheres);
      ghost var rotations := set s | s in spheres :: s.rotation;
      var i := 0;
      while i < |spheres|
        invariant 0 <= i <= |spheres|
        invariant forall r :: r in rotations ==>
                    && Angles(r.x, r.y) == Spin(old(Angles(r.x, r.y)), SpeedsFor(r, ps[..i]), deltaTime, twoPi)
                    && r.z == old(r.z)
      {
        var sphere := spheres[i];
        assert ps[i] == Spinner(sphere.rotation, sphere.rotationSpeed);
        SpeedsForStep(ps, i);
        label Before:
        if sphere.rotationSpeed != 0.0 {
          AdvanceRotation(sphere.rotation, sphere.rotationSpeed, deltaTime);
        }
        forall r | r in rotations
          ensures Angles(r.x, r.y) == Spin(old(Angles(r.x, r.y)), SpeedsFor(r, ps[..i + 1]), deltaTime, twoPi)
          ensures r.z == old(r.z)
        {
          var speeds := SpeedsFor(r, ps[..i]);
          assert old@Before(Angles(r.x, r.y)) == Spin(old(Angles(r.x, r.y)), speeds, deltaTime, twoPi);
          if r == sphere.rotation && sphere.rotationSpeed != 0.0 {
            SpinSnoc(old(Angles(r.x, r.y)), speeds, sphere.rotationSpeed, deltaTime, twoPi);
            assert SpeedsFor(r, ps[..i + 1]) == speeds + [sphere.rotationSpeed];
          } else {
            assert SpeedsFor(r, ps[..i + 1]) == speeds;
          }
        }
        i := i + 1;
      }
      assert ps[..|spheres|] == ps;
      assert SpinnersOf(spheres) == ps;
    }

    /** The body of the update for one sphere with a nonzero speed. */
    method AdvanceRotation(rotation: Rotation, speed: real, deltaTime: real)
      requires twoPi > 0.0
      modifies rotation
      ensures Angles(rotation.x, rotation.y) == Advance(old(Angles(rotation.x, rotation.y)), speed, deltaTime, twoPi)
      ensures rotation.z == old(rotation.z)
    {
      ghost var a := Angles(rotation.x, rotation.y);
      var delta := RotationDelta(speed, deltaTime, twoPi);
      rotation.y := rotation.y + delta;
      rotation.x := rotation.x + delta * 0.3;
      rotation.y := JsRem(rotation.y, twoPi);
      rotation.x := JsRem(rotation.x, twoPi);
      if rotation.y < 0.0 {
        rotation.y := rotation.y + twoPi;
      }
      if rotation.x < 0.0 {
        rotation.x := rotation.x + twoPi;
      }
      assert rotation.y == WrapAngle(a.y + delta, twoPi);
      assert rotation.x == WrapAngle(a.x + delta * 0.3, twoPi);
      assert Angles(rotation.x, rotation.y) == Advance(a, speed, deltaTime, twoPi);
    }

    /** One frame: unless a collaborator is missing, take the time, and
        advance the rotations by the time since the previous frame unless
        the store is paused. */
    method Render(now: real, isPaused: bool, spheres: seq<Sphere>)
      requires twoPi > 0.0
      modifies this`lastFrameTime, set s | s in spheres :: s.rotation
      ensures lastFrameTime == if attached then now else old(lastFrameTime)
      ensures forall s :: s in spheres ==> s.rotation.z == old(s.rotation.z)
      ensures !attached || isPaused ==>
                forall s :: s in spheres ==> s.rotation.x == old(s.rotation.x) && s.rotation.y == old(s.rotation.y)
      ensures attached && !isPaused ==>
                forall s :: s in spheres ==>
                  Angles(s.rotation.x, s.rotation.y)
                  == Spin(old(Angles(s.rotation.x, s.rotation.y)), SpeedsFor(s.rotation, SpinnersOf(spheres)), now - old(lastFrameTime), twoPi)
    {
      if !attached {
        return;
      }
      var deltaTime := now - lastFrameTime;
      lastFrameTime := now;
      if !isPaused {
        UpdateSphereRotations(deltaTime, spheres);
      }
    }
  }

  /** `getSphereAtPosition`: among the visible spheres (the store's
      `visibleSpheres`), the one whose projected centre is closest to the
      pointer among those within half their radius of it; the earliest wins
      a tie, because a later sphere must be strictly closer to replace it. */
  method GetSphereAtPosition(mouseX: real, mouseY: real, spheres: seq<Sphere>, width: real, height: real,
                             dist: (real, real, real, real) -> real)
    returns (closest: Option<Sphere>)
    ensures var vs := VisibleOf(spheres);
            closest.None? <==> forall i :: 0 <= i < |vs| ==> !Hit(vs[i], mouseX, mouseY, width, height, dist)
    ensures closest.Some? ==> closest.value.visible && closest.value in spheres
    ensures var vs := VisibleOf(spheres);
            closest.Some? ==>
              exists k :: 0 <= k < |vs| && vs[k] == closest.value && IsPick(vs, k, mouseX, mouseY, width, height, dist)
  {
    var vs := VisibleOf(spheres);
    closest := None;
    var closestIndex := 0;
    var closestDistance := 0.0;
    for i := 0 to |vs|
      invariant closest.None? <==> forall j :: 0 <= j < i ==> !Hit(vs[j], mouseX, mouseY, width, height, dist)
      invariant closest.Some? ==>
                  && 0 <= closestIndex < i && vs[closestIndex] == closest.value
                  && Hit(vs[closestIndex], mouseX, mouseY, width, height, dist)
                  && closestDistance == ScreenDistance(vs[closestIndex], mouseX, mouseY, width, height, dist)
                  && (forall j :: 0 <= j < i && Hit(vs[j], mouseX, mouseY, width, height, dist) ==>
                        closestDistance <= ScreenDistance(vs[j], mouseX, mouseY, width, height, dist))
                  && (forall j :: 0 <= j < closestIndex && Hit(vs[j], mouseX, mouseY, width, height, dist) ==>
                        closestDistance < ScreenDistance(vs[j], mouseX, mouseY, width, height, dist))
    {
      var sphere := vs[i];
      var screenPos := WorldToScreen(sphere.position, width, height);
      var distance := dist(mouseX, mouseY, screenPos.x, screenPos.y);
      var sphereScreenRadius := sphere.radius * 0.5;
      if distance < sphereScreenRadius && (closest.None? || distance < closestDistance) {
        closestDistance := distance;
        closest := Some(sphere);
        closestIndex := i;
      }
    }
    if closest.Some? {
      assert IsPick(vs, closestIndex, mouseX, mouseY, width, height, dist);
      assert vs[closestIndex] in vs;
    }
    assert vs == VisibleOf(spheres);
    assert closest.None? <==> forall j :: 0 <= j < |vs| ==> !Hit(vs[j], mouseX, mouseY, width, height, dist);
  }
}
