/** The scene aggregate of src/models/Scene.js: an ordered list of spheres
    with the camera, the lighting and the pause flag.

    The model follows the code, which validates nothing: `addSphere` appends
    whatever it is given, and `removeSphere` and `selectSphere` never throw on
    an absent id. The list holds references, so the same sphere object may
    appear twice; the selection property is stated with that in mind. */
module SceneModel {
  import opened Js
  import opened MathUtils
  import opened SphereModel

  /** `camera.rotation`: the two orbit angles. */
  datatype Orbit = Orbit(x: real, y: real)

  /** `{ position, rotation }`. No code of the core writes into a camera, it
      only replaces it, so it is a value. */
  datatype Camera = Camera(position: Vec3, rotation: Orbit)

  datatype Lighting = Lighting(ambient: real, directional: real)

  const DefaultCamera := Camera(Vec3(0.0, 0.0, 200.0), Orbit(0.0, 0.0))
  const DefaultLighting := Lighting(0.3, 0.7)

  /** The properties object of `new Scene(properties)`; `None` is absent. */
  datatype SceneProps = SceneProps(
    spheres: Option<seq<Sphere>>,
    camera: Option<Camera>,
    lighting: Option<Lighting>,
    isPaused: Option<bool>)

  const NoSceneProps := SceneProps(None, None, None, None)

  /** The object `toJSON` returns. */
  datatype SceneDoc = SceneDoc(spheres: seq<Sphere>, camera: Camera, lighting: Lighting, isPaused: bool)

  /** Every value a scene holds, read through its spheres. */
  datatype SceneData = SceneData(spheres: seq<SphereData>, camera: Camera, lighting: Lighting, isPaused: bool)

  /** The position of the first sphere with this id, or `|ss|` when none
      has it. */
  function IndexOfId(ss: seq<Sphere>, id: string): (k: nat)
    ensures k <= |ss|
    ensures forall j :: 0 <= j < k ==> ss[j].id != id
    ensures k < |ss| ==> ss[k].id == id
  {
    if ss == [] then 0
    else if ss[0].id == id then 0
    else 1 + IndexOfId(ss[1..], id)
  }

  /** `spheres.filter(sphere => sphere.id !== id)`. */
  function WithoutId(ss: seq<Sphere>, id: string): (r: seq<Sphere>)
    ensures forall i :: 0 <= i < |r| ==> r[i] in ss && r[i].id != id
    ensures forall i :: 0 <= i < |ss| && ss[i].id != id ==> ss[i] in r
    ensures |r| <= |ss|
    ensures (forall s :: s in ss ==> s.id != id) ==> r == ss
  {
    if ss == [] then []
    else (if ss[0].id != id then [ss[0]] else []) + WithoutId(ss[1..], id)
  }

  /** Removing distributes over concatenation, so the kept spheres stay in
      their original order. */
  lemma {:induction false} WithoutIdAppend(a: seq<Sphere>, b: seq<Sphere>, id: string)
    ensures WithoutId(a + b, id) == WithoutId(a, id) + WithoutId(b, id)
  {
    if a == [] {
      assert a + b == b;
    } else {
      assert (a + b)[1..] == a[1..] + b;
      WithoutIdAppend(a[1..], b, id);
    }
  }

  /** `spheres.filter(sphere => sphere.visible)`. */
  function VisibleOf(ss: seq<Sphere>): (r: seq<Sphere>)
    reads ss
    ensures forall i :: 0 <= i < |r| ==> r[i] in ss && r[i].visible
    ensures forall i :: 0 <= i < |ss| && ss[i].visible ==> ss[i] in r
    ensures |r| <= |ss|
  {
    if ss == [] then []
    else (if ss[0].visible then [ss[0]] else []) + VisibleOf(ss[1..])
  }

  /** Filtering distributes over concatenation, so the visible spheres keep
      their order. */
  lemma {:induction false} VisibleOfAppend(a: seq<Sphere>, b: seq<Sphere>)
    ensures VisibleOf(a + b) == VisibleOf(a) + VisibleOf(b)
  {
    if a == [] {
      assert a + b == b;
    } else {
      assert (a + b)[1..] == a[1..] + b;
      VisibleOfAppend(a[1..], b);
    }
  }

  /** The position of the first selected sphere, or `|ss|` when none is. */
  function IndexOfSelected(ss: seq<Sphere>): (k: nat)
    reads ss
    ensures k <= |ss|
    ensures forall j :: 0 <= j < k ==> !ss[j].selected
    ensures k < |ss| ==> ss[k].selected
  {
    if ss == [] then 0
    else if ss[0].selected then 0
    else 1 + IndexOfSelected(ss[1..])
  }

  /** The values of a list of spheres. */
  function DataOf(ss: seq<Sphere>): (r: seq<SphereData>)
    reads ss, set s | s in ss :: s.rotation, set s | s in ss :: s.colors, set s | s in ss :: s.material
    ensures |r| == |ss|
    ensures forall i :: 0 <= i < |ss| ==> r[i] == ss[i].Data()
  {
    if ss == [] then [] else [ss[0].Data()] + DataOf(ss[1..])
  }

  /** No sphere object appears twice in the list. */
  predicate Distinct(ss: seq<Sphere>) {
    forall i, j :: 0 <= i < j < |ss| ==> ss[i] != ss[j]
  }

  class Scene {
    var spheres: seq<Sphere>
    var camera: Camera
    var lighting: Lighting
    var isPaused: bool

    /** `new Scene(properties)`: each absent property takes its default; a
        supplied list, even an empty one, is kept. */
    constructor (props: SceneProps)
      ensures spheres == props.spheres.GetOr([])
      ensures camera == props.camera.GetOr(DefaultCamera)
      ensures lighting == props.lighting.GetOr(DefaultLighting)
      ensures isPaused == props.isPaused.GetOr(false)
    {
      spheres := props.spheres.GetOr([]);
      camera := props.camera.GetOr(DefaultCamera);
      lighting := props.lighting.GetOr(DefaultLighting);
      isPaused := props.isPaused.GetOr(false);
    }

    /** Every value the scene holds, through its spheres. */
    function Data(): SceneData
      reads this, spheres, set s | s in spheres :: s.rotation, set s | s in spheres :: s.colors,
            set s | s in spheres :: s.material
    {
      SceneData(DataOf(spheres), camera, lighting, isPaused)
    }

    /** Appends without any check; earlier spheres keep their places. */
    method AddSphere(sphere: Sphere)
      modifies this`spheres
      ensures spheres == old(spheres) + [sphere]
      ensures |spheres| == old(|spheres|) + 1 && spheres[|spheres| - 1] == sphere
      ensures forall i :: 0 <= i < old(|spheres|) ==> spheres[i] == old(spheres[i])
    {
      spheres := spheres + [sphere];
    }

    /** Drops every sphere with this id; an absent id changes nothing. */
    method RemoveSphere(id: string)
      modifies this`spheres
      ensures spheres == WithoutId(old(spheres), id)
      ensures forall s :: s in spheres <==> s in old(spheres) && s.id != id
      ensures (forall s :: s in old(spheres) ==> s.id != id) ==> spheres == old(spheres)
    {
      spheres := WithoutId(spheres, id);
    }

    /** `spheres.find(sphere => sphere.id === id)`. */
    function GetSphere(id: string): (r: Option<Sphere>)
      reads this
      ensures r.None? <==> forall s :: s in spheres ==> s.id != id
      ensures r.Some? ==> exists k :: 0 <= k < |spheres| && spheres[k] == r.value && r.value.id == id
                                      && forall j :: 0 <= j < k ==> spheres[j].id != id
    {
      var k := IndexOfId(spheres, id);
      if k < |spheres| then Some(spheres[k]) else None
    }

    /** `spheres.filter(sphere => sphere.visible)`. */
    function GetVisibleSpheres(): (r: seq<Sphere>)
      reads this, spheres
      ensures forall i :: 0 <= i < |r| ==> r[i] in spheres && r[i].visible
      ensures forall i :: 0 <= i < |spheres| && spheres[i].visible ==> spheres[i] in r
    {
      VisibleOf(spheres)
    }

    /** `spheres.find(sphere => sphere.selected)`. */
    function GetSelectedSphere(): (r: Option<Sphere>)
      reads this, spheres
      ensures r.None? <==> forall s :: s in spheres ==> !s.selected
      ensures r.Some? ==> exists k :: 0 <= k < |spheres| && spheres[k] == r.value && r.value.selected
                                      && forall j :: 0 <= j < k ==> !spheres[j].selected
    {
      var k := IndexOfSelected(spheres);
      if k < |spheres| then Some(spheres[k]) else None
    }

    /** Clears every flag, then sets the flag of the first sphere with this
        id. Afterwards exactly the entries that are that sphere object are
        selected (none when the id is absent), so a list without repeated
        objects has at most one selected sphere. */
    method SelectSphere(id: string)
      modifies spheres`selected
      ensures forall i :: 0 <= i < |spheres| ==>
                (spheres[i].selected <==> GetSphere(id).Some? && spheres[i] == GetSphere(id).value)
      ensures GetSelectedSphere() == GetSphere(id)
      ensures Distinct(spheres) ==>
                forall i, j :: 0 <= i < |spheres| && 0 <= j < |spheres| && spheres[i].selected && spheres[j].selected
                  ==> i == j
    {
      var i := 0;
      while i < |spheres|
        invariant 0 <= i <= |spheres|
        invariant forall j :: 0 <= j < i ==> !spheres[j].selected
      {
        spheres[i].selected := false;
        i := i + 1;
      }
      var target := GetSphere(id);
      if target.Some? {
        target.value.selected := true;
      }
      ghost var k := IndexOfSelected(spheres);
      if target.Some? {
        var t := IndexOfId(spheres, id);
        assert spheres[t].selected;
        assert k <= t;
      }
    }

    /** Back to an empty list, the default camera and lighting, unpaused. */
    method Reset()
      modifies this
      ensures spheres == [] && camera == DefaultCamera && lighting == DefaultLighting && !isPaused
    {
      spheres := [];
      camera := DefaultCamera;
      lighting := DefaultLighting;
      isPaused := false;
    }

    /** Each sphere becomes a fresh shallow copy `{ ...sphere }` holding the
        same values (and sharing its nested objects); camera and lighting are
        copied as values. */
    method ToJSON() returns (doc: SceneDoc)
      ensures |doc.spheres| == |spheres|
      ensures forall i :: 0 <= i < |spheres| ==>
                fresh(doc.spheres[i]) && doc.spheres[i].colors == spheres[i].colors
                && doc.spheres[i].material == spheres[i].material && doc.spheres[i].rotation == spheres[i].rotation
      ensures DataOf(doc.spheres) == DataOf(spheres)
      ensures doc.camera == camera && doc.lighting == lighting && doc.isPaused == isPaused
    {
      var copies: seq<Sphere> := [];
      for i := 0 to |spheres|
        invariant |copies| == i
        invariant forall j :: 0 <= j < i ==>
                    fresh(copies[j]) && copies[j].colors == spheres[j].colors
                    && copies[j].material == spheres[j].material && copies[j].rotation == spheres[j].rotation
                    && copies[j].Data() == spheres[j].Data()
      {
        var c := new Sphere.Spread(spheres[i]);
        copies := copies + [c];
      }
      doc := SceneDoc(copies, camera, lighting, isPaused);
    }

    /** `Scene.fromJSON(data)` is `new Scene(data)`: the document's own
        sphere objects become the new scene's list. */
    static method FromJSON(doc: SceneDoc) returns (scene: Scene)
      ensures fresh(scene)
      ensures scene.spheres == doc.spheres
      ensures scene.camera == doc.camera && scene.lighting == doc.lighting && scene.isPaused == doc.isPaused
    {
      scene := new Scene(SceneProps(Some(doc.spheres), Some(doc.camera), Some(doc.lighting), Some(doc.isPaused)));
    }

    /** `Scene.fromJSON(scene.toJSON())` holds the same values, ids included,
        in new sphere objects that share their nested objects with this
        scene's. */
    method JsonRoundTrip() returns (loaded: Scene)
      ensures fresh(loaded)
      ensures loaded.Data() == Data()
      ensures |loaded.spheres| == |spheres|
      ensures forall i :: 0 <= i < |spheres| ==>
                loaded.spheres[i] != spheres[i] && loaded.spheres[i].colors == spheres[i].colors
    {
      var doc := ToJSON();
      loaded := FromJSON(doc);
    }
  }

  /** A fresh scene is empty, with the default camera and lighting, and runs. */
  method NewSceneDefaults() returns (scene: Scene)
    ensures scene.Data() == SceneData([], DefaultCamera, DefaultLighting, false)
  {
    scene := new Scene(NoSceneProps);
  }
}
