/** The sphere entity of src/models/Sphere.js: a mutable record whose setters
    validate their input, clamp numbers into range and throw otherwise.

    The nested `colors`, `material` and `rotation` objects are heap objects of
    their own: `clone` copies the sphere with a shallow spread, so a clone
    shares them with its original, `setColors` and `setMaterial` write into
    them in place, and the renderer advances `rotation` in place. The position
    is a value, because the only code that writes it (`setPosition`) replaces
    it wholesale. */
module SphereModel {
  import opened Js
  import opened MathUtils

  // Messages of the errors the setters throw.
  const RadiusTypeError := "Radius must be a valid number"
  const SpeedTypeError := "Rotation speed must be a valid number"
  const PositionTypeError := "Position coordinates must be valid numbers"
  const PositionNaNError := "Position coordinates cannot be NaN"
  const StartColorError := "Start color must be a valid hex color"
  const EndColorError := "End color must be a valid hex color"
  const ShininessTypeError := "Shininess must be a valid number"
  const MetallicTypeError := "Metallic must be a valid number"
  const VisibilityTypeError := "Visibility must be a boolean value"
  const SelectionTypeError := "Selection must be a boolean value"

  // Messages `validate` reports (the two colour messages are shared with
  // `setColors`).
  const RadiusRangeError := "Radius must be between 1 and 200"
  const SpeedRangeError := "Rotation speed must be between -5 and 5"
  const ShininessRangeError := "Shininess must be between 0 and 1000"
  const MetallicRangeError := "Metallic must be between 0 and 1"

  const DefaultStartColor := "#ff6b6b"
  const DefaultEndColor := "#4ecdc4"

  /** `{ start, end }`, the two ends of the colour gradient. */
  class Colors {
    var start: string
    var end: string

    constructor (start: string, end: string)
      ensures this.start == start && this.end == end
    {
      this.start := start;
      this.end := end;
    }
  }

  /** `{ shininess, metallic }`. */
  class Material {
    var shininess: real
    var metallic: real

    constructor (shininess: real, metallic: real)
      ensures this.shininess == shininess && this.metallic == metallic
    {
      this.shininess := shininess;
      this.metallic := metallic;
    }
  }

  /** `{ x, y, z }` Euler angles, advanced in place every frame. */
  class Rotation {
    var x: real
    var y: real
    var z: real

    constructor (x: real, y: real, z: real)
      ensures this.x == x && this.y == y && this.z == z
    {
      this.x, this.y, this.z := x, y, z;
    }
  }

  /** The properties object the constructor reads; `None` is a property that
      is absent (`undefined`). */
  datatype SphereProps = SphereProps(
    id: Option<string>,
    name: Option<string>,
    position: Option<Vec3>,
    radius: Option<real>,
    rotation: Option<Rotation>,
    rotationSpeed: Option<real>,
    colors: Option<Colors>,
    material: Option<Material>,
    visible: Option<bool>,
    selected: Option<bool>)

  /** `new Sphere()` with no properties. */
  const NoProps := SphereProps(None, None, None, None, None, None, None, None, None, None)

  /** The argument of `setMaterial`: `Undefined` is an absent field. */
  datatype MaterialUpdate = MaterialUpdate(shininess: JsValue, metallic: JsValue)

  /** What `validate` returns. */
  datatype ValidationResult = ValidationResult(isValid: bool, errors: seq<string>)

  /** The value of every field of a sphere, nested objects included. */
  datatype SphereData = SphereData(
    id: string,
    name: string,
    position: Vec3,
    radius: real,
    rotation: Vec3,
    rotationSpeed: real,
    colorStart: string,
    colorEnd: string,
    shininess: real,
    metallic: real,
    visible: bool,
    selected: bool)

  /** `s || fallback` for a string property. */
  function OrString(o: Option<string>, fallback: string): string {
    if o.Some? && o.value != "" then o.value else fallback
  }

  /** `n || fallback` for a numeric property: 0 is falsy. */
  function OrNumber(o: Option<real>, fallback: real): real {
    if o.Some? && o.value != 0.0 then o.value else fallback
  }

  /** `s.slice(-4)`: the last four characters, or all of a shorter string. */
  function LastFour(s: string): (r: string)
    ensures |r| == if |s| < 4 then |s| else 4
    ensures s == s[..|s| - |r|] + r
  {
    if |s| <= 4 then s else s[|s| - 4..]
  }

  predicate IsHexDigit(c: char) {
    '0' <= c <= '9' || 'a' <= c <= 'f' || 'A' <= c <= 'F'
  }

  predicate AllHex(s: string) {
    forall i :: 0 <= i < |s| ==> IsHexDigit(s[i])
  }

  /** `toLowerCase` on one character of the ASCII letters. */
  function Lower(c: char): char {
    if 'A' <= c <= 'Z' then (c as int + 32) as char else c
  }

  function LowerString(s: string): (r: string)
    ensures |r| == |s| && forall i :: 0 <= i < |s| ==> r[i] == Lower(s[i])
  {
    seq(|s|, i requires 0 <= i < |s| => Lower(s[i]))
  }

  /** `typeof color === 'string' && /^#([A-Fa-f0-9]{6}|[A-Fa-f0-9]{3})$/.test(color)`. */
  predicate IsValidColor(color: JsValue)
    ensures IsValidColor(color) ==> color.Str? && Truthy(color)
  {
    color.Str? && (|color.s| == 4 || |color.s| == 7) && color.s[0] == '#' && AllHex(color.s[1..])
  }

  /** One check of `validate`: push `message` when the check failed. */
  function Check(errors: seq<string>, failed: bool, message: string): seq<string> {
    if failed then errors + [message] else errors
  }

  /** The checks of `validate`, each reporting its message when it fails, in
      the source's order. The position check of the source tests that each
      coordinate is of type number; here coordinates are always numbers, so
      it never reports. */
  function ValidationErrors(d: SphereData): (errors: seq<string>)
    ensures |errors| <= 6
    ensures forall m :: m in errors ==>
              m == RadiusRangeError || m == SpeedRangeError || m == StartColorError
              || m == EndColorError || m == ShininessRangeError || m == MetallicRangeError
  {
    var e1 := Check([], !(1.0 <= d.radius <= 200.0), RadiusRangeError);
    var e2 := Check(e1, !(-5.0 <= d.rotationSpeed <= 5.0), SpeedRangeError);
    var e3 := Check(e2, !IsValidColor(Str(d.colorStart)), StartColorError);
    var e4 := Check(e3, !IsValidColor(Str(d.colorEnd)), EndColorError);
    var e5 := Check(e4, !(0.0 <= d.shininess <= 1000.0), ShininessRangeError);
    Check(e5, !(0.0 <= d.metallic <= 1.0), MetallicRangeError)
  }

  /** Every range and format the setters establish. */
  predicate InRange(d: SphereData) {
    && 1.0 <= d.radius <= 200.0
    && -5.0 <= d.rotationSpeed <= 5.0
    && IsValidColor(Str(d.colorStart))
    && IsValidColor(Str(d.colorEnd))
    && 0.0 <= d.shininess <= 1000.0
    && 0.0 <= d.metallic <= 1.0
  }

  class Sphere {
    const id: string
    var name: string
    var position: Vec3
    var radius: real
    var rotation: Rotation
    var rotationSpeed: real
    var colors: Colors
    var material: Material
    var visible: bool
    var selected: bool

    /** `new Sphere(properties)`. A falsy or absent property takes its
        default, so a radius or speed of 0 becomes 50 or 1, while
        `visible: false` is kept because only `undefined` is replaced.
        `generatedId` stands for `generateUniqueId()`. */
    constructor (props: SphereProps, generatedId: string)
      ensures id == OrString(props.id, generatedId)
      ensures name == OrString(props.name, "Sphere " + LastFour(id))
      ensures position == props.position.GetOr(Vec3(0.0, 0.0, 0.0))
      ensures radius == OrNumber(props.radius, 50.0)
      ensures rotationSpeed == OrNumber(props.rotationSpeed, 1.0)
      ensures props.rotation.Some? ==> rotation == props.rotation.value
      ensures props.rotation.None? ==> fresh(rotation) && rotation.x == 0.0 && rotation.y == 0.0 && rotation.z == 0.0
      ensures props.colors.Some? ==> colors == props.colors.value
      ensures props.colors.None? ==> fresh(colors) && colors.start == DefaultStartColor && colors.end == DefaultEndColor
      ensures props.material.Some? ==> material == props.material.value
      ensures props.material.None? ==> fresh(material) && material.shininess == 100.0 && material.metallic == 0.5
      ensures visible == props.visible.GetOr(true)
      ensures selected == props.selected.GetOr(false)
    {
      id := OrString(props.id, generatedId);
      name := OrString(props.name, "Sphere " + LastFour(OrString(props.id, generatedId)));
      position := props.position.GetOr(Vec3(0.0, 0.0, 0.0));
      radius := OrNumber(props.radius, 50.0);
      if props.rotation.Some? {
        rotation := props.rotation.value;
      } else {
        rotation := new Rotation(0.0, 0.0, 0.0);
      }
      rotationSpeed := OrNumber(props.rotationSpeed, 1.0);
      if props.colors.Some? {
        colors := props.colors.value;
      } else {
        colors := new Colors(DefaultStartColor, DefaultEndColor);
      }
      if props.material.Some? {
        material := props.material.value;
      } else {
        material := new Material(100.0, 0.5);
      }
      visible := props.visible.GetOr(true);
      selected := props.selected.GetOr(false);
    }

    /** `{ ...sphere }`: a new object holding the same field values, so the
        nested objects are shared. */
    constructor Spread(s: Sphere)
      ensures id == s.id && name == s.name && position == s.position && radius == s.radius
      ensures rotation == s.rotation && rotationSpeed == s.rotationSpeed
      ensures colors == s.colors && material == s.material
      ensures visible == s.visible && selected == s.selected
    {
      id, name, position, radius := s.id, s.name, s.position, s.radius;
      rotation, rotationSpeed := s.rotation, s.rotationSpeed;
      colors, material := s.colors, s.material;
      visible, selected := s.visible, s.selected;
    }

    /** The value of every field, reading through the nested objects. */
    function Data(): SphereData
      reads this, rotation, colors, material
    {
      SphereData(id, name, position, radius, Vec3(rotation.x, rotation.y, rotation.z), rotationSpeed,
                 colors.start, colors.end, material.shininess, material.metallic, visible, selected)
    }

    method SetRadius(value: JsValue) returns (status: Status)
      modifies this`radius
      ensures status == if value.Num? then Done else Thrown(RadiusTypeError)
      ensures radius == if value.Num? then Clamp(value.n, 1.0, 200.0) else old(radius)
    {
      if !IsNumber(value) || value.NaN? {
        return Thrown(RadiusTypeError);
      }
      radius := Clamp(value.n, 1.0, 200.0);
      status := Done;
    }

    method SetRotationSpeed(value: JsValue) returns (status: Status)
      modifies this`rotationSpeed
      ensures status == if value.Num? then Done else Thrown(SpeedTypeError)
      ensures rotationSpeed == if value.Num? then Clamp(value.n, -5.0, 5.0) else old(rotationSpeed)
    {
      if !IsNumber(value) || value.NaN? {
        return Thrown(SpeedTypeError);
      }
      rotationSpeed := Clamp(value.n, -5.0, 5.0);
      status := Done;
    }

    /** The type check comes first, so `('x', NaN, 1)` reports the type
        error; on either error the position is untouched. */
    method SetPosition(x: JsValue, y: JsValue, z: JsValue) returns (status: Status)
      modifies this`position
      ensures !(IsNumber(x) && IsNumber(y) && IsNumber(z)) ==> status == Thrown(PositionTypeError)
      ensures IsNumber(x) && IsNumber(y) && IsNumber(z) && (x.NaN? || y.NaN? || z.NaN?) ==>
                status == Thrown(PositionNaNError)
      ensures status == Done <==> x.Num? && y.Num? && z.Num?
      ensures position == if status == Done then Vec3(x.n, y.n, z.n) else old(position)
    {
      if !IsNumber(x) || !IsNumber(y) || !IsNumber(z) {
        return Thrown(PositionTypeError);
      }
      if x.NaN? || y.NaN? || z.NaN? {
        return Thrown(PositionNaNError);
      }
      position := Vec3(x.n, y.n, z.n);
      status := Done;
    }

    /** Both colours are checked before either is written; a falsy argument
        leaves its end of the gradient as it was. */
    method SetColors(startColor: JsValue, endColor: JsValue) returns (status: Status)
      modifies colors
      ensures Truthy(startColor) && !IsValidColor(startColor) ==> status == Thrown(StartColorError)
      ensures !(Truthy(startColor) && !IsValidColor(startColor)) && Truthy(endColor) && !IsValidColor(endColor) ==>
                status == Thrown(EndColorError)
      ensures status == Done <==>
                (!Truthy(startColor) || IsValidColor(startColor)) && (!Truthy(endColor) || IsValidColor(endColor))
      ensures colors.start == if status == Done && Truthy(startColor) then startColor.s else old(colors.start)
      ensures colors.end == if status == Done && Truthy(endColor) then endColor.s else old(colors.end)
    {
      if Truthy(startColor) && !IsValidColor(startColor) {
        return Thrown(StartColorError);
      }
      if Truthy(endColor) && !IsValidColor(endColor) {
        return Thrown(EndColorError);
      }
      if Truthy(startColor) {
        colors.start := startColor.s;
      }
      if Truthy(endColor) {
        colors.end := endColor.s;
      }
      status := Done;
    }

    /** Each present field is checked and clamped in turn. Not atomic: a valid
        shininess is already written when an invalid metallic throws. */
    method SetMaterial(update: MaterialUpdate) returns (status: Status)
      modifies material
      ensures !update.shininess.Undefined? && !update.shininess.Num? ==>
                status == Thrown(ShininessTypeError) && unchanged(material)
      ensures (update.shininess.Undefined? || update.shininess.Num?) ==>
                && material.shininess == (if update.shininess.Num? then Clamp(update.shininess.n, 0.0, 1000.0)
                                          else old(material.shininess))
                && (!update.metallic.Undefined? && !update.metallic.Num? ==>
                      status == Thrown(MetallicTypeError) && material.metallic == old(material.metallic))
                && (update.metallic.Undefined? || update.metallic.Num? ==>
                      status == Done
                      && material.metallic == (if update.metallic.Num? then Clamp(update.metallic.n, 0.0, 1.0)
                                               else old(material.metallic)))
    {
      if !update.shininess.Undefined? {
        if !IsNumber(update.shininess) || update.shininess.NaN? {
          return Thrown(ShininessTypeError);
        }
        material.shininess := Clamp(update.shininess.n, 0.0, 1000.0);
      }
      if !update.metallic.Undefined? {
        if !IsNumber(update.metallic) || update.metallic.NaN? {
          return Thrown(MetallicTypeError);
        }
        material.metallic := Clamp(update.metallic.n, 0.0, 1.0);
      }
      status := Done;
    }

    method SetVisibility(value: JsValue) returns (status: Status)
      modifies this`visible
      ensures status == if value.Bool? then Done else Thrown(VisibilityTypeError)
      ensures visible == if value.Bool? then value.b else old(visible)
    {
      if !value.Bool? {
        return Thrown(VisibilityTypeError);
      }
      visible := value.b;
      status := Done;
    }

    method SetSelection(value: JsValue) returns (status: Status)
      modifies this`selected
      ensures status == if value.Bool? then Done else Thrown(SelectionTypeError)
      ensures selected == if value.Bool? then value.b else old(selected)
    {
      if !value.Bool? {
        return Thrown(SelectionTypeError);
      }
      selected := value.b;
      status := Done;
    }

    /** Collects one message per failing check; reads the sphere and changes
        nothing. */
    method Validate() returns (result: ValidationResult)
      ensures result.errors == ValidationErrors(Data())
      ensures result.isValid <==> result.errors == []
    {
      ghost var d := Data();
      var errors: seq<string> := [];
      if !(1.0 <= radius <= 200.0) {
        errors := errors + [RadiusRangeError];
      }
      assert errors == Check([], !(1.0 <= d.radius <= 200.0), RadiusRangeError);
      if !(-5.0 <= rotationSpeed <= 5.0) {
        errors := errors + [SpeedRangeError];
      }
      assert errors == Check(Check([], !(1.0 <= d.radius <= 200.0), RadiusRangeError),
                             !(-5.0 <= d.rotationSpeed <= 5.0), SpeedRangeError);
      ghost var e2 := errors;
      if !IsValidColor(Str(colors.start)) {
        errors := errors + [StartColorError];
      }
      assert errors == Check(e2, !IsValidColor(Str(d.colorStart)), StartColorError);
      ghost var e3 := errors;
      if !IsValidColor(Str(colors.end)) {
        errors := errors + [EndColorError];
      }
      assert errors == Check(e3, !IsValidColor(Str(d.colorEnd)), EndColorError);
      ghost var e4 := errors;
      if !(0.0 <= material.shininess <= 1000.0) {
        errors := errors + [ShininessRangeError];
      }
      assert errors == Check(e4, !(0.0 <= d.shininess <= 1000.0), ShininessRangeError);
      ghost var e5 := errors;
      if !(0.0 <= material.metallic <= 1.0) {
        errors := errors + [MetallicRangeError];
      }
      assert errors == Check(e5, !(0.0 <= d.metallic <= 1.0), MetallicRangeError);
      result := ValidationResult(|errors| == 0, errors);
    }

    /** `new Sphere({ ...this, id: generateUniqueId(), name: name + ' Copy',
        selected: false })`. The spread hands over the nested objects, so the
        copy shares `rotation`, `colors` and `material` with this sphere, and
        the constructor's defaults apply again (a speed of 0 becomes 1). */
    method Clone(freshId: string) returns (copy: Sphere)
      requires freshId != "" && freshId != id
      ensures fresh(copy)
      ensures copy.id == freshId && copy.id != id
      ensures copy.name == name + " Copy"
      ensures copy.position == position
      ensures copy.radius == (if radius != 0.0 then radius else 50.0)
      ensures copy.rotationSpeed == (if rotationSpeed != 0.0 then rotationSpeed else 1.0)
      ensures copy.rotation == rotation && copy.colors == colors && copy.material == material
      ensures copy.visible == visible && !copy.selected
    {
      var props := SphereProps(Some(freshId), Some(name + " Copy"), Some(position), Some(radius), Some(rotation),
                               Some(rotationSpeed), Some(colors), Some(material), Some(visible), Some(false));
      copy := new Sphere(props, freshId);
    }
  }

  /** The fields of `new Sphere()` apart from its generated id and name. */
  function DefaultData(id: string, name: string): SphereData {
    SphereData(id, name, Vec3(0.0, 0.0, 0.0), 50.0, Vec3(0.0, 0.0, 0.0), 1.0,
               DefaultStartColor, DefaultEndColor, 100.0, 0.5, true, false)
  }

  /** `validate` reports each message exactly when its check fails, and
      never more than six of them. */
  lemma ValidationErrorsExact(d: SphereData)
    ensures RadiusRangeError in ValidationErrors(d) <==> !(1.0 <= d.radius <= 200.0)
    ensures SpeedRangeError in ValidationErrors(d) <==> !(-5.0 <= d.rotationSpeed <= 5.0)
    ensures StartColorError in ValidationErrors(d) <==> !IsValidColor(Str(d.colorStart))
    ensures EndColorError in ValidationErrors(d) <==> !IsValidColor(Str(d.colorEnd))
    ensures ShininessRangeError in ValidationErrors(d) <==> !(0.0 <= d.shininess <= 1000.0)
    ensures MetallicRangeError in ValidationErrors(d) <==> !(0.0 <= d.metallic <= 1.0)
    ensures |ValidationErrors(d)| <= 6
  {
    ChecksExact(!(1.0 <= d.radius <= 200.0), !(-5.0 <= d.rotationSpeed <= 5.0),
                !IsValidColor(Str(d.colorStart)), !IsValidColor(Str(d.colorEnd)),
                !(0.0 <= d.shininess <= 1000.0), !(0.0 <= d.metallic <= 1.0));
  }

  /** The six checks in a row, whatever their outcomes: each message is
      reported exactly when its check fails. */
  lemma ChecksExact(f1: bool, f2: bool, f3: bool, f4: bool, f5: bool, f6: bool)
    ensures var errors := Check(Check(Check(Check(Check(Check([], f1, RadiusRangeError), f2, SpeedRangeError),
                                                  f3, StartColorError), f4, EndColorError),
                                      f5, ShininessRangeError), f6, MetallicRangeError);
            && (RadiusRangeError in errors <==> f1) && (SpeedRangeError in errors <==> f2)
            && (StartColorError in errors <==> f3) && (EndColorError in errors <==> f4)
            && (ShininessRangeError in errors <==> f5) && (MetallicRangeError in errors <==> f6)
            && |errors| <= 6
  {
    MessagesDistinct();
    var e1 := Check([], f1, RadiusRangeError);
    var e2 := Check(e1, f2, SpeedRangeError);
    var e3 := Check(e2, f3, StartColorError);
    var e4 := Check(e3, f4, EndColorError);
    var e5 := Check(e4, f5, ShininessRangeError);
    InCheck([], f1, RadiusRangeError);
    InCheck(e1, f2, SpeedRangeError);
    InCheck(e2, f3, StartColorError);
    InCheck(e3, f4, EndColorError);
    InCheck(e4, f5, ShininessRangeError);
    InCheck(e5, f6, MetallicRangeError);
  }

  /** A check adds its message, and only it, when it fails. */
  lemma InCheck(errors: seq<string>, failed: bool, message: string)
    ensures forall m :: m in Check(errors, failed, message) <==> m in errors || (failed && m == message)
    ensures |Check(errors, failed, message)| <= |errors| + 1
  {
  }

  /** The six range and format messages are different strings: their
      lengths differ, except the first and last, which differ in their first
      letter. */
  lemma MessagesDistinct()
    ensures RadiusRangeError != SpeedRangeError && RadiusRangeError != StartColorError
    ensures RadiusRangeError != EndColorError && RadiusRangeError != ShininessRangeError
    ensures RadiusRangeError != MetallicRangeError && SpeedRangeError != StartColorError
    ensures SpeedRangeError != EndColorError && SpeedRangeError != ShininessRangeError
    ensures SpeedRangeError != MetallicRangeError && StartColorError != EndColorError
    ensures StartColorError != ShininessRangeError && StartColorError != MetallicRangeError
    ensures EndColorError != ShininessRangeError && EndColorError != MetallicRangeError
    ensures ShininessRangeError != MetallicRangeError
  {
    assert |RadiusRangeError| == 32 && |SpeedRangeError| == 39 && |StartColorError| == 37;
    assert |EndColorError| == 35 && |ShininessRangeError| == 36 && |MetallicRangeError| == 32;
    assert RadiusRangeError[0] != MetallicRangeError[0];
  }

  /** A sphere is valid exactly when every field is in the range the setters
      establish. */
  lemma ValidIffInRange(d: SphereData)
    ensures ValidationErrors(d) == [] <==> InRange(d)
  {
  }

  /** The default sphere is valid. */
  lemma DefaultSphereIsValid(id: string, name: string)
    ensures ValidationErrors(DefaultData(id, name)) == []
  {
    assert IsValidColor(Str(DefaultStartColor)) by { assert AllHex(DefaultStartColor[1..]); }
    assert IsValidColor(Str(DefaultEndColor)) by { assert AllHex(DefaultEndColor[1..]); }
  }

  /** What each setter writes keeps a valid sphere valid. */
  lemma SettersKeepValid(d: SphereData, r: real, s: real, sh: real, m: real, c: JsValue)
    requires InRange(d)
    ensures InRange(d.(radius := Clamp(r, 1.0, 200.0)))
    ensures InRange(d.(rotationSpeed := Clamp(s, -5.0, 5.0)))
    ensures InRange(d.(shininess := Clamp(sh, 0.0, 1000.0)))
    ensures InRange(d.(metallic := Clamp(m, 0.0, 1.0)))
    ensures IsValidColor(c) ==> InRange(d.(colorStart := c.s)) && InRange(d.(colorEnd := c.s))
    ensures InRange(d.(position := Vec3(r, s, sh), visible := !d.visible, selected := !d.selected))
  {
  }

  /** The colour check does not see the case of the hex digits. */
  lemma ValidColorIgnoresCase(s: string)
    ensures IsValidColor(Str(LowerString(s))) <==> IsValidColor(Str(s))
  {
    var low := LowerString(s);
    if |s| == 4 || |s| == 7 {
      assert low[0] == '#' <==> s[0] == '#';
      forall i | 0 <= i < |s| - 1
        ensures IsHexDigit(low[1..][i]) <==> IsHexDigit(s[1..][i])
      {
        assert low[1..][i] == Lower(s[1..][i]);
      }
    }
  }

  /** `new Sphere().validate()` reports nothing. */
  method NewSphereValidates(generatedId: string) returns (result: ValidationResult)
    ensures result.isValid && result.errors == []
  {
    var sphere := new Sphere(NoProps, generatedId);
    assert sphere.Data() == DefaultData(sphere.id, sphere.name);
    DefaultSphereIsValid(sphere.id, sphere.name);
    result := sphere.Validate();
  }

  /** On a new sphere, writing a radius of 0, a speed of 10 and the start
      colour "invalid" straight into its fields makes `validate` report
      exactly those three problems. */
  method ThreeBadFieldsOnNewSphere(generatedId: string) returns (result: ValidationResult)
    ensures !result.isValid
    ensures result.errors == [RadiusRangeError, SpeedRangeError, StartColorError]
  {
    var sphere := new Sphere(NoProps, generatedId);
    sphere.radius := 0.0;
    sphere.rotationSpeed := 10.0;
    sphere.colors.start := "invalid";
    assert sphere.Data() == DefaultData(sphere.id, sphere.name).(radius := 0.0, rotationSpeed := 10.0, colorStart := "invalid");
    ThreeBadFieldsThreeErrors(sphere.id, sphere.name);
    result := sphere.Validate();
  }

  /** A radius of 0, a speed of 10 and a bad start colour give exactly
      three messages, in this order. */
  lemma ThreeBadFieldsThreeErrors(id: string, name: string)
    ensures ValidationErrors(DefaultData(id, name).(radius := 0.0, rotationSpeed := 10.0, colorStart := "invalid"))
            == [RadiusRangeError, SpeedRangeError, StartColorError]
  {
    DefaultSphereIsValid(id, name);
  }

  /** The colour format accepts exactly '#' and 3 or 6 hex digits. */
  lemma ColorExamples()
    ensures IsValidColor(Str("#ff0000")) && IsValidColor(Str("#FF0000"))
    ensures IsValidColor(Str("#f00")) && IsValidColor(Str("#F00"))
    ensures !IsValidColor(Str("ff0000")) && !IsValidColor(Str("#gggggg"))
    ensures !IsValidColor(Str("#ff00")) && !IsValidColor(Str("#ff00000"))
    ensures !IsValidColor(Str("red")) && !IsValidColor(Num(123.0)) && !IsValidColor(Null)
  {
    assert AllHex("#ff0000"[1..]) && AllHex("#FF0000"[1..]);
    assert AllHex("#f00"[1..]) && AllHex("#F00"[1..]);
    assert !IsHexDigit("#gggggg"[1]);
  }

  /** The copy is independent at the top level and shares its nested
      objects: resizing the copy leaves the original's radius alone, while
      recolouring the copy recolours the original. */
  method CloneThenEdit(original: Sphere, freshId: string) returns (copy: Sphere)
    requires freshId != "" && freshId != original.id
    modifies original.colors
    ensures fresh(copy) && copy.id != original.id
    ensures original.radius == old(original.radius) && copy.radius == 100.0
    ensures original.colors.start == "#00ff00"
  {
    copy := original.Clone(freshId);
    var _ := copy.SetRadius(Num(100.0));
    assert AllHex("#00ff00"[1..]);
    var _ := copy.SetColors(Str("#00ff00"), Undefined);
  }
}
