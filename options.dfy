// Option defaulting of canvasLoaderReplace: a fixed defaults record whose
// overridable fields are overwritten in place by the truthy values found on
// the `options` argument.

module Options {
  import opened JsValues

  /** The settings record, field for field. */
  datatype Config = Config(
    radius: JsValue,
    color: JsValue,
    dotRadius: JsValue,
    backgroundColor: JsValue,
    className: JsValue,
    id: JsValue,
    fps: JsValue)

  /** Reading `options.radius` when `options` is null throws a TypeError. */
  datatype Outcome<T> = Ok(value: T) | TypeError

  /** The literal defaults record. */
  const Defaults: Config := Config(
    Num(20.0), Str("rgb(0,0,0)"), Num(2.5), Str("transparent"),
    Str("canvasLoader"), Str("canvasLoader1"), Num(10.0))

  /** The names of the seven settings. */
  const SettingKeys: set<string> :=
    {"radius", "color", "dotRadius", "backgroundColor", "className", "id", "fps"}

  /** The settings that have an override line; `className` has none. */
  const Overridable: set<string> :=
    {"radius", "color", "dotRadius", "backgroundColor", "id", "fps"}

  /** A setting looked up by its name. */
  function Field(c: Config, key: string): JsValue
    requires key in SettingKeys
  {
    match key
    case "radius" => c.radius
    case "color" => c.color
    case "dotRadius" => c.dotRadius
    case "backgroundColor" => c.backgroundColor
    case "className" => c.className
    case "id" => c.id
    case _ => c.fps
  }

  /** The value one override line leaves in place: the supplied value when it
      is truthy, otherwise the current one. */
  function Pick(options: JsValue, key: string, current: JsValue): JsValue
    requires !options.Null? && !options.Undefined?
  {
    if Truthy(Get(options, key)) then Get(options, key) else current
  }

  /** What the guarded block leaves in `c` for the argument `options`: nothing
      changes unless `typeof options == "object"`; null throws before any
      field is written; otherwise each overridable setting becomes the
      supplied value when truthy and keeps its value when not. */
  function Merged(c: Config, options: JsValue): (r: Outcome<Config>)
    ensures r.TypeError? <==> options.Null?
    ensures r.Ok? && Typeof(options) != "object" ==> r.value == c
    ensures r.Ok? ==> forall key | key in SettingKeys ::
      Field(r.value, key) ==
        if key in Overridable && Typeof(options) == "object" && Truthy(Get(options, key))
        then Get(options, key)
        else Field(c, key)
  {
    if Typeof(options) != "object" then Ok(c)
    else if options.Null? then TypeError
    else Ok(Config(
      Pick(options, "radius", c.radius),
      Pick(options, "color", c.color),
      Pick(options, "dotRadius", c.dotRadius),
      Pick(options, "backgroundColor", c.backgroundColor),
      c.className,
      Pick(options, "id", c.id),
      Pick(options, "fps", c.fps)))
  }

  /** Without an options object (nothing passed, a string, a number, a
      function) the loader runs on the seven defaults exactly. */
  lemma NonObjectKeepsDefaults(options: JsValue)
    requires Typeof(options) != "object"
    ensures Merged(Defaults, options) == Ok(Defaults)
  {
  }

  /** `className` is "canvasLoader" whatever options are passed. */
  lemma ClassNameIsFixed(options: JsValue)
    requires Merged(Defaults, options).Ok?
    ensures Merged(Defaults, options).value.className == Str("canvasLoader")
  {
    assert Field(Merged(Defaults, options).value, "className") == Field(Defaults, "className");
  }

  /** A falsy supplied value (0, "", false, NaN, null, undefined) falls back to
      the default; a truthy one wins. */
  lemma FalsyFallsBack(options: JsValue, key: string)
    requires options.Object? && key in Overridable
    ensures Truthy(Get(options, key)) ==> Field(Merged(Defaults, options).value, key) == Get(options, key)
    ensures !Truthy(Get(options, key)) ==> Field(Merged(Defaults, options).value, key) == Field(Defaults, key)
  {
    assert key in SettingKeys;
  }

  /** Applying the same options to the merged record changes nothing more. */
  lemma MergeIdempotent(c: Config, options: JsValue)
    requires Merged(c, options).Ok?
    ensures Merged(Merged(c, options).value, options) == Merged(c, options)
  {
  }

  /** The `defaults` object, whose fields the merge overwrites in place. */
  class Settings {
    var radius: JsValue
    var color: JsValue
    var dotRadius: JsValue
    var backgroundColor: JsValue
    var className: JsValue
    var id: JsValue
    var fps: JsValue

    /** The record's current value. */
    function Snapshot(): Config
      reads this
    {
      Config(radius, color, dotRadius, backgroundColor, className, id, fps)
    }

    /** The object literal of defaults. */
    constructor ()
      ensures Snapshot() == Defaults
    {
      radius := Num(20.0);
      color := Str("rgb(0,0,0)");
      dotRadius := Num(2.5);
      backgroundColor := Str("transparent");
      className := Str("canvasLoader");
      id := Str("canvasLoader1");
      fps := Num(10.0);
    }

    /** The guarded block of override lines. `thrown` reports the TypeError
        raised by reading a property of null, which happens before any field
        is written. */
    method ApplyOptions(options: JsValue) returns (thrown: bool)
      modifies this
      ensures thrown <==> options.Null?
      ensures thrown ==> Snapshot() == old(Snapshot())
      ensures !thrown ==> Merged(old(Snapshot()), options) == Ok(Snapshot())
    {
      thrown := false;
      if Typeof(options) == "object" {
        if options.Null? {
          thrown := true;
          return;
        }
        radius := if Truthy(Get(options, "radius")) then Get(options, "radius") else radius;
        color := if Truthy(Get(options, "color")) then Get(options, "color") else color;
        dotRadius := if Truthy(Get(options, "dotRadius")) then Get(options, "dotRadius") else dotRadius;
        backgroundColor := if Truthy(Get(options, "backgroundColor"))
          then Get(options, "backgroundColor") else backgroundColor;
        id := if Truthy(Get(options, "id")) then Get(options, "id") else id;
        fps := if Truthy(Get(options, "fps")) then Get(options, "fps") else fps;
      }
    }
  }
}
