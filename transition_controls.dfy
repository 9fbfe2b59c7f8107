/**
 * The transition control schema (src/transition-controls.tsx): defaults
 * for `type` and `delay`, the fields that depend on the transition type,
 * and the wiring of every control to the dotted path it reports.
 */
module TransitionControls {
  import opened Values

  /** One control description: its current value and, for a select, its options. */
  datatype Control = Control(value: Value, options: seq<string>)

  /** What a control's change handler reports: the dotted path and the new value. */
  datatype Change = Change(path: string, value: Value)

  /** A control with its `onChange` handler attached. */
  datatype WiredControl = WiredControl(control: Control, onChange: Value -> Change)

  const PathPrefix: string := "transition."
  const TypeOptions: seq<string> := ["spring", "tween"]

  /** The destructuring defaults `{ delay = 0, type = "spring" }`. */
  const BaseDefaults: map<string, Value> := map["delay" := Num(0), "type" := Str("spring")]

  /** The destructuring defaults of the spring fields. */
  const SpringDefaults: map<string, Value> :=
    map["damping" := Num(10), "mass" := Num(1), "stiffness" := Num(100)]

  /** A destructured field: the present value, else the default. */
  function OrDefault(values: Props, name: string, default: Value): (r: Value)
    ensures name in values ==> r == values[name]
    ensures name !in values ==> r == default
    ensures r == (map[name := default] + values)[name]
  {
    if name in values then values[name] else default
  }

  function DelayOf(values: Props): (r: Value)
    ensures r == if "delay" in values then values["delay"] else BaseDefaults["delay"]
  {
    OrDefault(values, "delay", Num(0))
  }

  function TypeOf(values: Props): (r: Value)
    ensures r == if "type" in values then values["type"] else BaseDefaults["type"]
  {
    OrDefault(values, "type", Str("spring"))
  }

  /** `getSchemaFromType`: the spring fields for type "spring", no fields for any other type. */
  function SchemaFromType(typ: Value, values: Props): (r: map<string, Control>)
    ensures typ != Str("spring") ==> r == map[]
    ensures typ == Str("spring") ==> r.Keys == SpringDefaults.Keys
    ensures forall k :: k in r ==> r[k].options == []
  {
    if typ == Str("spring") then
      map[
        "damping" := Control(OrDefault(values, "damping", Num(10)), []),
        "mass" := Control(OrDefault(values, "mass", Num(1)), []),
        "stiffness" := Control(OrDefault(values, "stiffness", Num(100)), [])
      ]
    else map[]
  }

  /** Each spring field shows the present value, else its default (10, 1, 100). */
  lemma SpringFieldValues(values: Props, k: string)
    requires k in SpringDefaults
    ensures k in SchemaFromType(Str("spring"), values)
    ensures SchemaFromType(Str("spring"), values)[k].value ==
      if k in values then values[k] else SpringDefaults[k]
  {
  }

  /** The schema passed to `useControls`, before the handlers are attached. */
  function Schema(values: Props): (r: map<string, Control>)
    ensures "type" in r && r["type"] == Control(TypeOf(values), TypeOptions)
    ensures "delay" in r && r["delay"] == Control(DelayOf(values), [])
    ensures r.Keys == {"type", "delay"} + SchemaFromType(TypeOf(values), values).Keys
    ensures forall k :: k in SchemaFromType(TypeOf(values), values) ==> r[k] == SchemaFromType(TypeOf(values), values)[k]
  {
    map["type" := Control(TypeOf(values), TypeOptions), "delay" := Control(DelayOf(values), [])]
      + SchemaFromType(TypeOf(values), values)
  }

  /**
   * `withOnChange`: the same keys and the same control attributes, each
   * control reporting `"transition." + key` with the new value as given.
   */
  function WithOnChange(schema: map<string, Control>): (r: map<string, WiredControl>)
    ensures r.Keys == schema.Keys
    ensures forall k :: k in schema ==> r[k].control == schema[k]
    ensures forall k, v :: k in schema ==> r[k].onChange(v) == Change(PathPrefix + k, v)
  {
    map k | k in schema :: WiredControl(schema[k], v => Change(PathPrefix + k, v))
  }

  /** The controls `TransitionControls` registers. */
  function Controls(values: Props): (r: map<string, WiredControl>)
    ensures r.Keys == Schema(values).Keys
    ensures forall k :: k in r ==> r[k].control == Schema(values)[k]
  {
    WithOnChange(Schema(values))
  }

  /**
   * The control keys are `type` and `delay` plus the spring fields when the
   * effective type is "spring" (the default); the type select offers
   * exactly "spring" and "tween".
   */
  lemma ControlKeys(values: Props)
    ensures Controls(values).Keys ==
      {"type", "delay"} + (if TypeOf(values) == Str("spring") then {"damping", "mass", "stiffness"} else {})
    ensures Controls(values)["type"].control.options == TypeOptions
    ensures "type" !in values ==> Controls(values).Keys == {"type", "delay", "damping", "mass", "stiffness"}
  {
  }

  /** The key a reported path names, if it is under the `transition.` prefix. */
  function StripPrefix(path: string): (r: Option<string>)
    ensures r.Some? ==> path == PathPrefix + r.value
  {
    if |path| >= |PathPrefix| && path[..|PathPrefix|] == PathPrefix then Some(path[|PathPrefix|..]) else None
  }

  lemma StripPrefixInverse(key: string)
    ensures StripPrefix(PathPrefix + key) == Some(key)
  {
    assert (PathPrefix + key)[..|PathPrefix|] == PathPrefix;
    assert (PathPrefix + key)[|PathPrefix|..] == key;
  }

  /**
   * When the effective type is "spring", each registered spring control
   * shows the present value, else its default (10, 1, 100).
   */
  lemma SpringControlValues(values: Props, k: string)
    requires TypeOf(values) == Str("spring") && k in SpringDefaults
    ensures k in Controls(values)
    ensures Controls(values)[k].control.value == if k in values then values[k] else SpringDefaults[k]
  {
    SpringFieldValues(values, k);
  }

  /** Every change a control reports names that control's key and carries the value unchanged. */
  lemma ControlChangeRoundTrip(values: Props, k: string, v: Value)
    requires k in Controls(values)
    ensures StripPrefix(Controls(values)[k].onChange(v).path) == Some(k)
    ensures Controls(values)[k].onChange(v).value == v
  {
    StripPrefixInverse(k);
  }
}
