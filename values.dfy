/**
 * JavaScript values as they occur in the animation props of an element
 * (`animate`, `initial`, `transition`, `className`, ...), plus the small
 * Option/Result wrappers the rest of the model uses.
 */
module Values {

  datatype Option<T> = None | Some(value: T)

  datatype Result<T, E> = Ok(value: T) | Err(error: E)

  /** A props value: a number, a string, a boolean or a nested plain object. */
  datatype Value =
    | Num(n: int)
    | Str(s: string)
    | Bool(b: bool)
    | Obj(fields: map<string, Value>)

  /** `Record<string, any>`: an absent key stands for `undefined`. */
  type Props = map<string, Value>

  /** JavaScript truthiness of a present value. */
  predicate Truthy(v: Value)
    ensures Truthy(v) <==> v != Num(0) && v != Str("") && v != Bool(false)
  {
    match v
    case Num(n) => n != 0
    case Str(s) => s != ""
    case Bool(b) => b
    case Obj(_) => true
  }

  /** The own enumerable fields of a value, as object spread `{...v}` copies them. */
  function Fields(v: Value): (r: map<string, Value>)
    ensures v.Obj? ==> r == v.fields
    ensures !v.Obj? ==> r == map[]
  {
    if v.Obj? then v.fields else map[]
  }

  /** The fields of `props[name]`, where a missing group spreads as `{}`. */
  function FieldsAt(props: Props, name: string): (r: map<string, Value>)
    ensures name in props && props[name].Obj? ==> r == props[name].fields
    ensures name !in props || !props[name].Obj? ==> r == map[]
  {
    if name in props then Fields(props[name]) else map[]
  }

  /**
   * Writing an object into a group and reading that group back gives its
   * fields; writing any other group leaves the fields read here as they were.
   */
  lemma FieldsAtWrite(props: Props, g: string, f: map<string, Value>, h: string, x: Value)
    ensures FieldsAt(props[g := Obj(f)], g) == f
    ensures h != g ==> FieldsAt(props[g := x], h) == FieldsAt(props, h)
  {
  }
}
