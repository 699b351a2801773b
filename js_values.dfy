/** The slice of JavaScript semantics the authentication layer relies on:
    values, truthiness, thrown faults and `Object.assign` on plain objects. */
module JsValues {

  datatype Option<+T> = None | Some(value: T)

  datatype Result<+T, +E> = Ok(value: T) | Err(error: E)

  /** A JavaScript value as this layer can observe it. Numbers are integers
      here; an object (arrays included) is its own enumerable fields. */
  datatype Value =
    | Undefined
    | Null
    | Bool(b: bool)
    | Num(n: int)
    | Str(s: string)
    | Obj(props: map<string, Value>)

  /** The own enumerable fields of a plain object. */
  type Props = map<string, Value>

  /** Something thrown (or a rejected promise): either a TypeError raised by
      the language itself, or a value raised by a collaborator or a handler. */
  datatype Fault = TypeError(message: string) | Raised(value: Value)

  /** JavaScript's `!!v`: every value is truthy except the five falsy ones. */
  function Truthy(v: Value): (t: bool)
    ensures t <==> v !in {Undefined, Null, Bool(false), Num(0), Str("")}
  {
    match v
    case Undefined => false
    case Null => false
    case Bool(b) => b
    case Num(n) => n != 0
    case Str(s) => s != ""
    case Obj(_) => true
  }

  /** The fields `Object.assign(target, source)` leaves on `target`: every
      field of `source` replaces the field of the same name, every other
      field of `target` stays. */
  function Assigned(target: Props, source: Props): (r: Props)
    ensures r.Keys == target.Keys + source.Keys
    ensures forall k :: k in source ==> r[k] == source[k]
    ensures forall k :: k in target && k !in source ==> r[k] == target[k]
  {
    target + source
  }

  /** A plain object whose fields are updated in place. */
  class PlainObject {
    var props: Props

    constructor (props: Props)
      ensures this.props == props
    {
      this.props := props;
    }

    /** `Object.assign(this, source)`. */
    method Assign(source: Props)
      modifies this
      ensures props == Assigned(old(props), source)
    {
      props := props + source;
    }
  }
}
