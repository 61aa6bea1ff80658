/** JavaScript values, as far as the model needs them, and JavaScript truthiness. */
module Js {

  datatype Option<+T> = None | Some(value: T)

  /** A JavaScript value held in an `any`-typed slot (a configuration payload, a field
      looked up by name, an audit result). `Fn` stands for any non-data object, such as
      a function inherited from `Object.prototype`; it is always truthy. */
  datatype JsValue =
    | Undefined
    | Null
    | Bool(b: bool)
    | Num(n: int)
    | Str(s: string)
    | StrList(items: seq<string>)
    | Obj(props: map<string, JsValue>)
    | Fn

  /** `!!v` in JavaScript (NaN is not modelled: numbers are integers). */
  predicate Truthy(v: JsValue)
  {
    match v
    case Undefined => false
    case Null => false
    case Bool(b) => b
    case Num(n) => n != 0
    case Str(s) => s != ""
    case _ => true
  }

  /** Truthiness of an optional number (`undefined` and `null` are both `None`). */
  predicate TruthyNum(x: Option<int>)
  {
    x.Some? && x.value != 0
  }

  /** Truthiness of an optional string. */
  predicate TruthyStr(x: Option<string>)
  {
    x.Some? && x.value != ""
  }

  /** `x || null` for an optional number: a falsy number becomes `null`. */
  function OrNull(x: Option<int>): (r: Option<int>)
    ensures TruthyNum(x) ==> r == x
    ensures !TruthyNum(x) ==> r == None
  {
    if TruthyNum(x) then x else None
  }

  /** `v[key]` read from a value: `None` when reading throws (the value is `null` or
      `undefined`); a key an object lacks, and any key of a primitive, reads as
      `undefined`. */
  function Property(v: JsValue, key: string): (r: Option<JsValue>)
    ensures r.None? <==> v.Undefined? || v.Null?
    ensures v.Obj? ==> r == Some(if key in v.props then v.props[key] else Undefined)
  {
    match v
    case Undefined => None
    case Null => None
    case Obj(props) => Some(if key in props then props[key] else Undefined)
    case _ => Some(Undefined)
  }

  /** The own keys `{ ...v }` copies from an object; `null`, `undefined`, booleans and
      numbers add none. */
  function Spread(v: JsValue): map<string, JsValue>
  {
    if v.Obj? then v.props else map[]
  }
}
