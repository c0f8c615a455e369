// JavaScript values as the client and the edge functions see them once a
// request body has been parsed from JSON, with the truthiness rules that the
// source's `x || fallback` and `if (!x)` tests rely on.

module Js {

  datatype Option<T> = None | Some(value: T)
  {
    predicate IsSome() { this.Some? }

    function GetOr(fallback: T): (r: T)
      ensures this.Some? ==> r == value
      ensures this.None? ==> r == fallback
    {
      match this
      case Some(v) => v
      case None => fallback
    }
  }

  /** The outcome of a call that either gives a value or fails with a message. */
  datatype Result<T> = Ok(value: T) | Err(message: string)

  /** Numbers are integers: no value in the modelled code carries a fraction. */
  datatype JsValue =
    | Undefined
    | Null
    | Bool(b: bool)
    | Num(n: int)
    | Text(s: string)
    | List(items: seq<JsValue>)

  /** A parsed JSON object body; a key that is absent reads as `undefined`. */
  type Body = map<string, JsValue>

  function Field(body: Body, key: string): (v: JsValue)
    ensures key !in body ==> v == Undefined
    ensures key in body ==> v == body[key]
  {
    if key in body then body[key] else Undefined
  }

  /** JavaScript's ToBoolean: `undefined`, `null`, `false`, `0` and `""` are falsy. */
  predicate Truthy(v: JsValue)
  {
    match v
    case Undefined => false
    case Null => false
    case Bool(b) => b
    case Num(n) => n != 0
    case Text(s) => s != ""
    case List(_) => true
  }

  /** `a || b` */
  function Or(a: JsValue, b: JsValue): (r: JsValue)
    ensures Truthy(a) ==> r == a
    ensures !Truthy(a) ==> r == b
  {
    if Truthy(a) then a else b
  }

  /** The `length` property: strings and arrays have one, other values give `undefined`. */
  function LengthOf(v: JsValue): (r: Option<nat>)
    ensures r.Some? <==> (v.Text? || v.List?)
    ensures v.Text? ==> r == Some(|v.s|)
    ensures v.List? ==> r == Some(|v.items|)
  {
    match v
    case Text(s) => Some(|s|)
    case List(xs) => Some(|xs|)
    case _ => None
  }

  /** `(x || 0)` read as a count: a number stays, any falsy value becomes 0. */
  function CountOf(v: JsValue): (n: int)
    ensures v.Num? ==> n == v.n
    ensures !Truthy(v) ==> n == 0
  {
    if v.Num? then v.n else 0
  }

  /** A string that is truthy, i.e. present and non-empty. */
  predicate TruthyText(s: Option<string>)
  {
    s.Some? && s.value != ""
  }
}
