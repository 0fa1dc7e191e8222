/** JavaScript values as the pages see them in fetched JSON and in form state,
    and the three operators the pages lean on: truthiness (`!!v`), `a || b`
    and `a ?? b`. Numbers are integers here; NaN and fractions are not modelled. */
module Js {

  datatype Option<+T> = None | Some(value: T) {
    function GetOr(default: T): T {
      match this
      case Some(v) => v
      case None => default
    }
  }

  /** The outcome of a step that can be refused. */
  datatype Result<+T, +E> = Success(value: T) | Failure(error: E)

  /** A value read from a JSON record or a form. `Undefined` is also what a
      missing key reads as. */
  datatype JsValue =
    | Undefined
    | Null
    | Bool(b: bool)
    | Number(n: int)
    | Text(s: string)

  /** A fetched value that should be a list: absent (`null`/`undefined`),
      a list, or some other truthy value that is not a list. */
  datatype Listish<T> = Missing | List(items: seq<T>) | NotAList

  /** JavaScript's ToBoolean, that is `!!v`. */
  predicate Truthy(v: JsValue) {
    match v
    case Undefined => false
    case Null => false
    case Bool(b) => b
    case Number(n) => n != 0
    case Text(s) => s != []
  }

  /** `a || b`: the left operand when it is truthy, otherwise the right one. */
  function Or(a: JsValue, b: JsValue): (r: JsValue)
    ensures Truthy(a) ==> r == a
    ensures !Truthy(a) ==> r == b
    ensures Truthy(r) <==> Truthy(a) || Truthy(b)
  {
    if Truthy(a) then a else b
  }

  /** `!v` on any value: the boolean negation of its truthiness. */
  function Not(v: JsValue): (r: JsValue)
    ensures r.Bool? && (Truthy(r) <==> !Truthy(v))
  {
    Bool(!Truthy(v))
  }

  /** A string-typed field that may be missing, read with `?? ""`. */
  function OrEmpty(o: Option<string>): (r: string)
    ensures o.Some? ==> r == o.value
    ensures o.None? ==> r == ""
  {
    o.GetOr("")
  }

  /** A string-typed field that may be missing, read with `|| d`: an empty
      string is falsy, so it yields `d` as a missing field does. */
  function OrText(o: Option<string>, d: string): (r: string)
    ensures o.Some? && o.value != "" ==> r == o.value
    ensures o.None? || o == Some("") ==> r == d
  {
    if o.Some? && o.value != "" then o.value else d
  }

  /** Whether a string-typed field that may be missing is truthy. */
  predicate PresentText(o: Option<string>) {
    o.Some? && o.value != ""
  }

  /** Spread of one key: `{...a, ...b}` takes b's value when b has the key. */
  function Spread(a: JsValue, b: JsValue): (r: JsValue)
    ensures b != Undefined ==> r == b
    ensures b == Undefined ==> r == a
  {
    if b == Undefined then a else b
  }
}
