/**
 * The parts of JavaScript's value semantics the views depend on:
 * truthiness, String(), `a || b`, values that may or may not be arrays,
 * and the two ways an awaited call can end.
 */
module Js {
  import opened Wrappers
  import Text

  /** A scalar JavaScript value as it reaches a table cell (floating point is not modelled). */
  datatype JsValue = Undefined | Null | Str(s: string) | Int(i: int) | Bool(b: bool) | Object

  predicate Truthy(v: JsValue) {
    match v
    case Undefined => false
    case Null => false
    case Str(s) => s != ""
    case Int(i) => i != 0
    case Bool(b) => b
    case Object => true
  }

  /** `String(v)`. */
  function ToJsString(v: JsValue): (r: string)
    ensures v.Str? ==> r == v.s
    ensures v.Int? ==> r == Text.IntToString(v.i)
  {
    match v
    case Undefined => "undefined"
    case Null => "null"
    case Str(s) => s
    case Int(i) => Text.IntToString(i)
    case Bool(b) => if b then "true" else "false"
    case Object => "[object Object]"
  }

  /** `a || b`. */
  function Or(a: JsValue, b: JsValue): (r: JsValue)
    ensures Truthy(a) ==> r == a
    ensures !Truthy(a) ==> r == b
  {
    if Truthy(a) then a else b
  }

  /** Truthiness of a possibly absent string: present and non-empty. */
  predicate Present(o: Option<string>) {
    o.Some? && o.value != ""
  }

  /** A value that the code expects to be an array: it is one, or it is some
      other value of which only the truthiness matters. */
  datatype JsList<T> = Arr(items: seq<T>) | NonArray(truthy: bool)

  /** `v || []`: an array (even an empty one) is truthy and kept; a falsy value becomes []. */
  function OrEmpty<T>(v: JsList<T>): (r: JsList<T>)
    ensures v.Arr? ==> r == v
    ensures v.NonArray? && !v.truthy ==> r == Arr([])
    ensures v.NonArray? && v.truthy ==> r == v
  {
    if v.NonArray? && !v.truthy then Arr([]) else v
  }

  /** `Array.isArray(v) ? v.length : 0`. */
  function SafeLength<T>(v: JsList<T>): (n: nat)
    ensures v.Arr? ==> n == |v.items|
    ensures v.NonArray? ==> n == 0
  {
    if v.Arr? then |v.items| else 0
  }

  /** An error object: its `message` and, for HTTP-client errors, `response.data.message`. */
  datatype JsError = JsError(message: string, responseMessage: Option<string>)

  /** How an awaited call ends: it returns a value or it rejects with an error. */
  datatype Call<T> = Returned(value: T) | Threw(error: JsError)

  /** A `fetch` exchange: the network fails, or a response arrives with its status
      and a body that `response.json()` either parses or rejects. */
  datatype FetchReply<B> =
    | NetworkFailure(reason: string)
    | Response(ok: bool, status: nat, body: Json<B>)

  datatype Json<B> = Parsed(value: B) | NotJson(reason: string)

  /** Stands for the engine's TypeError text when a property of null is read. */
  const NullPropertyMessage: string := "Cannot read properties of null"
}
