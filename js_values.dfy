/** JavaScript values as the request handlers see them: the results of JSON.parse and
    of the HTTP client, JavaScript truthiness, the `||` fallback, property access, and
    the JSON reply an Express handler sends. */
module JsValues {

  datatype Option<+T> = None | Some(value: T)

  /** A value or the message of the Error thrown instead. */
  datatype Result<+T> = Ok(value: T) | Err(message: string)

  /** What an HTTP GET through the client yields: the parsed response body, or the
      message of the error it rejected with. */
  datatype FetchOutcome = Fetched(data: JsValue) | FetchFailed(message: string)

  /** A JSON-like JavaScript value. Numbers are modelled as integers (durations, status
      codes and counts are the only numbers these handlers look at), and NaN is kept
      apart because parseInt produces it. */
  datatype JsValue =
    | Undefined
    | Null
    | Bool(b: bool)
    | Num(n: int)
    | NaN
    | Str(s: string)
    | Arr(items: seq<JsValue>)
    | Obj(fields: map<string, JsValue>)

  /** ToBoolean: undefined, null, false, 0, NaN and "" are falsy; every array and every
      object, even an empty one, is truthy. */
  predicate Truthy(v: JsValue) {
    match v
    case Undefined => false
    case Null => false
    case Bool(b) => b
    case Num(n) => n != 0
    case NaN => false
    case Str(s) => s != ""
    case Arr(_) => true
    case Obj(_) => true
  }

  /** `a || b`: the left operand when it is truthy, otherwise the right one. The result
      is truthy exactly when one of the operands is. */
  function Or(a: JsValue, b: JsValue): (r: JsValue)
    ensures Truthy(a) ==> r == a
    ensures !Truthy(a) ==> r == b
    ensures Truthy(r) <==> Truthy(a) || Truthy(b)
  {
    if Truthy(a) then a else b
  }

  /** Reading `v.key` for the data keys the handlers use (none of them is a property of
      String.prototype or Array.prototype): undefined and null throw a TypeError (None),
      an object yields its own value or undefined, any other value yields undefined. */
  function Prop(v: JsValue, key: string): (r: Option<JsValue>)
    ensures r.None? <==> v.Undefined? || v.Null?
    ensures v.Obj? && key in v.fields ==> r == Some(v.fields[key])
    ensures r.Some? && r.value != Undefined ==> v.Obj? && key in v.fields
  {
    match v
    case Undefined => None
    case Null => None
    case Obj(fields) => Some(if key in fields then fields[key] else Undefined)
    case _ => Some(Undefined)
  }

  /** The message of the TypeError V8 throws for `v.key` when v is undefined or null. */
  function TypeErrorMessage(v: JsValue, key: string): string {
    "Cannot read properties of " + (if v.Null? then "null" else "undefined")
      + " (reading '" + key + "')"
  }

  /** `!s` for a request-body string field: absent or empty. */
  predicate Missing(s: Option<string>) {
    s.None? || s.value == ""
  }

  /** A reply with a JSON object body: `res.status(status).json(body)`, where
      `res.json(body)` alone sends status 200. */
  datatype Reply = Reply(status: int, body: map<string, JsValue>)

  /** The `{ error: message }` reply every handler uses for a rejected request. */
  function ErrorReply(status: int, message: string): (r: Reply)
    ensures r.status == status && r.body.Keys == {"error"} && r.body["error"] == Str(message)
  {
    Reply(status, map["error" := Str(message)])
  }

  /** An array of strings, as `tryMethods.map((m) => m.name)` builds one. */
  function StrArray(names: seq<string>): (r: JsValue)
    ensures r.Arr? && |r.items| == |names|
    ensures forall i :: 0 <= i < |names| ==> r.items[i] == Str(names[i])
  {
    Arr(seq(|names|, i requires 0 <= i < |names| => Str(names[i])))
  }
}
