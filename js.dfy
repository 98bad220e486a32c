/** JavaScript values as the chat client and the proxy see them once a JSON
    body has been parsed, together with the two operations on them that the
    code relies on: truthiness (`if (x)`, `x || y`) and property access
    (`x.name`, `x[0]`), which throws a TypeError on `null` and `undefined`. */
module Js {

  /** An optional value; `None` stands for an absent key or a thrown error,
      depending on where it is used. Usable with `:-`. */
  datatype Option<+T> = None | Some(value: T) {
    predicate IsFailure() { None? }

    function PropagateFailure<U>(): Option<U>
      requires None?
    {
      None
    }

    function Extract(): T
      requires Some?
    {
      value
    }
  }

  /** A JavaScript value built from JSON, plus `undefined`. Numbers are
      modelled as integers. */
  datatype Value =
    | Undefined
    | Null
    | Bool(b: bool)
    | Num(n: int)
    | Str(s: string)
    | Arr(items: seq<Value>)
    | Obj(fields: map<string, Value>)

  /** JavaScript truthiness: `undefined`, `null`, `false`, `0` and `""` are
      falsy; every array and object (even an empty one) is truthy. */
  predicate Truthy(v: Value) {
    match v
    case Undefined => false
    case Null => false
    case Bool(b) => b
    case Num(n) => n != 0
    case Str(s) => s != ""
    case Arr(_) => true
    case Obj(_) => true
  }

  /** `a || b` on values. */
  function OrElse(a: Value, b: Value): (r: Value)
    ensures Truthy(a) ==> r == a
    ensures !Truthy(a) ==> r == b
  {
    if Truthy(a) then a else b
  }

  /** `v.key`. `None` is the TypeError thrown for `null.key` and
      `undefined.key`; a key an object lacks reads as `undefined`. The keys
      this model looks up (reply, choices, message, content, ...) are not
      built-in properties of booleans, numbers, strings or arrays, so on those
      the result is `undefined`. */
  function Get(v: Value, key: string): (r: Option<Value>)
    ensures r.None? <==> v.Undefined? || v.Null?
    ensures v.Obj? && key in v.fields ==> r == Some(v.fields[key])
    ensures v.Obj? && key !in v.fields ==> r == Some(Undefined)
  {
    match v
    case Undefined => None
    case Null => None
    case Obj(m) => Some(if key in m then m[key] else Undefined)
    case _ => Some(Undefined)
  }

  /** `v[0]`: the first element of an array, the first character of a
      string, the property "0" of an object, `undefined` when there is none;
      a TypeError on `null` and `undefined`. */
  function First(v: Value): (r: Option<Value>)
    ensures r.None? <==> v.Undefined? || v.Null?
    ensures v.Arr? && |v.items| > 0 ==> r == Some(v.items[0])
    ensures v.Arr? && |v.items| == 0 ==> r == Some(Undefined)
  {
    match v
    case Undefined => None
    case Null => None
    case Arr(items) => Some(if |items| > 0 then items[0] else Undefined)
    case Str(s) => Some(if |s| > 0 then Str([s[0]]) else Undefined)
    case Obj(m) => Some(if "0" in m then m["0"] else Undefined)
    case _ => Some(Undefined)
  }

  /** An optional string field is truthy when present and non-empty. */
  predicate Present(o: Option<string>) {
    o.Some? && o.value != ""
  }

  /** `field || fallback` for an optional string field. */
  function OrDefault(o: Option<string>, fallback: string): (r: string)
    ensures Present(o) ==> r == o.value
    ensures !Present(o) ==> r == fallback
  {
    if Present(o) then o.value else fallback
  }

  /** The body of an HTTP response as `await response.json()` sees it:
      either it does not parse (and `json()` throws) or it is a value. */
  datatype Body = Malformed | Json(value: Value)

  /** The outcome of one `fetch`: a rejected promise, or a response. */
  datatype FetchOutcome =
    | NetworkError
    | Response(status: int, body: Body)

  /** `response.ok`: the status lies in 200..299. */
  predicate IsOk(status: int) {
    200 <= status <= 299
  }
}
