/** Parsed JSON values and the few pieces of JavaScript semantics the chat
    resolver relies on when it duck-types the upstream response: truthiness,
    property reads with optional chaining, and reading index 0. */
module JsValues {
  import opened Wrappers

  /** A value as `response.json()` yields it. The parsed value is an input and
      a number in it is only ever tested for truthiness (and `-0` equals `0`),
      so a real number is enough for `Num`; the rounding of an out-of-range
      literal to an infinity or to zero is left to whoever supplies the value. */
  datatype Json =
    | Null
    | Bool(b: bool)
    | Num(n: real)
    | Str(s: string)
    | Arr(items: seq<Json>)
    | Obj(fields: map<string, Json>)

  /** JavaScript's ToBoolean on a JSON value: `null`, `false`, `0` and `""` are
      falsy; every array and every object, even an empty one, is truthy. */
  predicate Truthy(v: Json) {
    match v
    case Null => false
    case Bool(b) => b
    case Num(n) => n != 0.0
    case Str(s) => s != ""
    case Arr(_) => true
    case Obj(_) => true
  }

  /** ToBoolean of a property read, where `None` is `undefined` (falsy). */
  predicate IsTruthy(v: Option<Json>) {
    v.Some? && Truthy(v.value)
  }

  /** `v?.name` for a name that is neither an array index nor a built-in
      property of strings or arrays (the resolver reads `choices`, `message`
      and `content`): only an object with that own key yields a value; every
      other base, nullish or not, yields `undefined`. */
  function Field(v: Option<Json>, name: string): Option<Json> {
    if v.Some? && v.value.Obj? && name in v.value.fields then Some(v.value.fields[name]) else None
  }

  /** `v[0]` on a value that is not nullish: an array's first element, an
      object's own key "0", or a one-character string holding a string's first
      character; `undefined` otherwise. */
  function ElementZero(v: Json): Option<Json> {
    match v
    case Arr(items) => if |items| > 0 then Some(items[0]) else None
    case Obj(fields) => if "0" in fields then Some(fields["0"]) else None
    case Str(s) => if |s| > 0 then Some(Str([s[0]])) else None
    case _ => None
  }
}
