/** JavaScript value semantics that the storefront code relies on: JSON values as
    `JSON.parse` produces them, truthiness (what `||`, `!` and `if` test), reading a
    property of a parsed value, and the string conversion `new Error(x)` applies. */
module Js {

  datatype Option<+T> = None | Some(value: T) {
    function GetOr(default: T): T {
      match this
      case Some(v) => v
      case None => default
    }
  }

  /** A JSON value. Numbers are integers in this model. */
  datatype Json =
    | JNull
    | JBool(b: bool)
    | JNum(n: int)
    | JStr(s: string)
    | JArr(items: seq<Json>)
    | JObj(fields: map<string, Json>)

  /** JavaScript truthiness of a JSON value: null, false, 0 and "" are falsy;
      every array and object, even an empty one, is truthy. */
  predicate Truthy(v: Json) {
    match v
    case JNull => false
    case JBool(b) => b
    case JNum(n) => n != 0
    case JStr(s) => s != ""
    case JArr(_) => true
    case JObj(_) => true
  }

  /** Truthiness of a property read: `undefined` (None) is falsy. */
  predicate TruthyProp(p: Option<Json>) {
    p.Some? && Truthy(p.value)
  }

  /** Truthiness of a value that is a string or null/undefined, such as what
      `localStorage.getItem` returns or an optional string prop. */
  predicate Present(t: Option<string>) {
    t.Some? && t.value != ""
  }

  /** `v.key` for a value that is not null: an own field of an object, and
      `undefined` for every other value. Reading a property of null throws; the
      callers test for JNull before they read. */
  function Prop(v: Json, key: string): (p: Option<Json>)
    ensures p.Some? <==> v.JObj? && key in v.fields
    ensures p.Some? ==> p.value == v.fields[key]
  {
    if v.JObj? && key in v.fields then Some(v.fields[key]) else None
  }

  /** The message of the TypeError a browser in the V8 family throws when a
      property of null is read. */
  function NullReadMessage(key: string): string {
    "Cannot read properties of null (reading '" + key + "')"
  }

  function DigitChar(d: int): char
    requires 0 <= d < 10
  {
    "0123456789"[d]
  }

  /** Decimal spelling of a natural number, most significant digit first. */
  function NatString(n: nat): (s: string)
    ensures |s| > 0
    decreases n
  {
    if n < 10 then [DigitChar(n)] else NatString(n / 10) + [DigitChar(n % 10)]
  }

  /** `String(v)`: what `new Error(v)` stores as its message. Array elements that
      are null become "" and elements are joined with ",", as `Array.prototype.join` does. */
  function ToJsString(v: Json): string
    decreases v
  {
    match v
    case JNull => "null"
    case JBool(b) => if b then "true" else "false"
    case JNum(n) => if n < 0 then "-" + NatString(-n) else NatString(n)
    case JStr(s) => s
    case JArr(items) => JoinFrom(v, items, 0)
    case JObj(_) => "[object Object]"
  }

  /** The elements `items[i..]` of the array `whole`, converted and joined with ",". */
  function JoinFrom(whole: Json, items: seq<Json>, i: nat): string
    requires whole == JArr(items)
    requires i <= |items|
    decreases whole, |items| - i
  {
    if i == |items| then ""
    else
      var e := if items[i] == JNull then "" else ToJsString(items[i]);
      if i + 1 == |items| then e else e + "," + JoinFrom(whole, items, i + 1)
  }
}
