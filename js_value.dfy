/**
 * The dynamically typed values the front-end receives from the server (what
 * `JSON.parse` yields) and the few JavaScript operations the modelled code
 * applies to them: truthiness, `typeof`, property reads, `Object.keys`, `||`
 * and `Array.prototype.join`.
 */
module JsValue {

  /**
   * A JavaScript value. An object is the list of its own enumerable properties
   * in `Object.keys` order; numbers are integers.
   */
  datatype Json =
    | Undefined
    | Null
    | Bool(b: bool)
    | Num(n: int)
    | Str(s: string)
    | Arr(items: seq<Json>)
    | Obj(props: seq<(string, Json)>)

  /** `!!v` */
  predicate Truthy(v: Json) {
    match v
    case Undefined => false
    case Null => false
    case Bool(b) => b
    case Num(n) => n != 0
    case Str(s) => s != ""
    case Arr(_) => true
    case Obj(_) => true
  }

  /** `v === null || v === undefined`: the values whose property reads throw a TypeError. */
  predicate Nullish(v: Json) {
    v.Undefined? || v.Null?
  }

  /** `typeof v`; note that `typeof null` is "object". */
  function TypeOf(v: Json): string {
    match v
    case Undefined => "undefined"
    case Bool(_) => "boolean"
    case Num(_) => "number"
    case Str(_) => "string"
    case Null => "object"
    case Arr(_) => "object"
    case Obj(_) => "object"
  }

  /** The value of the first property named `key`, or `undefined`. */
  function Lookup(props: seq<(string, Json)>, key: string): Json {
    if props == [] then Undefined
    else if props[0].0 == key then props[0].1
    else Lookup(props[1..], key)
  }

  /**
   * `v?.[key]`, which is also `v[key]` whenever `v` is not nullish. Only the
   * own properties of objects are modelled; on other values it is `undefined`.
   */
  function Get(v: Json, key: string): Json {
    if v.Obj? then Lookup(v.props, key) else Undefined
  }

  /** `Object.keys(v)` for an object; empty for numbers and booleans. */
  function Keys(v: Json): seq<string> {
    if v.Obj? then seq(|v.props|, i requires 0 <= i < |v.props| => v.props[i].0) else []
  }

  /** `a || b` */
  function OrElse(a: Json, b: Json): Json {
    if Truthy(a) then a else b
  }

  /** `v instanceof Array && v.length > 0` */
  predicate NonEmptyArray(v: Json) {
    v.Arr? && |v.items| > 0
  }

  function Digit(d: nat): char
    requires d < 10
  {
    "0123456789"[d]
  }

  function NatToString(n: nat): string {
    if n < 10 then [Digit(n)] else NatToString(n / 10) + [Digit(n % 10)]
  }

  /** The decimal form of an integer, as `String(n)` writes it. */
  function IntToString(n: int): string {
    if n < 0 then "-" + NatToString(-n) else NatToString(n)
  }

  /** `String(v)` */
  function ToJsString(v: Json): string
    decreases v, 0
  {
    match v
    case Undefined => "undefined"
    case Null => "null"
    case Bool(b) => if b then "true" else "false"
    case Num(n) => IntToString(n)
    case Str(s) => s
    case Arr(items) =>
      JoinStrings(seq(|items|, i requires 0 <= i < |items| => ElementString(items[i])), ",")
    case Obj(_) => "[object Object]"
  }

  /** How `join` renders one element: `null` and `undefined` as the empty string. */
  function ElementString(v: Json): string
    decreases v, 1
  {
    if Nullish(v) then "" else ToJsString(v)
  }

  /** The strings of `ss` with `sep` between each neighbouring pair. */
  function JoinStrings(ss: seq<string>, sep: string): string {
    if ss == [] then ""
    else if |ss| == 1 then ss[0]
    else ss[0] + sep + JoinStrings(ss[1..], sep)
  }

  /** `xs.join(sep)` */
  function Join(xs: seq<Json>, sep: string): string {
    JoinStrings(seq(|xs|, i requires 0 <= i < |xs| => ElementString(xs[i])), sep)
  }
}
