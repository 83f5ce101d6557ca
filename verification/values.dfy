/**
 * The untyped values that cross the native boundary: what msgpackr (on the
 * JavaScript side) and serde_json / rmp_serde (on the Rust side) decode a
 * buffer into, and what JavaScript option bags hold.  Numbers are integers;
 * floating point is not modelled.
 */
module Values {
  type Byte = b: int | 0 <= b < 256

  datatype Value =
    | Undefined
    | Null
    | Bool(b: bool)
    | Num(n: int)
    | Str(s: string)
    | Arr(items: seq<Value>)
    | Obj(fields: map<string, Value>)

  /** `null` and `undefined`: reading a property of either throws a TypeError. */
  predicate Nullish(v: Value) {
    v.Undefined? || v.Null?
  }

  /**
   * The JavaScript property read `v.key` on a value that is not nullish:
   * an object's own field, and `undefined` for everything else
   * (arrays, strings, numbers and booleans have no such named property).
   */
  function Get(v: Value, key: string): Value {
    if v.Obj? && key in v.fields then v.fields[key] else Undefined
  }

  /** JavaScript truthiness: `if (v)`, `v || w`. */
  predicate Truthy(v: Value) {
    match v
    case Undefined => false
    case Null => false
    case Bool(b) => b
    case Num(n) => n != 0
    case Str(s) => s != ""
    case Arr(_) => true
    case Obj(_) => true
  }

  /** `Array.isArray(v) && v.length === 2`. */
  predicate IsPair(v: Value) {
    v.Arr? && |v.items| == 2
  }

  function Digit(d: nat): char
    requires d < 10
  {
    "0123456789"[d]
  }

  function NatToString(n: nat): string
    decreases n
  {
    if n < 10 then [Digit(n)] else NatToString(n / 10) + [Digit(n % 10)]
  }

  /** Decimal rendering of an integer, as `String(n)` gives it. */
  function IntToString(i: int): string {
    if i < 0 then "-" + NatToString(-i) else NatToString(i)
  }

  /**
   * The string a template literal `${v}` produces.  Arrays join their
   * elements with "," and render null and undefined elements as "";
   * plain objects become "[object Object]".
   */
  function TemplateString(v: Value): string
    decreases v, 1
  {
    match v
    case Undefined => "undefined"
    case Null => "null"
    case Bool(b) => if b then "true" else "false"
    case Num(n) => IntToString(n)
    case Str(s) => s
    case Arr(items) => JoinElements(v, items)
    case Obj(_) => "[object Object]"
  }

  function JoinElements(whole: Value, items: seq<Value>): string
    requires whole.Arr? && items <= whole.items
    decreases whole, 0, |items|
  {
    if items == [] then ""
    else
      var last := items[|items| - 1];
      assert last in whole.items;
      var text := if Nullish(last) then "" else TemplateString(last);
      var init := items[..|items| - 1];
      assert init <= whole.items;
      if |items| == 1 then text else JoinElements(whole, init) + "," + text
  }
}
