/**
 * The JavaScript values the screens receive from JSON and keep in component state, with the
 * language rules they depend on: truthiness, `a || b`, conversion to string (template
 * literals, `Array.prototype.join`, property keys) and property reads.
 */
module JsValues {
  import opened Wrappers
  import Text

  /** A JavaScript value; numbers are restricted to integers. */
  datatype JsValue =
    | Undefined
    | Null
    | Bool(b: bool)
    | Num(n: int)
    | Str(s: string)
    | Arr(items: seq<JsValue>)
    | Obj(props: map<string, JsValue>)

  /** `JSON.parse`: a parsed value, or the message of the `SyntaxError` it throws. */
  type JsonParse = string -> Result<JsValue>

  /** Truthiness: `undefined`, `null`, `false`, `0` and `""` are falsy; everything else is truthy. */
  predicate Truthy(v: JsValue) {
    match v
    case Undefined => false
    case Null => false
    case Bool(b) => b
    case Num(n) => n != 0
    case Str(s) => s != ""
    case _ => true
  }

  /** `a || b`. */
  function Or(a: JsValue, b: JsValue): JsValue {
    if Truthy(a) then a else b
  }

  /** `||` keeps a truthy left operand and otherwise yields the right one, so a default applies only to falsy values. */
  lemma OrDefault(a: JsValue, b: JsValue)
    ensures Truthy(b) ==> Truthy(Or(a, b))
    ensures Or(a, b) == a || !Truthy(a)
  {
  }

  function DigitChar(d: nat): (c: char)
    requires d < 10
    ensures Text.IsDigit(c) && Text.DigitValue(c) == d
  {
    ('0' as int + d) as char
  }

  /** The decimal numeral of a natural number. */
  function NatToString(n: nat): (r: string)
    ensures |r| >= 1
    ensures forall i :: 0 <= i < |r| ==> Text.IsDigit(r[i])
    decreases n
  {
    if n < 10 then [DigitChar(n)] else NatToString(n / 10) + [DigitChar(n % 10)]
  }

  /** The numeral reads back, as `parseInt` reads digits, to the number it was made from. */
  lemma {:induction false} NatToStringValue(n: nat)
    ensures Text.Value(NatToString(n), 10) == n
    decreases n
  {
    var r := NatToString(n);
    if n < 10 {
      assert r[..0] == [];
    } else {
      NatToStringValue(n / 10);
      assert r[..|r| - 1] == NatToString(n / 10);
    }
  }

  /** `String(n)` for an integer. */
  function IntToString(n: int): string {
    if n < 0 then "-" + NatToString(-n) else NatToString(n)
  }

  /** `String(v)`, as a template literal `${v}` or a property key computes it. */
  function ToString(v: JsValue): string
    decreases v, 1
  {
    match v
    case Undefined => "undefined"
    case Null => "null"
    case Bool(b) => if b then "true" else "false"
    case Num(n) => IntToString(n)
    case Str(s) => s
    case Arr(items) => Join(items, ",")
    case Obj(_) => "[object Object]"
  }

  /** `items.join(sep)`: `null` and `undefined` elements contribute the empty string. */
  function Join(items: seq<JsValue>, sep: string): string
    decreases items, 0
  {
    if items == [] then ""
    else
      var first := if items[0].Undefined? || items[0].Null? then "" else ToString(items[0]);
      if |items| == 1 then first else first + sep + Join(items[1..], sep)
  }

  /** Joining strings with a separator: the pieces in order, with the separator between them. */
  lemma {:induction false} JoinStrings(a: string, b: string, rest: seq<JsValue>, sep: string)
    ensures Join([Str(a)], sep) == a
    ensures Join([Str(a), Str(b)] + rest, sep) == a + sep + Join([Str(b)] + rest, sep)
  {
    assert ([Str(a), Str(b)] + rest)[1..] == [Str(b)] + rest;
  }

  /** The V8 message of the `TypeError` thrown by reading property `key` of `null` or `undefined`. */
  function ReadError(v: JsValue, key: string): string
    requires v.Undefined? || v.Null?
  {
    "Cannot read properties of " + (if v.Null? then "null" else "undefined") + " (reading '" + key + "')"
  }

  /** `v[key]` for a value that is neither `null` nor `undefined`: an own property of an object, else `undefined`. */
  function Get(v: JsValue, key: string): JsValue {
    if v.Obj? && key in v.props then v.props[key] else Undefined
  }

  /** `v.key`: throws a `TypeError` on `null` and `undefined`, and reads the property otherwise. */
  function Prop(v: JsValue, key: string): (r: Result<JsValue>)
    ensures r.Failure? <==> v.Undefined? || v.Null?
    ensures r.Success? ==> r.value == Get(v, key)
  {
    if v.Undefined? || v.Null? then Failure(ReadError(v, key)) else Success(Get(v, key))
  }
}
