/**
 * JavaScript values as the app receives them from JSON bodies and keeps them in
 * component state, with the few language rules the screens rely on: truthiness,
 * `a || b`, `typeof v === "object"`, property access, `Object.entries`,
 * string conversion and the regular expression `/^\d+$/`.
 */
module Js {
  import opened Wrappers

  /**
   * A JavaScript value. Numbers are modelled as integers. An object's `props`
   * are its own enumerable properties in the order `Object.entries` lists them,
   * each key once.
   */
  datatype JsValue =
    | Undefined
    | Null
    | Bool(b: bool)
    | Num(n: int)
    | Str(s: string)
    | Arr(items: seq<JsValue>)
    | Obj(props: seq<(string, JsValue)>)

  /** What `!!v` and `if (v)` test. */
  predicate Truthy(v: JsValue) {
    match v
    case Undefined => false
    case Null => false
    case Bool(b) => b
    case Num(n) => n != 0
    case Str(s) => s != ""
    case Arr(_) => true
    case Obj(_) => true
  }

  /** `undefined` or `null`: the values whose properties cannot be read. */
  predicate Nullish(v: JsValue) {
    v.Undefined? || v.Null?
  }

  /** `a || b` */
  function Or(a: JsValue, b: JsValue): JsValue {
    if Truthy(a) then a else b
  }

  /** `typeof v === "object"` (true of `null` and of arrays too). */
  predicate IsObjectType(v: JsValue) {
    v.Null? || v.Arr? || v.Obj?
  }

  function Lookup(props: seq<(string, JsValue)>, key: string): JsValue {
    if props == [] then Undefined
    else if props[0].0 == key then props[0].1
    else Lookup(props[1..], key)
  }

  /**
   * `v[key]` for a receiver that is not nullish. None of the property names the
   * app reads is a built-in property of numbers, strings, booleans or arrays,
   * so on those receivers it reads `undefined`.
   */
  function Prop(v: JsValue, key: string): JsValue {
    if v.Obj? then Lookup(v.props, key) else Undefined
  }

  /** `v.key`: None stands for the TypeError thrown when `v` is nullish. */
  function Member(v: JsValue, key: string): Option<JsValue> {
    if Nullish(v) then None else Some(Prop(v, key))
  }

  function DigitChar(d: int): char
    requires 0 <= d < 10
  {
    ('0' as int + d) as char
  }

  predicate IsDigit(c: char) {
    '0' <= c <= '9'
  }

  /** `/^\d+$/.test(s)`: a non-empty run of ASCII digits and nothing else. */
  predicate AllDigits(s: string) {
    |s| > 0 && forall i :: 0 <= i < |s| ==> IsDigit(s[i])
  }

  /** The decimal digits of a natural number, most significant first. */
  function Digits(n: nat): string
    decreases n
  {
    if n < 10 then [DigitChar(n)] else Digits(n / 10) + [DigitChar(n % 10)]
  }

  /** How JavaScript writes an integral number of magnitude below 10^21 as a string. */
  function DecimalString(n: int): string {
    if n < 0 then "-" + Digits(-n) else Digits(n)
  }

  /** The number a run of digits denotes, read from the last digit. */
  function ParseDigits(s: string): int
    requires forall i :: 0 <= i < |s| ==> IsDigit(s[i])
  {
    if s == [] then 0
    else ParseDigits(s[..|s| - 1]) * 10 + (s[|s| - 1] as int - '0' as int)
  }

  /** Writing a natural number in decimal and reading it back gives the number. */
  lemma {:induction false} DigitsRoundTrip(n: nat)
    ensures AllDigits(Digits(n))
    ensures ParseDigits(Digits(n)) == n
  {
    if n >= 10 {
      DigitsRoundTrip(n / 10);
      var s := Digits(n / 10) + [DigitChar(n % 10)];
      assert s[..|s| - 1] == Digits(n / 10);
    }
  }

  /**
   * The decimal form of a number is never empty; it passes `/^\d+$/` exactly
   * when the number is not negative, and then it reads back as the number.
   */
  lemma DecimalStringShape(n: int)
    ensures DecimalString(n) != ""
    ensures AllDigits(DecimalString(n)) <==> n >= 0
    ensures n >= 0 ==> ParseDigits(DecimalString(n)) == n
  {
    if n < 0 {
      DigitsRoundTrip(-n);
      assert DecimalString(n)[0] == '-';
    } else {
      DigitsRoundTrip(n);
    }
  }

  /** Different numbers have different decimal forms. */
  lemma DecimalStringInjective(a: int, b: int)
    requires DecimalString(a) == DecimalString(b)
    ensures a == b
  {
    DecimalStringShape(a);
    DecimalStringShape(b);
    if a < 0 && b < 0 {
      DigitsRoundTrip(-a);
      DigitsRoundTrip(-b);
      assert Digits(-a) == DecimalString(a)[1..];
      assert Digits(-b) == DecimalString(b)[1..];
    }
  }

  function Join(parts: seq<string>): string {
    if |parts| == 0 then ""
    else if |parts| == 1 then parts[0]
    else parts[0] + "," + Join(parts[1..])
  }

  /** `String(v)`, also what `${v}`, `v.toString()` and `URLSearchParams.append` produce. */
  function ToStr(v: JsValue): string
    decreases v
  {
    match v
    case Undefined => "undefined"
    case Null => "null"
    case Bool(b) => if b then "true" else "false"
    case Num(n) => DecimalString(n)
    case Str(s) => s
    case Arr(items) =>
      Join(seq(|items|, i requires 0 <= i < |items| =>
        if Nullish(items[i]) then "" else ToStr(items[i])))
    case Obj(_) => "[object Object]"
  }

  /** `v.toString()`: None stands for the TypeError thrown on a nullish `v`. */
  function ToStringCall(v: JsValue): Option<string> {
    if Nullish(v) then None else Some(ToStr(v))
  }

  /**
   * `Object.entries(v)` for the receivers the app passes to it: an object
   * lists its properties, an array its elements keyed by their index.
   */
  function Entries(v: JsValue): seq<(string, JsValue)>
    requires v.Arr? || v.Obj?
  {
    if v.Obj? then v.props
    else seq(|v.items|, i requires 0 <= i < |v.items| => (DecimalString(i), v.items[i]))
  }

  /**
   * The keys `Object.entries` gives an array's elements are runs of digits,
   * no two alike, and each reads back as its element's index.
   */
  lemma ArrayEntryKeys(v: JsValue)
    requires v.Arr?
    ensures forall i :: 0 <= i < |Entries(v)| ==>
      AllDigits(Entries(v)[i].0) && ParseDigits(Entries(v)[i].0) == i
    ensures forall i, j :: 0 <= i < j < |Entries(v)| ==> Entries(v)[i].0 != Entries(v)[j].0
  {
    var r := Entries(v);
    forall i | 0 <= i < |r|
      ensures AllDigits(r[i].0) && ParseDigits(r[i].0) == i
    {
      DecimalStringShape(i);
    }
    forall i, j | 0 <= i < j < |r|
      ensures r[i].0 != r[j].0
    {
      if r[i].0 == r[j].0 {
        DecimalStringInjective(i, j);
      }
    }
  }
}
