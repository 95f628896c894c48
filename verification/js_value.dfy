/**
 * JSON values as the handlers see them after parsing a request body or unmarshalling a
 * DynamoDB image, with the JavaScript semantics the handlers rely on: truthiness,
 * property access, conversion to text (`${v}`) and conversion to a number (`Number(v)`).
 */
module JsValue {
  import opened Wrappers
  import opened JsText

  datatype Value =
    | Null
    | Bool(b: bool)
    | Num(n: real)
    | Str(s: string)
    | Arr(items: seq<Value>)
    | Obj(fields: map<string, Value>)

  /** The own properties of an object; also a DynamoDB item (attribute name to value). */
  type Item = map<string, Value>

  /** JavaScript truthiness of a value that is present. */
  predicate Truthy(v: Value) {
    match v
    case Null => false
    case Bool(b) => b
    case Num(n) => n != 0.0
    case Str(s) => s != ""
    case Arr(_) => true
    case Obj(_) => true
  }

  /** Truthiness of a value that may be `undefined` (`None`). */
  predicate Present(v: Option<Value>) {
    v.Some? && Truthy(v.value)
  }

  /** An own property of an object, `undefined` when absent. */
  function Field(fields: Item, key: string): (r: Option<Value>)
    ensures r.Some? <==> key in fields
    ensures r.Some? ==> r.value == fields[key]
  {
    if key in fields then Some(fields[key]) else None
  }

  predicate AllDigits(s: string) {
    forall i :: 0 <= i < |s| ==> IsAsciiDigit(s[i])
  }

  /** The index a property key denotes on an array or a string: a canonical decimal numeral. */
  function IndexKey(key: string): Option<nat> {
    if |key| >= 1 && AllDigits(key) && (|key| == 1 || key[0] != '0') then Some(DigitsValue(key)) else None
  }

  /** What reading a property yields: a value, `undefined`, or a thrown TypeError. */
  datatype Access = Got(v: Option<Value>) | TypeError(message: string)

  /** `base[key]`: reading a property of `undefined` or `null` throws a TypeError. */
  function Member(base: Option<Value>, key: string): (r: Access)
    ensures r.TypeError? <==> base.None? || base == Some(Null)
  {
    match base
    case None => TypeError("Cannot read properties of undefined (reading '" + key + "')")
    case Some(v) =>
      match v
      case Null => TypeError("Cannot read properties of null (reading '" + key + "')")
      case Obj(fs) => Got(Field(fs, key))
      case Arr(xs) =>
        var i := IndexKey(key);
        if i.Some? && i.value < |xs| then Got(Some(xs[i.value])) else Got(None)
      case Str(s) =>
        var i := IndexKey(key);
        if i.Some? && i.value < |s| then Got(Some(Str([s[i.value]]))) else Got(None)
      case Bool(_) => Got(None)
      case Num(_) => Got(None)
  }

  /** 10 to the power k. */
  function Pow10(k: nat): (r: nat)
    ensures r >= 1
  {
    if k == 0 then 1 else 10 * Pow10(k - 1)
  }

  /** Up to `k` decimal digits of a fraction 0 <= f < 1, stopping once nothing is left. */
  function FractionDigits(f: real, k: nat): string
    requires 0.0 <= f < 1.0
    decreases k
  {
    if k == 0 || f == 0.0 then ""
    else
      var d := (f * 10.0).Floor;
      assert 0 <= d < 10;
      [('0' as int + d) as char] + FractionDigits(f * 10.0 - d as real, k - 1)
  }

  /** `String(n)`: exact for integers; other numbers get at most 17 fractional digits. */
  function NumberText(n: real): string {
    if n == n.Floor as real then IntText(n.Floor)
    else
      var m := if n < 0.0 then -n else n;
      (if n < 0.0 then "-" else "") + IntText(m.Floor) + "." + FractionDigits(m - m.Floor as real, 17)
  }

  /** `String(v)`, as a template literal `${v}` renders a present value. */
  function Display(v: Value): string
    decreases v
  {
    match v
    case Null => "null"
    case Bool(b) => if b then "true" else "false"
    case Num(n) => NumberText(n)
    case Str(s) => s
    case Arr(xs) =>
      if |xs| == 0 then ""
      else Join(seq(|xs|, i requires 0 <= i < |xs| => if xs[i] == Null then "" else Display(xs[i])), ',')
    case Obj(_) => "[object Object]"
  }

  /** `${v}` for a value that may be `undefined`. */
  function Template(v: Option<Value>): string {
    if v.Some? then Display(v.value) else "undefined"
  }

  /** Value of the digits after a decimal point. */
  function FractionValue(frac: string): real
    requires AllDigits(frac)
  {
    DigitsValue(frac) as real / Pow10(|frac|) as real
  }

  /** Value of an unsigned decimal literal: digits, optionally a point and more digits. */
  function UnsignedDecimal(u: string): Option<real> {
    var parts := Split(u, '.');
    if |parts| == 1 then
      if u != "" && AllDigits(u) then Some(DigitsValue(u) as real) else None
    else if |parts| == 2 then
      var whole, frac := parts[0], parts[1];
      if (whole != "" || frac != "") && AllDigits(whole) && AllDigits(frac)
      then Some(DigitsValue(whole) as real + FractionValue(frac))
      else None
    else None
  }

  /** `Number(s)` for a string: white space around it is ignored and the empty string is 0; `None` is NaN. */
  function StringToNumber(s: string): Option<real> {
    var t := Trim(s);
    if t == "" then Some(0.0)
    else if t[0] == '-' then
      var u := UnsignedDecimal(t[1..]);
      if u.Some? then Some(-u.value) else None
    else if t[0] == '+' then UnsignedDecimal(t[1..])
    else UnsignedDecimal(t)
  }

  /** `Number(v)`; `None` stands for NaN. */
  function NumberOf(v: Value): Option<real> {
    match v
    case Null => Some(0.0)
    case Bool(b) => Some(if b then 1.0 else 0.0)
    case Num(n) => Some(n)
    case Str(s) => StringToNumber(s)
    case Arr(_) => StringToNumber(Display(v))
    case Obj(_) => None
  }

  /** A non-empty string of digits is an unsigned decimal literal of its value. */
  lemma DigitsDecimal(d: string)
    requires d != "" && AllDigits(d)
    ensures UnsignedDecimal(d) == Some(DigitsValue(d) as real)
  {
    SplitNone(d, '.');
  }

  /** `Number` of a non-empty string of digits is its value. */
  lemma DigitsNumber(d: string)
    requires d != "" && AllDigits(d)
    ensures StringToNumber(d) == Some(DigitsValue(d) as real)
  {
    assert IsAsciiDigit(d[0]) && IsAsciiDigit(d[|d| - 1]);
    TrimNoSpace(d);
    DigitsDecimal(d);
  }

  /** `Number` of a minus sign followed by digits is the negated value of the digits. */
  lemma SignedDigitsNumber(d: string, k: nat)
    requires d != "" && AllDigits(d) && DigitsValue(d) == k
    ensures StringToNumber("-" + d) == Some(-(k as real))
  {
    var t := "-" + d;
    assert IsAsciiDigit(d[|d| - 1]) && t[|t| - 1] == d[|d| - 1];
    TrimNoSpace(t);
    assert t[1..] == d;
    DigitsDecimal(d);
  }

  /** `Number` reads back what `String` writes, for negative integers. */
  lemma NegativeTextNumber(n: int)
    requires n < 0
    ensures StringToNumber(IntText(n)) == Some(n as real)
  {
    var d := NatText(-n);
    assert IntText(n) == "-" + d;
    assert d != "" && AllDigits(d);
    NatTextValue(-n);
    SignedDigitsNumber(d, -n);
  }

  /** `Number` reads back what `String` writes, for integers. */
  lemma {:induction false} IntTextNumber(n: int)
    ensures StringToNumber(IntText(n)) == Some(n as real)
  {
    if n < 0 {
      NegativeTextNumber(n);
    } else {
      NatTextValue(n);
      DigitsNumber(NatText(n));
    }
  }
}
