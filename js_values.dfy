/** The handful of JavaScript value semantics the logbook view relies on:
    truthiness, the `a || b` fall-through, rendering a value inside a template
    literal, and the loose equality `==` used by the reload guard. */
module JsValues {

  datatype Option<T> = None | Some(value: T)

  /** A JavaScript value as it occurs in the view: `undefined`, an integral
      number or a string. */
  datatype JsVal = Undefined | Num(n: int) | Str(s: string)

  /** The result of JavaScript's `Number(s)` on a string. */
  datatype Number = NaN | Finite(v: int)

  /** JavaScript truthiness: `undefined`, `0` and `""` are falsy. */
  predicate Truthy(v: JsVal)
    ensures Truthy(v) <==> v !in {Undefined, Num(0), Str("")}
  {
    match v
    case Undefined => false
    case Num(n) => n != 0
    case Str(s) => s != ""
  }

  /** `a || b`: the left operand when it is truthy, otherwise the right one. */
  function Or(a: JsVal, b: JsVal): (r: JsVal)
    ensures r == a || r == b
    ensures Truthy(r) <==> Truthy(a) || Truthy(b)
    ensures Truthy(a) ==> r == a
    ensures !Truthy(a) ==> r == b
  {
    if Truthy(a) then a else b
  }

  predicate IsDigit(c: char) {
    '0' <= c <= '9'
  }

  predicate IsDigits(s: string) {
    forall i :: 0 <= i < |s| ==> IsDigit(s[i])
  }

  function DigitChar(d: nat): (c: char)
    requires d < 10
    ensures IsDigit(c) && c as int - '0' as int == d
  {
    ('0' as int + d) as char
  }

  /** Decimal rendering of a non-negative integer, as `String(n)` gives it. */
  function NatToDecimal(n: nat): (s: string)
    ensures |s| > 0 && IsDigits(s)
    ensures s[0] == '0' ==> n == 0 && |s| == 1
  {
    if n < 10 then [DigitChar(n)] else NatToDecimal(n / 10) + [DigitChar(n % 10)]
  }

  /** The value of a string of decimal digits, most significant first. */
  function DigitsValue(s: string): nat
    requires IsDigits(s)
  {
    if s == [] then 0 else DigitsValue(s[..|s| - 1]) * 10 + (s[|s| - 1] as int - '0' as int)
  }

  /** `Number(s)`: the empty string is 0, a string of digits its decimal value,
      anything else NaN. */
  function StringToNumber(s: string): (r: Number)
    ensures s == "" ==> r == Finite(0)
    ensures r.Finite? ==> r.v >= 0
    ensures IsDigits(s) ==> r.Finite?
    ensures (exists i :: 0 <= i < |s| && !IsDigit(s[i])) ==> r == NaN
  {
    if IsDigits(s) then Finite(DigitsValue(s)) else NaN
  }

  /** `${v}`: how a value is rendered inside a template literal. A number
      renders as digits that `Number()` reads back as its magnitude, after a
      minus sign when it is negative. */
  function ToStr(v: JsVal): (r: string)
    ensures v.Undefined? ==> r == "undefined"
    ensures v.Str? ==> r == v.s
    ensures v.Num? && v.n >= 0 ==> IsDigits(r) && StringToNumber(r) == Finite(v.n)
    ensures v.Num? && v.n >= 0 ==> |r| > 0 && (r[0] == '0' ==> v.n == 0 && r == "0")
    ensures v.Num? && v.n < 0 ==>
              |r| > 1 && r[0] == '-' && IsDigits(r[1..]) && StringToNumber(r[1..]) == Finite(-v.n)
    ensures v.Num? && v.n < 0 ==> r[1] != '0'
  {
    match v
    case Undefined => "undefined"
    case Num(n) =>
      if n < 0 then
        DecimalRoundTrip(-n);
        assert ("-" + NatToDecimal(-n))[1..] == NatToDecimal(-n);
        "-" + NatToDecimal(-n)
      else
        DecimalRoundTrip(n);
        NatToDecimal(n)
    case Str(s) => s
  }

  /** Reading back a rendered number gives the number. */
  lemma {:induction false} DecimalRoundTrip(n: nat)
    ensures DigitsValue(NatToDecimal(n)) == n
  {
    if n >= 10 {
      DecimalRoundTrip(n / 10);
      var s := NatToDecimal(n);
      assert s[..|s| - 1] == NatToDecimal(n / 10);
    }
  }

  /** Loose equality `a == b` between two values: same-type values compare
      directly, a number and a string compare after `Number(string)`, and
      `undefined` equals only itself. */
  function LooseEquals(a: JsVal, b: JsVal): (r: bool)
    ensures a == b ==> r
    ensures r && a.Undefined? ==> b.Undefined?
    ensures (a.Num? && b.Num?) || (a.Str? && b.Str?) ==> (r <==> a == b)
  {
    match (a, b)
    case (Undefined, Undefined) => true
    case (Num(x), Num(y)) => x == y
    case (Str(s), Str(t)) => s == t
    case (Num(x), Str(t)) => StringToNumber(t) == Finite(x)
    case (Str(s), Num(y)) => StringToNumber(s) == Finite(y)
    case _ => false
  }

  /** Loose equality does not depend on the order of its operands. */
  lemma LooseEqualsSymmetric(a: JsVal, b: JsVal)
    ensures LooseEquals(a, b) == LooseEquals(b, a)
  {
  }

  /** A numeric id loosely equals the same id carried as a route string. */
  lemma NumberEqualsItsDecimalString(n: nat)
    ensures LooseEquals(Num(n), Str(NatToDecimal(n)))
    ensures LooseEquals(Str(NatToDecimal(n)), Num(n))
    ensures forall m: int :: m != n ==> !LooseEquals(Num(m), Str(NatToDecimal(n)))
  {
    DecimalRoundTrip(n);
  }
}
