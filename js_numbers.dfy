/**
  JavaScript's string-to-number coercions as the front end uses them:
  `Number(s)`, `parseFloat(s)`, the `|| 0` and `|| ''` defaults, and
  `String(n)` for a natural number (used in the HTTP error message).

  Numbers are exact reals; `None` stands for NaN. Both conversions read
  the decimal literal grammar `[+-] digits [. digits] [(e|E) [+-] digits]`,
  with at least one digit before the exponent: `Number` only when the
  literal is the whole string (the empty string reads as 0), `parseFloat`
  on the longest such prefix.
*/
module JsNumbers {
  import opened Wrappers

  predicate IsDigit(c: char) { '0' <= c <= '9' }

  function DigitValue(c: char): (d: nat)
    requires IsDigit(c)
    ensures d < 10
  {
    c as int - '0' as int
  }

  function DigitChar(d: nat): (c: char)
    requires d < 10
    ensures IsDigit(c) && DigitValue(c) == d
  {
    ('0' as int + d) as char
  }

  predicate AllDigits(s: string) {
    forall i :: 0 <= i < |s| ==> IsDigit(s[i])
  }

  function Pow10(k: nat): (p: nat)
    ensures p >= 1
  {
    if k == 0 then 1 else 10 * Pow10(k - 1)
  }

  /** The value of a run of decimal digits, most significant first; "" reads as 0. */
  function DigitsValue(s: string): (n: nat)
    requires AllDigits(s)
    ensures n < Pow10(|s|)
    decreases |s|
  {
    if s == [] then 0 else DigitsValue(s[..|s| - 1]) * 10 + DigitValue(s[|s| - 1])
  }

  /** The length of the longest prefix of `s` made of digits only. */
  function DigitRun(s: string): (n: nat)
    ensures n <= |s| && AllDigits(s[..n])
    ensures n < |s| ==> !IsDigit(s[n])
  {
    if s == [] || !IsDigit(s[0]) then 0 else 1 + DigitRun(s[1..])
  }

  /** A number read from the head of a string, and how many characters it took. */
  datatype Read<T> = Read(value: T, length: nat)

  function SignLength(s: string): (n: nat)
    ensures n <= 1 && n <= |s|
    ensures n == 1 <==> |s| > 0 && (s[0] == '+' || s[0] == '-')
  {
    if |s| > 0 && (s[0] == '+' || s[0] == '-') then 1 else 0
  }

  /** An exponent part `(e|E) [+-] digits` at the head of `s`. */
  function ReadExponent(s: string): (r: Option<Read<int>>)
    ensures r.Some? ==> 2 <= r.value.length <= |s|
  {
    if |s| == 0 || (s[0] != 'e' && s[0] != 'E') then None
    else
      var t := s[1..];
      var k := SignLength(t);
      var n := DigitRun(t[k..]);
      if n == 0 then None
      else
        var e: int := DigitsValue(t[k..][..n]);
        Some(Read(if k == 1 && t[0] == '-' then -e else e, 1 + k + n))
  }

  function Scale(m: real, e: int): real {
    if e >= 0 then m * (Pow10(e) as real) else m / (Pow10(-e) as real)
  }

  /** An unsigned mantissa `digits [. digits]`, with at least one digit, at the head of `t`. */
  function ReadMantissa(t: string): (r: Option<Read<real>>)
    ensures r.Some? ==> 0 < r.value.length <= |t|
  {
    var a := DigitRun(t);
    if a < |t| && t[a] == '.' then
      var rest := t[a + 1..];
      var b := DigitRun(rest);
      if a + b == 0 then None
      else Some(Read(DigitsValue(t[..a]) as real + FractionValue(rest[..b]), a + 1 + b))
    else if a == 0 then None
    else Some(Read(DigitsValue(t[..a]) as real, a))
  }

  /** The value of the digits after a decimal point. */
  function FractionValue(frac: string): real
    requires AllDigits(frac)
  {
    DigitsValue(frac) as real / Pow10(|frac|) as real
  }

  /** The number `m`, scaled by the exponent part at the head of `rest` when there is one. */
  function WithExponent(m: Read<real>, rest: string): (r: Read<real>)
    ensures m.length <= r.length <= m.length + |rest|
  {
    match ReadExponent(rest)
    case None => m
    case Some(e) => Read(Scale(m.value, e.value), m.length + e.length)
  }

  /** The longest decimal literal at the head of `s`, if there is one. */
  function ReadDecimal(s: string): (r: Option<Read<real>>)
    ensures r.Some? ==> 0 < r.value.length <= |s|
  {
    var k := SignLength(s);
    match ReadMantissa(s[k..])
    case None => None
    case Some(m) =>
      var signed := if k == 1 && s[0] == '-' then -m.value else m.value;
      Some(WithExponent(Read(signed, k + m.length), s[k + m.length..]))
  }

  /** `Number(s)` for a string. Where it gives a number for non-empty text, `parseFloat` gives the same one. */
  function ToNumber(s: string): (r: Option<real>)
    ensures s == "" ==> r == Some(0.0)
    ensures s != "" && r.Some? ==> ParseFloat(s) == r
  {
    if s == "" then Some(0.0)
    else match ReadDecimal(s)
      case Some(d) => if d.length == |s| then Some(d.value) else None
      case None => None
  }

  /** `parseFloat(s)`: NaN for the empty string and for text that starts with no sign, digit or point. */
  function ParseFloat(s: string): (r: Option<real>)
    ensures s == "" ==> r == None
    ensures s != "" && !IsDigit(s[0]) && s[0] !in {'+', '-', '.'} ==> r == None
  {
    match ReadDecimal(s)
    case Some(d) => Some(d.value)
    case None => None
  }

  /** `Number(s) || 0`: the number the text reads as, with NaN (and 0) giving 0. */
  function NumberOrZero(s: string): (v: real)
    ensures ToNumber(s) == Some(v) || (ToNumber(s) == None && v == 0.0)
  {
    match ToNumber(s)
    case Some(x) => x
    case None => 0.0
  }

  /** `String(n)` for a natural number: its decimal digits, without leading zeros. */
  function ShowNat(n: nat): (s: string)
    ensures 0 < |s| && AllDigits(s)
    ensures n > 0 ==> s[0] != '0'
  {
    if n < 10 then [DigitChar(n)] else ShowNat(n / 10) + [DigitChar(n % 10)]
  }

  lemma {:induction false} DigitsValueOfShowNat(n: nat)
    ensures DigitsValue(ShowNat(n)) == n
    decreases n
  {
    if n >= 10 {
      var s := ShowNat(n / 10);
      var c := DigitChar(n % 10);
      assert (s + [c])[..|s|] == s;
      DigitsValueOfShowNat(n / 10);
    }
  }

  lemma {:induction false} DigitRunOfDigits(s: string)
    requires AllDigits(s)
    ensures DigitRun(s) == |s|
  {
    if s != [] {
      DigitRunOfDigits(s[1..]);
    }
  }

  /** A run of digits is read whole, as its decimal value. */
  lemma ReadMantissaOfDigits(t: string)
    requires t != [] && AllDigits(t)
    ensures ReadMantissa(t) == Some(Read(DigitsValue(t) as real, |t|))
  {
    DigitRunOfDigits(t);
    assert t[..|t|] == t;
  }

  lemma ReadDecimalOfDigits(s: string)
    requires s != [] && AllDigits(s)
    ensures ReadDecimal(s) == Some(Read(DigitsValue(s) as real, |s|))
  {
    assert SignLength(s) == 0;
    assert s[0..] == s;
    ReadMantissaOfDigits(s);
    assert ReadExponent(s[|s|..]) == None;
  }

  /** A run of digits reads as its decimal value under both conversions. */
  lemma NumberOfDigits(s: string)
    requires s != [] && AllDigits(s)
    ensures ToNumber(s) == Some(DigitsValue(s) as real)
    ensures ParseFloat(s) == Some(DigitsValue(s) as real)
  {
    ReadDecimalOfDigits(s);
  }

  /** `Number(String(n)) == n`, and `parseFloat` agrees. */
  lemma NumberOfShowNat(n: nat)
    ensures ToNumber(ShowNat(n)) == Some(n as real)
    ensures ParseFloat(ShowNat(n)) == Some(n as real)
    ensures NumberOrZero(ShowNat(n)) == n as real
  {
    DigitsValueOfShowNat(n);
    NumberOfDigits(ShowNat(n));
  }

  /** A minus sign before a numeral gives the negated value. */
  lemma NumberOfNegativeNumeral(n: nat)
    ensures ToNumber("-" + ShowNat(n)) == Some(-(n as real))
    ensures NumberOrZero("-" + ShowNat(n)) == -(n as real)
  {
    var d := ShowNat(n);
    var s := "-" + d;
    DigitsValueOfShowNat(n);
    assert SignLength(s) == 1;
    assert s[1..] == d;
    ReadMantissaOfDigits(d);
    assert s[1 + |d|..] == [];
    assert ReadExponent([]) == None;
  }

  lemma {:induction false} DigitRunStopsAtNonDigit(d: string, rest: string)
    requires AllDigits(d) && rest != [] && !IsDigit(rest[0])
    ensures DigitRun(d + rest) == |d|
  {
    if d != [] {
      assert (d + rest)[1..] == d[1..] + rest;
      DigitRunStopsAtNonDigit(d[1..], rest);
    }
  }

  /**
    `parseFloat` reads a numeral off the front of text that goes on with
    something else, where `Number` gives NaN for the whole.
  */
  lemma ParseFloatReadsPrefix(n: nat, rest: string)
    requires rest != [] && !IsDigit(rest[0]) && rest[0] !in {'.', 'e', 'E'}
    ensures ParseFloat(ShowNat(n) + rest) == Some(n as real)
    ensures ToNumber(ShowNat(n) + rest) == None
  {
    var d := ShowNat(n);
    var s := d + rest;
    DigitsValueOfShowNat(n);
    DigitRunStopsAtNonDigit(d, rest);
    assert SignLength(s) == 0;
    assert s[0..] == s && s[..|d|] == d && s[|d|..] == rest;
    assert ReadMantissa(s) == Some(Read(n as real, |d|));
    assert ReadExponent(rest) == None;
  }

  /** Text that is not a decimal literal reads as NaN, so `Number(s) || 0` is 0. */
  lemma NonNumericIsZero(s: string)
    requires s != [] && ReadDecimal(s).None?
    ensures ToNumber(s) == None && NumberOrZero(s) == 0.0
  {
  }
}
