/** Decimal text: JavaScript's `Number.prototype.toString` on integers and the two
    parsers the application leans on, `parseInt` (radix 10) and `parseFloat`. */
module Text {
  import opened Wrappers

  predicate IsDigit(c: char) { '0' <= c <= '9' }

  predicate AllDigits(s: string) { forall i :: 0 <= i < |s| ==> IsDigit(s[i]) }

  predicate StartsWith(s: string, prefix: string) {
    |prefix| <= |s| && s[..|prefix|] == prefix
  }

  function DigitChar(d: nat): (c: char)
    requires d < 10
    ensures IsDigit(c)
  {
    ['0', '1', '2', '3', '4', '5', '6', '7', '8', '9'][d]
  }

  function DigitValue(c: char): nat
    requires IsDigit(c)
  {
    (c as int - '0' as int) as nat
  }

  /** The numeric value of a string of decimal digits. */
  function DigitsValue(s: string): nat
    requires AllDigits(s)
  {
    if s == [] then 0 else DigitsValue(s[..|s| - 1]) * 10 + DigitValue(s[|s| - 1])
  }

  /** `n.toString()` for a non-negative integer: the shortest decimal numeral. */
  function NatToString(n: nat): string
    decreases n
  {
    if n < 10 then [DigitChar(n)] else NatToString(n / 10) + [DigitChar(n % 10)]
  }

  /** `n.toString()` for any integer. */
  function IntToString(n: int): string {
    if n < 0 then "-" + NatToString(-n) else NatToString(n)
  }

  lemma DigitCharValue(d: nat)
    requires d < 10
    ensures DigitValue(DigitChar(d)) == d
  {
  }

  /** The numeral is a non-empty digit string that denotes `n`. */
  lemma {:induction false} NatToStringDenotes(n: nat)
    ensures |NatToString(n)| > 0 && AllDigits(NatToString(n))
    ensures DigitsValue(NatToString(n)) == n
    decreases n
  {
    var s := NatToString(n);
    if n < 10 {
      DigitCharValue(n);
    } else {
      NatToStringDenotes(n / 10);
      DigitCharValue(n % 10);
      assert s[..|s| - 1] == NatToString(n / 10);
    }
  }

  /** A numeral has no leading zero unless it is "0" itself. */
  lemma {:induction false} NatToStringNoLeadingZero(n: nat)
    ensures NatToString(n)[0] == '0' <==> n == 0
    decreases n
  {
    if n >= 10 {
      NatToStringNoLeadingZero(n / 10);
      NatToStringDenotes(n / 10);
    }
  }

  predicate IsSpace(c: char) { c == ' ' || c == '\t' || c == '\n' || c == '\r' }

  function TrimStart(s: string): (r: string)
    ensures |r| <= |s| && r == s[|s| - |r|..]
    ensures r == [] || !IsSpace(r[0])
  {
    if s != [] && IsSpace(s[0]) then TrimStart(s[1..]) else s
  }

  /** The longest prefix of `s` made of digits. */
  function LeadingDigits(s: string): (r: string)
    ensures AllDigits(r) && StartsWith(s, r)
    ensures |r| == |s| || !IsDigit(s[|r|])
  {
    if s != [] && IsDigit(s[0]) then [s[0]] + LeadingDigits(s[1..]) else []
  }

  lemma {:induction false} LeadingDigitsOfDigits(s: string, rest: string)
    requires AllDigits(s)
    requires rest == [] || !IsDigit(rest[0])
    ensures LeadingDigits(s + rest) == s
    decreases |s|
  {
    if s != [] {
      assert (s + rest)[1..] == s[1..] + rest;
      LeadingDigitsOfDigits(s[1..], rest);
    }
  }

  /** An optional sign, with the sign's factor and what follows it. */
  function SplitSign(t: string): (int, string) {
    if t != [] && t[0] == '-' then (-1, t[1..])
    else if t != [] && t[0] == '+' then (1, t[1..])
    else (1, t)
  }

  /** `parseInt(s)` read in base 10: leading white space and a sign are skipped, then the longest run
      of digits is read; `None` is JavaScript's NaN (no digit at that point). */
  function ParseInt(s: string): (r: Option<int>)
  {
    var (sign, rest) := SplitSign(TrimStart(s));
    var digits := LeadingDigits(rest);
    if digits == [] then None else Some(sign * DigitsValue(digits))
  }

  /** `parseInt` reads back what `toString` writes. */
  lemma {:induction false} ParseIntOfIntToString(n: int)
    ensures ParseInt(IntToString(n)) == Some(n)
  {
    if n < 0 {
      var digits := NatToString(-n);
      NumeralReadBack(-n);
      NegativeNumeral(digits);
      assert ParseInt("-" + digits) == Some(-1 * DigitsValue(digits));
    } else {
      NumeralReadBack(n);
      ReadDigits(NatToString(n));
    }
  }

  /** A numeral starts with a digit and is read back whole as its value. */
  lemma NumeralReadBack(m: nat)
    ensures |NatToString(m)| > 0 && IsDigit(NatToString(m)[0])
    ensures LeadingDigits(NatToString(m)) == NatToString(m)
    ensures DigitsValue(NatToString(m)) == m
    ensures TrimStart(NatToString(m)) == NatToString(m)
    ensures SplitSign(NatToString(m)) == (1, NatToString(m))
  {
    var digits := NatToString(m);
    NatToStringDenotes(m);
    assert digits + [] == digits;
    LeadingDigitsOfDigits(digits, []);
  }

  lemma ReadDigits(digits: string)
    requires |digits| > 0 && AllDigits(digits) && LeadingDigits(digits) == digits
    requires SplitSign(digits) == (1, digits) && TrimStart(digits) == digits
    ensures ParseInt(digits) == Some(DigitsValue(digits))
  {
  }

  lemma NegativeNumeral(digits: string)
    ensures TrimStart("-" + digits) == "-" + digits
    ensures SplitSign("-" + digits) == (-1, digits)
  {
    assert ("-" + digits)[1..] == digits;
  }

  function Pow10(k: nat): (p: nat)
    ensures p >= 1
  {
    if k == 0 then 1 else 10 * Pow10(k - 1)
  }

  /** `parseFloat(s)` restricted to numerals without an exponent part: white space and a
      sign are skipped, then digits, an optional '.' and fraction digits are read; at least
      one digit is needed, otherwise the result is NaN (`None`). */
  function ParseFloat(s: string): (r: Option<real>)
  {
    var (sign, rest) := SplitSign(TrimStart(s));
    var v := ReadDecimal(rest);
    if v.None? then None else Some(sign as real * v.value)
  }

  /** The digits after a leading '.', if any. */
  function FractionDigits(t: string): string {
    if t != [] && t[0] == '.' then LeadingDigits(t[1..]) else []
  }

  /** Unsigned decimal digits with an optional fraction; `None` without any digit. */
  function ReadDecimal(rest: string): Option<real> {
    var whole := LeadingDigits(rest);
    var fraction := FractionDigits(rest[|whole|..]);
    if whole == [] && fraction == [] then None
    else if fraction == [] then Some(DigitsValue(whole) as real)
    else Some(DigitsValue(whole) as real + DigitsValue(fraction) as real / Pow10(|fraction|) as real)
  }

  /** `parseFloat` reads a whole-number numeral as that number. */
  lemma {:induction false} ParseFloatOfNatToString(n: nat)
    ensures ParseFloat(NatToString(n)) == Some(n as real)
  {
    NumeralReadBack(n);
    ReadWholeNumeral(NatToString(n));
  }

  lemma ReadWholeNumeral(digits: string)
    requires |digits| > 0 && AllDigits(digits) && LeadingDigits(digits) == digits
    requires SplitSign(digits) == (1, digits) && TrimStart(digits) == digits
    ensures ParseFloat(digits) == Some(DigitsValue(digits) as real)
  {
    assert FractionDigits(digits[|digits|..]) == [];
    assert ReadDecimal(digits) == Some(DigitsValue(digits) as real);
  }

  /** `x || 0` on the outcome of a parse: NaN (and 0 itself) become 0. */
  function OrZero(r: Option<real>): (v: real)
    ensures r.None? ==> v == 0.0
    ensures r.Some? ==> v == r.value
  {
    if r.Some? then r.value else 0.0
  }
}
