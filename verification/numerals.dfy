/**
 * Digit strings: decimal printing of indices and the reading of an arity
 * digit run by LLVM's `to_integer` into a 32-bit `unsigned`.
 *
 * `to_integer` is called with radix 0, which makes LLVM detect the radix from
 * the text: a run of two or more digits that starts with '0' is read as octal
 * after that '0' (so "010" reads as 8 and "08" is rejected); any other run is
 * read as decimal. The reading fails on an empty run, on a digit not valid in
 * the detected radix and on a value that does not fit in 32 bits.
 */
module Numerals {
  import opened Types

  const UnsignedLimit: nat := 0x1_0000_0000

  predicate IsDigit(c: char) {
    '0' <= c <= '9'
  }

  predicate AllDigits(s: string) {
    forall k :: 0 <= k < |s| ==> IsDigit(s[k])
  }

  function DigitValue(c: char): nat
    requires IsDigit(c)
  {
    (c - '0') as nat
  }

  function DigitChar(d: nat): (c: char)
    requires d < 10
    ensures IsDigit(c) && DigitValue(c) == d
  {
    ('0' as int + d) as char
  }

  /** The value of a digit string in the given radix, most significant digit first. */
  function ValueInRadix(s: string, radix: nat): nat
    requires AllDigits(s)
  {
    if s == [] then 0
    else ValueInRadix(s[..|s| - 1], radix) * radix + DigitValue(s[|s| - 1])
  }

  /** The decimal text of a natural number, without leading zeros. */
  function NatToString(n: nat): (r: string)
    ensures |r| > 0 && AllDigits(r)
    decreases n
  {
    if n < 10 then [DigitChar(n)] else NatToString(n / 10) + [DigitChar(n % 10)]
  }

  /** The longest prefix of `s` made of digits (`take_while(isDigit)`). */
  function TakeDigits(s: string): (r: string)
    ensures |r| <= |s| && r == s[..|r|] && AllDigits(r)
    ensures |r| < |s| ==> !IsDigit(s[|r|])
  {
    if s == [] || !IsDigit(s[0]) then [] else [s[0]] + TakeDigits(s[1..])
  }

  /** Every digit is below the radix. */
  predicate DigitsBelow(s: string, radix: nat)
    requires AllDigits(s)
  {
    forall k :: 0 <= k < |s| ==> DigitValue(s[k]) < radix
  }

  /** The radix `to_integer` detects for a run of digits, and the digits it then reads. */
  function SenseRadix(s: string): (r: (nat, string))
    requires AllDigits(s)
    ensures AllDigits(r.1)
  {
    if |s| > 1 && s[0] == '0' then (8, s[1..]) else (10, s)
  }

  /** `llvm::to_integer(s, unsigned&)` with automatic radix, for a run of digits. */
  function ToUnsigned(s: string): (r: Option<nat>)
    requires AllDigits(s)
    ensures r.Some? ==> r.value < UnsignedLimit
    ensures s == [] ==> r.None?
  {
    var (radix, digits) := SenseRadix(s);
    if digits == [] || !DigitsBelow(digits, radix) then None
    else
      var v := ValueInRadix(digits, radix);
      if v < UnsignedLimit then Some(v) else None
  }

  lemma {:induction false} NatToStringDigits(n: nat)
    ensures n > 0 ==> NatToString(n)[0] != '0'
    ensures ValueInRadix(NatToString(n), 10) == n
    decreases n
  {
    if n >= 10 {
      NatToStringDigits(n / 10);
      var s := NatToString(n);
      assert s[..|s| - 1] == NatToString(n / 10);
    }
  }

  /** A decimal numeral as `raw_ostream` prints one: digits, no leading zero unless it is "0". */
  predicate CanonicalDecimal(w: string) {
    w != [] && AllDigits(w) && (|w| > 1 ==> w[0] != '0')
  }

  /** Decimal printing yields canonical numerals only. */
  lemma NatToStringCanonical(n: nat)
    ensures CanonicalDecimal(NatToString(n))
  {
    NatToStringDigits(n);
  }

  /** A canonical numeral is the decimal printout of its own value: no other text prints it. */
  lemma {:induction false} CanonicalDecimalPrints(w: string)
    requires CanonicalDecimal(w)
    ensures NatToString(ValueInRadix(w, 10)) == w
    decreases |w|
  {
    if |w| == 1 {
      assert w[..0] == [];
      assert DigitChar(DigitValue(w[0])) == w[0];
    } else {
      var init := w[..|w| - 1];
      assert init[0] == w[0];
      CanonicalDecimalPrints(init);
      LeadingDigitPositive(init);
      var v := ValueInRadix(w, 10);
      assert v / 10 == ValueInRadix(init, 10) && v % 10 == DigitValue(w[|w| - 1]);
      assert DigitChar(DigitValue(w[|w| - 1])) == w[|w| - 1];
      assert w == init + [w[|w| - 1]];
    }
  }

  lemma {:induction false} LeadingDigitPositive(w: string)
    requires w != [] && AllDigits(w) && w[0] != '0'
    ensures ValueInRadix(w, 10) >= 1
    decreases |w|
  {
    if |w| > 1 {
      var init := w[..|w| - 1];
      assert init[0] == w[0];
      LeadingDigitPositive(init);
    } else {
      assert w[..0] == [];
    }
  }

  /** Printing a positive 32-bit value and reading it back with `to_integer` yields the value. */
  lemma ToUnsignedOfNatToString(n: nat)
    requires 0 < n < UnsignedLimit
    ensures ToUnsigned(NatToString(n)) == Some(n)
  {
    NatToStringDigits(n);
    var s := NatToString(n);
    assert SenseRadix(s) == (10, s);
  }

  /** A leading zero switches `to_integer` to octal: "010" reads as 8, and "08" is rejected. */
  lemma LeadingZeroIsOctal()
    ensures ToUnsigned("010") == Some(8)
    ensures ToUnsigned("08") == None
    ensures ToUnsigned("0") == Some(0)
  {
    assert SenseRadix("010") == (8, "10");
    assert "10"[..1] == "1";
    assert ValueInRadix("10", 8) == 8;
    assert SenseRadix("08") == (8, "8");
    assert DigitValue("8"[0]) == 8;
    assert SenseRadix("0") == (10, "0");
    assert "0"[..0] == [];
  }
}
