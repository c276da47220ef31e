/**
 * Java `int` arithmetic and `Integer.toString`, as the counters of the Corporeal Beast
 * plugin use them: a 32-bit two's-complement value whose `+=` wraps around, printed in decimal.
 */
module JavaInt {

  const Modulus: int := 0x1_0000_0000
  const MinInt: int := -0x8000_0000
  const MaxInt: int := 0x7FFF_FFFF

  /** The values a Java `int` can hold. */
  type Int32 = x: int | MinInt <= x <= MaxInt

  /** The `int` that Java's 32-bit arithmetic yields for the exact result `x`. */
  function Wrap32(x: int): (r: Int32)
    ensures MinInt <= x <= MaxInt ==> r == x
    ensures (x - r) % Modulus == 0
  {
    (x - MinInt) % Modulus + MinInt
  }

  /** Wrapping after every step is the same as wrapping once at the end. */
  lemma Wrap32Add(a: int, b: int)
    ensures Wrap32(Wrap32(a) + b) == Wrap32(a + b)
  {
    var k := (a - MinInt) / Modulus;
    assert Wrap32(a) == a - k * Modulus;
    assert Wrap32(a) + b - MinInt == (a + b - MinInt) - k * Modulus;
    ModShift(a + b - MinInt, k);
  }

  lemma ModShift(x: int, k: int)
    ensures (x - k * Modulus) % Modulus == x % Modulus
  {
    var q := x / Modulus;
    assert x == q * Modulus + x % Modulus;
    assert x - k * Modulus == (q - k) * Modulus + x % Modulus;
  }

  function DigitChar(d: nat): (c: char)
    requires d < 10
  {
    "0123456789"[d]
  }

  /** The value of a decimal digit character; any other character reads as zero. */
  function DigitValue(c: char): (d: nat)
    ensures d < 10
    ensures IsDigit(c) ==> DigitChar(d) == c
  {
    if IsDigit(c) then (c as int) - ('0' as int) else 0
  }

  predicate IsDigit(c: char) { '0' <= c <= '9' }

  /** The decimal digits of `n`, most significant first, with no leading zero. */
  function Digits(n: nat): (s: string)
    ensures |s| > 0 && forall i :: 0 <= i < |s| ==> IsDigit(s[i])
    ensures |s| > 1 ==> s[0] != '0'
    decreases n
  {
    if n < 10 then [DigitChar(n)] else Digits(n / 10) + [DigitChar(n % 10)]
  }

  /** `Integer.toString(n)`: an optional minus sign followed by the digits of `|n|`. */
  function DecimalString(n: int): (s: string)
  {
    if n < 0 then "-" + Digits(-n) else Digits(n)
  }

  /** Reads back a string of decimal digits. */
  function ParseDigits(s: string): (n: nat)
  {
    if s == [] then 0 else ParseDigits(s[..|s| - 1]) * 10 + DigitValue(s[|s| - 1])
  }

  /** Reads back an optionally signed decimal string. */
  function ParseDecimal(s: string): (n: int)
  {
    if |s| > 0 && s[0] == '-' then -(ParseDigits(s[1..]) as int) else ParseDigits(s)
  }

  lemma {:induction false} DigitsRoundTrip(n: nat)
    ensures ParseDigits(Digits(n)) == n
    decreases n
  {
    if n < 10 {
      assert Digits(n)[..0] == [];
    } else {
      var s := Digits(n);
      DigitsRoundTrip(n / 10);
      assert s[..|s| - 1] == Digits(n / 10);
      assert s[|s| - 1] == DigitChar(n % 10);
    }
  }

  /** A minus sign in front of the digits of `m` reads back as `-m`. */
  lemma NegativeRoundTrip(m: nat)
    ensures ParseDecimal("-" + Digits(m)) == -(m as int)
  {
    var d := Digits(m);
    assert ("-" + d)[1..] == d;
    DigitsRoundTrip(m);
  }

  /** A value that is not negative prints as its digits alone, and reads back. */
  lemma NonNegativeRoundTrip(n: int)
    requires n >= 0
    ensures |DecimalString(n)| > 0 && DecimalString(n)[0] != '-'
    ensures ParseDecimal(DecimalString(n)) == n
  {
    assert IsDigit(Digits(n)[0]);
    DigitsRoundTrip(n);
  }

  /** The counter text is the exact decimal form of the counter: parsing it gives the value back. */
  lemma DecimalRoundTrip(n: int)
    ensures |DecimalString(n)| > 0
    ensures DecimalString(n)[0] == '-' <==> n < 0
    ensures ParseDecimal(DecimalString(n)) == n
  {
    if n < 0 {
      var m: nat := -n;
      assert DecimalString(n) == "-" + Digits(m);
      NegativeRoundTrip(m);
    } else {
      NonNegativeRoundTrip(n);
    }
  }

}
