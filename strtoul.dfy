/**
 * The C library's `strtoul(s, NULL, 0)` on a 64-bit target, with the
 * printing of numbers it reads back.
 */
module LibcStrtoul {
  /** `ULONG_MAX` on a 64-bit target. */
  const ULONG_MAX: nat := 0xFFFF_FFFF_FFFF_FFFF


  /** The value of a digit character in bases up to 16; 36 for anything else. */
  function DigitValue(c: char): nat {
    if '0' <= c <= '9' then c as int - '0' as int
    else if 'a' <= c <= 'f' then c as int - 'a' as int + 10
    else if 'A' <= c <= 'F' then c as int - 'A' as int + 10
    else 36
  }

  /** `c` is a digit of base `base`. */
  predicate IsDigitIn(c: char, base: nat) {
    DigitValue(c) < base
  }

  /** Every character of `s` is a base-`base` digit. */
  ghost predicate AllDigits(s: string, base: nat) {
    forall i :: 0 <= i < |s| ==> IsDigitIn(s[i], base)
  }

  /** The length of the longest run of base-`base` digits at the start of `s`. */
  function DigitRun(s: string, base: nat): (n: nat)
    ensures n <= |s|
    ensures forall i :: 0 <= i < n ==> IsDigitIn(s[i], base)
    ensures n < |s| ==> !IsDigitIn(s[n], base)
  {
    if s == [] || !IsDigitIn(s[0], base) then 0 else 1 + DigitRun(s[1..], base)
  }

  /** The number a digit string denotes in base `base`, most significant digit first. */
  function ValueOf(s: string, base: nat): nat {
    if s == [] then 0 else ValueOf(s[..|s| - 1], base) * base + DigitValue(s[|s| - 1])
  }

  /** The base `strtoul` picks for `t` (the text after any sign) when asked for base 0. */
  function DetectBase(t: string): (b: nat)
    ensures b == 8 || b == 10 || b == 16
  {
    if |t| >= 3 && t[0] == '0' && (t[1] == 'x' || t[1] == 'X') && IsDigitIn(t[2], 16) then 16
    else if |t| >= 1 && t[0] == '0' then 8
    else 10
  }

  /**
   * `strtoul(s, NULL, 0)` for a token without white space: an optional
   * sign, then hexadecimal after "0x" or "0X", octal after a leading 0,
   * decimal otherwise, over the longest run of digits; values past
   * ULONG_MAX saturate, and a minus sign negates modulo 2^64.
   */
  function Strtoul(s: string): (r: nat)
    ensures r <= ULONG_MAX
  {
    var neg := |s| > 0 && s[0] == '-';
    var t := if |s| > 0 && (s[0] == '-' || s[0] == '+') then s[1..] else s;
    var v := Magnitude(t);
    if v > ULONG_MAX then ULONG_MAX
    else if neg then (ULONG_MAX + 1 - v) % (ULONG_MAX + 1)
    else v
  }

  /** The value of the digits `t` starts with, in the base DetectBase picks. */
  function Magnitude(t: string): nat {
    var base := DetectBase(t);
    var body := if base == 16 then t[2..] else t;
    ValueOf(body[..DigitRun(body, base)], base)
  }

  /** The lower-case digit character for `d`. */
  function DigitChar(d: nat): (c: char)
    requires d < 16
    ensures DigitValue(c) == d
  {
    if d < 10 then ('0' as int + d) as char else ('a' as int + d - 10) as char
  }

  /** `n` written in base `base` without leading zeros (what `%lx`, `%lu`, `%lo` print). */
  function Digits(n: nat, base: nat): (s: string)
    requires 2 <= base <= 16
    decreases n
  {
    if n < base then [DigitChar(n)] else Digits(n / base, base) + [DigitChar(n % base)]
  }

  /** `base` to the power `k`. */
  function Pow(base: nat, k: nat): nat {
    if k == 0 then 1 else base * Pow(base, k - 1)
  }

  /** Every printed character is a digit of the base. */
  lemma {:induction false} DigitsAreDigits(n: nat, base: nat)
    requires 2 <= base <= 16
    ensures |Digits(n, base)| >= 1
    ensures AllDigits(Digits(n, base), base)
    decreases n
  {
    if n >= base {
      var q, r := n / base, n % base;
      DivFacts(n, base);
      DigitsAreDigits(q, base);
      DigitsStep(n, base);
      DigitsSnoc(Digits(q, base), DigitChar(r), base);
    } else {
      assert Digits(n, base) == [DigitChar(n)];
    }
  }

  /** The printed digits denote `n`. */
  lemma {:induction false} DigitsValue(n: nat, base: nat)
    requires 2 <= base <= 16
    ensures ValueOf(Digits(n, base), base) == n
    decreases n
  {
    if n < base {
      ValueOfSnoc([], DigitChar(n), base, 0);
      assert [] + [DigitChar(n)] == Digits(n, base);
    } else {
      var q, r := n / base, n % base;
      DivMod(n, base);
      DivFacts(n, base);
      DigitsValue(q, base);
      DigitsStep(n, base);
      ValueOfSnoc(Digits(q, base), DigitChar(r), base, q);
    }
  }

  /** The recursive case of Digits. */
  lemma DigitsStep(n: nat, base: nat)
    requires 2 <= base <= 16 && n >= base
    ensures Digits(n, base) == Digits(n / base, base) + [DigitChar(n % base)]
  {
  }

  /** Dividing a number at least the base leaves a smaller positive quotient and a digit. */
  lemma DivFacts(n: nat, base: nat)
    requires 2 <= base <= n
    ensures 1 <= n / base < n && n % base < base
  {
  }

  /** Euclidean division by the base. */
  lemma DivMod(n: nat, base: nat)
    requires base >= 2
    ensures (n / base) * base + n % base == n && n % base < base
  {
  }

  /** Appending a digit multiplies by the base and adds the digit. */
  lemma ValueOfSnoc(p: string, c: char, base: nat, v: nat)
    requires ValueOf(p, base) == v
    ensures ValueOf(p + [c], base) == v * base + DigitValue(c)
  {
    assert (p + [c])[..|p|] == p;
  }

  /** Appending a digit to digits gives digits. */
  lemma DigitsSnoc(p: string, c: char, base: nat)
    requires AllDigits(p, base) && IsDigitIn(c, base)
    ensures AllDigits(p + [c], base)
  {
  }

  /** A positive number is printed without a leading zero. */
  lemma {:induction false} DigitsNoLeadingZero(n: nat, base: nat)
    requires 2 <= base <= 16 && n > 0
    ensures Digits(n, base)[0] != '0'
    decreases n
  {
    if n >= base {
      var q := n / base;
      DivFacts(n, base);
      DigitsNoLeadingZero(q, base);
      DigitsAreDigits(q, base);
      DigitsStep(n, base);
      assert Digits(n, base)[0] == Digits(q, base)[0];
    } else {
      assert DigitValue(DigitChar(n)) == n;
    }
  }

  /** Printed digits are digits, all of them are read back, and they denote `n`. */
  lemma DigitsRoundTrip(n: nat, base: nat)
    requires 2 <= base <= 16
    ensures |Digits(n, base)| >= 1
    ensures DigitRun(Digits(n, base), base) == |Digits(n, base)|
    ensures ValueOf(Digits(n, base), base) == n
    ensures n > 0 ==> Digits(n, base)[0] != '0'
  {
    DigitsAreDigits(n, base);
    AllDigitsRun(Digits(n, base), base);
    DigitsValue(n, base);
    if n > 0 {
      DigitsNoLeadingZero(n, base);
    }
  }

  /** A string of nothing but digits is one run. */
  lemma {:induction false} AllDigitsRun(s: string, base: nat)
    requires AllDigits(s, base)
    ensures DigitRun(s, base) == |s|
    decreases |s|
  {
    if s != [] {
      AllDigitsRun(s[1..], base);
    }
  }

  /** A leading zero changes neither the run nor the value. */
  lemma {:induction false} LeadingZero(s: string, base: nat)
    requires base >= 2
    ensures ValueOf("0" + s, base) == ValueOf(s, base)
    ensures DigitRun("0" + s, base) == 1 + DigitRun(s, base)
    decreases |s|
  {
    assert ("0" + s)[1..] == s;
    if s != [] {
      var z := "0" + s;
      assert z[..|z| - 1] == "0" + s[..|s| - 1];
      assert z[|z| - 1] == s[|s| - 1];
      LeadingZero(s[..|s| - 1], base);
    }
  }

  /** Values below 16^k need at most k hexadecimal digits. */
  lemma {:induction false} HexDigitsLength(n: nat, k: nat)
    requires k >= 1 && n < Pow(16, k)
    ensures |Digits(n, 16)| <= k
    decreases n
  {
    if n >= 16 {
      assert k != 1;
      DigitsStep(n, 16);
      HexDigitsLength(n / 16, k - 1);
    }
  }

  /** 16^16 is one past ULONG_MAX. */
  lemma SixteenToTheSixteen()
    ensures Pow(16, 16) == ULONG_MAX + 1
  {
    assert Pow(16, 1) == 0x10;
    assert Pow(16, 2) == 0x100;
    assert Pow(16, 3) == 0x1000;
    assert Pow(16, 4) == 0x1_0000;
    assert Pow(16, 5) == 0x10_0000;
    assert Pow(16, 6) == 0x100_0000;
    assert Pow(16, 7) == 0x1000_0000;
    assert Pow(16, 8) == 0x1_0000_0000;
    assert Pow(16, 9) == 0x10_0000_0000;
    assert Pow(16, 10) == 0x100_0000_0000;
    assert Pow(16, 11) == 0x1000_0000_0000;
    assert Pow(16, 12) == 0x1_0000_0000_0000;
    assert Pow(16, 13) == 0x10_0000_0000_0000;
    assert Pow(16, 14) == 0x100_0000_0000_0000;
    assert Pow(16, 15) == 0x1000_0000_0000_0000;
  }

  /** A digit is neither a sign nor the letter of a "0x" prefix. */
  lemma DigitIsNotPunctuation(c: char)
    requires IsDigitIn(c, 16)
    ensures c != '-' && c != '+' && c != 'x' && c != 'X'
  {
  }

  /** Without a sign and within range, strtoul is the magnitude. */
  lemma StrtoulUnsigned(t: string)
    requires t == [] || (t[0] != '-' && t[0] != '+')
    requires Magnitude(t) <= ULONG_MAX
    ensures Strtoul(t) == Magnitude(t)
  {
  }

  /** A minus sign negates the magnitude modulo 2^64. */
  lemma StrtoulMinus(t: string)
    requires 0 < Magnitude(t) <= ULONG_MAX
    ensures Strtoul("-" + t) == ULONG_MAX + 1 - Magnitude(t)
  {
    assert ("-" + t)[1..] == t;
  }

  /** Decimal digits without a leading zero read back as decimal. */
  lemma MagnitudeDecimal(n: nat)
    ensures Magnitude(Digits(n, 10)) == n
  {
    var d := Digits(n, 10);
    DigitsRoundTrip(n, 10);
    if n == 0 {
      assert d == "0";
      assert DetectBase(d) == 8;
      assert DigitRun(d, 8) == 1;
      assert d[..1] == d;
      ValueOfSnoc([], '0', 8, 0);
      assert [] + ['0'] == d;
    } else {
      assert DetectBase(d) == 10;
      assert d[..|d|] == d;
    }
  }

  /** A leading zero selects octal, and the zero adds nothing. */
  lemma MagnitudeOctal(n: nat)
    ensures Magnitude("0" + Digits(n, 8)) == n
  {
    var o := Digits(n, 8);
    DigitsRoundTrip(n, 8);
    DigitIsNotPunctuation(o[0]);
    var t := "0" + o;
    assert t[1] == o[0];
    assert DetectBase(t) == 8;
    LeadingZero(o, 8);
    assert t[..|t|] == t;
  }

  /** "0x" and a hexadecimal digit select base 16 past the prefix. */
  lemma MagnitudeHex(n: nat)
    ensures Magnitude("0x" + Digits(n, 16)) == n
  {
    var h := Digits(n, 16);
    DigitsRoundTrip(n, 16);
    var t := "0x" + h;
    assert t[2] == h[0];
    assert DetectBase(t) == 16;
    assert t[2..] == h;
    assert h[..|h|] == h;
  }

  /**
   * strtoul's base detection reads back what printf wrote: decimal without
   * a prefix, octal after a 0, hexadecimal after "0x".
   */
  lemma StrtoulRoundTrip(n: nat)
    requires n <= ULONG_MAX
    ensures Strtoul(Digits(n, 10)) == n
    ensures Strtoul("0" + Digits(n, 8)) == n
    ensures Strtoul("0x" + Digits(n, 16)) == n
  {
    MagnitudeDecimal(n);
    MagnitudeOctal(n);
    MagnitudeHex(n);
    DigitsAreDigits(n, 10);
    DigitIsNotPunctuation(Digits(n, 10)[0]);
    StrtoulUnsigned(Digits(n, 10));
    StrtoulUnsigned("0" + Digits(n, 8));
    StrtoulUnsigned("0x" + Digits(n, 16));
  }

  /** A negative number reads back as its 64-bit two's complement. */
  lemma StrtoulNegates(n: nat)
    requires 0 < n <= ULONG_MAX
    ensures Strtoul("-" + Digits(n, 10)) == ULONG_MAX + 1 - n
  {
    MagnitudeDecimal(n);
    StrtoulMinus(Digits(n, 10));
  }
}
