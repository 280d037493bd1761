/**
 * Decimal text of an integer as Java's string concatenation writes it
 * (Integer.toString): an optional '-' followed by digits without leading
 * zeros, and the parse that reads it back.
 */
module IntegerText {

  predicate IsDigit(c: char)
  {
    '0' <= c <= '9'
  }

  predicate IsDigits(s: string)
  {
    forall i :: 0 <= i < |s| ==> IsDigit(s[i])
  }

  function DigitChar(d: int): (c: char)
    requires 0 <= d < 10
    ensures IsDigit(c) && c as int - '0' as int == d
  {
    (d + '0' as int) as char
  }

  /** The shortest decimal text of `n`: never empty, never a leading zero. */
  function NatToDecimal(n: nat): (s: string)
    ensures |s| >= 1 && IsDigits(s)
    ensures s[0] == '0' ==> s == "0" && n == 0
    decreases n
  {
    if n < 10 then [DigitChar(n)] else NatToDecimal(n / 10) + [DigitChar(n % 10)]
  }

  /** The value of a string of decimal digits. */
  function DecimalValue(s: string): nat
    requires IsDigits(s)
    decreases |s|
  {
    if s == [] then 0 else DecimalValue(s[..|s| - 1]) * 10 + (s[|s| - 1] as int - '0' as int)
  }

  lemma {:induction false} DecimalRoundTrip(n: nat)
    ensures DecimalValue(NatToDecimal(n)) == n
    decreases n
  {
    if n >= 10 {
      var s := NatToDecimal(n);
      assert s[..|s| - 1] == NatToDecimal(n / 10);
      DecimalRoundTrip(n / 10);
    }
  }

  /**
   * Canonical integer text: digits with no leading zero, or '-' and the
   * digits of a positive number.
   */
  predicate IsCanonicalIntText(s: string)
  {
    || (|s| >= 1 && IsDigits(s) && (s[0] == '0' ==> |s| == 1))
    || (|s| >= 2 && s[0] == '-' && IsDigits(s[1..]) && s[1] != '0')
  }

  /** The text Java appends for an int. */
  function IntToText(i: int): (s: string)
    ensures IsCanonicalIntText(s)
  {
    if i < 0 then "-" + NatToDecimal(-i) else NatToDecimal(i)
  }

  predicate IsIntegerText(s: string)
  {
    |s| >= 1 && (IsDigits(s) || (s[0] == '-' && |s| >= 2 && IsDigits(s[1..])))
  }

  /** Reads integer text back. */
  function ParseInt(s: string): int
    requires IsIntegerText(s)
  {
    if IsDigits(s) then DecimalValue(s) else 0 - DecimalValue(s[1..])
  }

  /** Integer text reads back as the integer written. */
  lemma IntTextRoundTrip(i: int)
    ensures IsIntegerText(IntToText(i)) && ParseInt(IntToText(i)) == i
  {
    if i < 0 {
      var s := IntToText(i);
      assert s[1..] == NatToDecimal(-i);
      assert !IsDigit(s[0]);
      DecimalRoundTrip(-i);
    } else {
      DecimalRoundTrip(i);
    }
  }

  /** Digits worth 0 are all zeros. */
  lemma {:induction false} ZeroValueAllZeros(s: string)
    requires IsDigits(s) && DecimalValue(s) == 0
    ensures forall i :: 0 <= i < |s| ==> s[i] == '0'
    decreases |s|
  {
    if s != [] {
      ZeroValueAllZeros(s[..|s| - 1]);
    }
  }

  /** Digits without a leading zero are the decimal text of their value. */
  lemma {:induction false} CanonicalDecimalUnique(s: string)
    requires |s| >= 1 && IsDigits(s) && (s[0] == '0' ==> |s| == 1)
    ensures s == NatToDecimal(DecimalValue(s))
    decreases |s|
  {
    var n := DecimalValue(s);
    if |s| > 1 {
      var init := s[..|s| - 1];
      assert init[0] == s[0] != '0';
      if DecimalValue(init) == 0 {
        ZeroValueAllZeros(init);
        assert false;
      }
      CanonicalDecimalUnique(init);
      assert n / 10 == DecimalValue(init) && n % 10 == s[|s| - 1] as int - '0' as int;
      assert s == init + [s[|s| - 1]];
    }
  }

  /** Canonical text is determined by the integer it reads as: it is IntToText's. */
  lemma CanonicalIntTextUnique(s: string)
    requires IsCanonicalIntText(s)
    ensures IsIntegerText(s) && s == IntToText(ParseInt(s))
  {
    if |s| >= 1 && IsDigits(s) {
      CanonicalDecimalUnique(s);
    } else {
      assert !IsDigit(s[0]);
      CanonicalDecimalUnique(s[1..]);
      assert s == "-" + s[1..];
    }
  }
}
