/**
 * Decimal text of a Java `int`, as produced by string concatenation
 * (`"" + n`, i.e. `Integer.toString(n)`): an optional minus sign followed by
 * the digits, with no leading zero. A parser is the independent partner of the
 * renderer; the two are proved to be inverse to each other.
 */
module DecimalText {
  import opened Wrappers

  predicate IsDigit(c: char) {
    '0' <= c <= '9'
  }

  predicate AllDigits(s: string) {
    forall i | 0 <= i < |s| :: IsDigit(s[i])
  }

  /** A digit string in canonical form: non-empty, no leading zero unless it is "0". */
  predicate IsCanonical(s: string) {
    && 1 <= |s|
    && AllDigits(s)
    && (s[0] == '0' ==> |s| == 1)
  }

  function DigitValue(c: char): (d: nat)
    requires IsDigit(c)
    ensures d < 10
  {
    c as int - '0' as int
  }

  function DigitChar(d: nat): (c: char)
    requires d < 10
    ensures IsDigit(c) && DigitValue(c) == d
  {
    ('0' as int + d) as char
  }

  /** The digits of `n`, most significant first. */
  function NatToDigits(n: nat): (s: string)
    ensures 1 <= |s| && AllDigits(s)
    ensures |s| == 1 <==> n < 10
    ensures s[0] == '0' ==> n == 0
    decreases n
  {
    if n < 10 then [DigitChar(n)] else NatToDigits(n / 10) + [DigitChar(n % 10)]
  }

  /** The number a digit string denotes. */
  function DigitsToNat(s: string): nat
    requires AllDigits(s)
  {
    if s == [] then 0 else DigitsToNat(s[..|s| - 1]) * 10 + DigitValue(s[|s| - 1])
  }

  /** Java's decimal rendering of an integer. */
  function IntToString(n: int): (s: string)
    ensures 1 <= |s|
    ensures forall i | 0 <= i < |s| :: s[i] == '-' || IsDigit(s[i])
    ensures (s[0] == '-') == (n < 0)
  {
    if n < 0 then "-" + NatToDigits(-n) else NatToDigits(n)
  }

  /** Reads back a decimal integer in the form `IntToString` writes; anything else is `None`. */
  function ParseInt(s: string): Option<int> {
    if 1 <= |s| && s[0] == '-' then
      if IsCanonical(s[1..]) && DigitsToNat(s[1..]) != 0 then Some(-(DigitsToNat(s[1..]) as int)) else None
    else if IsCanonical(s) then Some(DigitsToNat(s))
    else None
  }

  lemma {:induction false} NatToDigitsRoundTrip(n: nat)
    ensures DigitsToNat(NatToDigits(n)) == n
    decreases n
  {
    var s := NatToDigits(n);
    if n >= 10 {
      NatToDigitsRoundTrip(n / 10);
      assert s[..|s| - 1] == NatToDigits(n / 10);
    }
  }

  lemma NatToDigitsIsCanonical(n: nat)
    ensures IsCanonical(NatToDigits(n))
  {
  }

  lemma {:induction false} LeadingNonZeroIsPositive(s: string)
    requires 1 <= |s| && AllDigits(s) && s[0] != '0'
    ensures DigitsToNat(s) >= 1
    decreases |s|
  {
    if |s| > 1 {
      LeadingNonZeroIsPositive(s[..|s| - 1]);
    }
  }

  lemma {:induction false} CanonicalRoundTrip(s: string)
    requires IsCanonical(s)
    ensures NatToDigits(DigitsToNat(s)) == s
    decreases |s|
  {
    var p := s[..|s| - 1];
    if |s| > 1 {
      assert IsCanonical(p);
      CanonicalRoundTrip(p);
      LeadingNonZeroIsPositive(p);
      var v := DigitsToNat(s);
      assert v / 10 == DigitsToNat(p) && v % 10 == DigitValue(s[|s| - 1]);
      assert s == p + [s[|s| - 1]];
    } else {
      assert DigitsToNat(s) == DigitValue(s[0]);
    }
  }

  /** Rendering then parsing gives back the integer. */
  lemma IntToStringRoundTrip(n: int)
    ensures ParseInt(IntToString(n)) == Some(n)
  {
    var s := IntToString(n);
    if n < 0 {
      assert s[1..] == NatToDigits(-n);
      NatToDigitsRoundTrip(-n);
      NatToDigitsIsCanonical(-n);
    } else {
      NatToDigitsRoundTrip(n);
      NatToDigitsIsCanonical(n);
    }
  }

  /** Whatever the parser accepts is exactly the rendering of the integer it yields. */
  lemma ParseIntIsExact(s: string)
    requires ParseInt(s).Some?
    ensures IntToString(ParseInt(s).value) == s
  {
    if 1 <= |s| && s[0] == '-' {
      CanonicalRoundTrip(s[1..]);
      assert s == "-" + s[1..];
    } else {
      CanonicalRoundTrip(s);
    }
  }
}
