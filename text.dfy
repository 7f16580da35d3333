/**
 * The string helpers the controllers borrow from Go's standard library:
 * decimal formatting of integers (`fmt.Sprint`, `%d`), `strings.Contains`
 * and the last element of `strings.Split(s, "/")`.
 */
module Text {
  import opened Wrappers

  predicate IsDigit(c: char) {
    '0' <= c <= '9'
  }

  predicate AllDigits(s: string) {
    forall i :: 0 <= i < |s| ==> IsDigit(s[i])
  }

  function DigitChar(d: nat): (c: char)
    requires d < 10
    ensures IsDigit(c) && (c as int) - ('0' as int) == d
  {
    ['0', '1', '2', '3', '4', '5', '6', '7', '8', '9'][d]
  }

  /** Decimal digits of a natural number, most significant first, without leading zeros. */
  function NatToDecimal(n: nat): (s: string)
    ensures |s| >= 1 && AllDigits(s)
    ensures s[0] == '0' ==> n == 0 && s == "0"
    decreases n
  {
    if n < 10 then [DigitChar(n)] else NatToDecimal(n / 10) + [DigitChar(n % 10)]
  }

  /** Go's decimal rendering of a signed integer: a leading '-' for negatives. */
  function IntToDecimal(n: int): string {
    if n < 0 then "-" + NatToDecimal(-n) else NatToDecimal(n)
  }

  /** The value of a string of decimal digits. */
  function DigitsValue(s: string): nat
    requires AllDigits(s)
  {
    if s == [] then 0
    else DigitsValue(s[..|s| - 1]) * 10 + ((s[|s| - 1] as int) - ('0' as int))
  }

  /** Reads back what IntToDecimal writes: an optional '-' followed by at least one digit. */
  function ParseDecimal(s: string): (r: Option<int>)
    ensures r.Some? && r.value < 0 ==> |s| >= 2 && s[0] == '-'
  {
    if |s| >= 2 && s[0] == '-' && AllDigits(s[1..]) then Some(-(DigitsValue(s[1..]) as int))
    else if |s| >= 1 && AllDigits(s) then Some(DigitsValue(s))
    else None
  }

  lemma {:induction false} NatToDecimalValue(n: nat)
    ensures DigitsValue(NatToDecimal(n)) == n
    decreases n
  {
    if n >= 10 {
      var s := NatToDecimal(n);
      NatToDecimalValue(n / 10);
      assert s[..|s| - 1] == NatToDecimal(n / 10);
    }
  }

  /** Formatting an integer and parsing it back gives the integer again. */
  lemma DecimalRoundTrip(n: int)
    ensures ParseDecimal(IntToDecimal(n)) == Some(n)
  {
    if n < 0 {
      NegativeRoundTrip(-n);
    } else {
      NatToDecimalValue(n);
      assert NatToDecimal(n)[0] != '-';
    }
  }

  lemma NegativeRoundTrip(m: nat)
    requires m > 0
    ensures ParseDecimal("-" + NatToDecimal(m)) == Some(-(m as int))
  {
    var s := "-" + NatToDecimal(m);
    NatToDecimalValue(m);
    assert s[1..] == NatToDecimal(m);
  }

  /** `strings.Contains(s, pattern)`. */
  predicate Contains(s: string, pattern: string) {
    exists i | 0 <= i <= |s| - |pattern| :: OccursAt(s, pattern, i)
  }

  /** `pattern` occurs in `s` starting at index `i`. */
  predicate OccursAt(s: string, pattern: string, i: int) {
    0 <= i <= |s| - |pattern| && s[i..i + |pattern|] == pattern
  }

  /** A string without a ':' contains no "://". */
  lemma NoColonNoScheme(s: string)
    requires ':' !in s
    ensures !Contains(s, "://")
  {
    forall i | 0 <= i <= |s| - 3
      ensures !OccursAt(s, "://", i)
    {
      assert s[i] != ':';
    }
  }

  /**
   * The last element of `strings.Split(s, "/")`: everything after the last '/',
   * or the whole string when it has no '/'.
   */
  function LastSegment(s: string): (r: string)
    ensures |r| <= |s| && r == s[|s| - |r|..]
    ensures '/' !in r
    ensures r == s || s[|s| - |r| - 1] == '/'
  {
    if s == [] then []
    else if s[|s| - 1] == '/' then []
    else LastSegment(s[..|s| - 1]) + [s[|s| - 1]]
  }

  /** The segment after a '/' that is followed by no other '/' is the last segment. */
  lemma LastSegmentAfter(s: string, k: nat)
    requires k < |s| && s[k] == '/' && '/' !in s[k + 1..]
    ensures LastSegment(s) == s[k + 1..]
  {
    var r := LastSegment(s);
    var n := |s| - k - 1;
    // A longer segment would contain s[k] == '/'; a shorter one would be
    // preceded by a character of s[k + 1..], which is not '/'.
    assert |r| == n;
  }
}
