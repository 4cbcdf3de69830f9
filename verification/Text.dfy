/** Text helpers: white space and decimal digits. */
module Text {

  /** Leading and trailing white space. */
  predicate Space(c: char) {
    var n := c as int;
    9 <= n <= 13 || n == 32 || n == 0xa0 || n == 0x1680 || 0x2000 <= n <= 0x200a || n == 0x2028 || n == 0x2029
    || n == 0x202f || n == 0x205f || n == 0x3000 || n == 0xfeff
  }

  function TrimStart(s: string): string {
    if s != [] && Space(s[0]) then TrimStart(s[1..]) else s
  }

  function TrimEnd(s: string): string {
    if s != [] && Space(s[|s| - 1]) then TrimEnd(s[..|s| - 1]) else s
  }

  function Trim(s: string): string {
    TrimEnd(TrimStart(s))
  }

  /** The 25 characters of white space. */
  lemma SpacesAre(c: char)
    ensures Space(c) <==> c in "\t\n\U{b}\U{c}\r \U{a0}\U{1680}\U{2000}\U{2001}\U{2002}\U{2003}\U{2004}\U{2005}\U{2006}"
                            + "\U{2007}\U{2008}\U{2009}\U{200a}\U{2028}\U{2029}\U{202f}\U{205f}\U{3000}\U{feff}"
  {}

  lemma {:induction false} TrimStartIs(s: string) returns (left: string)
    ensures s == left + TrimStart(s) && forall c :: c in left ==> Space(c)
    ensures TrimStart(s) != "" ==> !Space(TrimStart(s)[0])
  {
    if s != "" && Space(s[0]) {
      left := TrimStartIs(s[1..]);
      left := [s[0]] + left;
    } else {
      left := "";
    }
  }

  lemma {:induction false} TrimEndIs(s: string) returns (right: string)
    ensures s == TrimEnd(s) + right && forall c :: c in right ==> Space(c)
    ensures TrimEnd(s) != "" ==> !Space(TrimEnd(s)[|TrimEnd(s)| - 1])
  {
    if s != "" && Space(s[|s| - 1]) {
      right := TrimEndIs(s[..|s| - 1]);
      right := right + [s[|s| - 1]];
    } else {
      right := "";
    }
  }

  /** Trimming takes away white space at both ends, all of it and nothing else. */
  lemma TrimIs(s: string) returns (left: string, right: string)
    ensures s == left + Trim(s) + right && forall c :: c in left + right ==> Space(c)
    ensures Trim(s) != "" ==> !Space(Trim(s)[0]) && !Space(Trim(s)[|Trim(s)| - 1])
  {
    left := TrimStartIs(s);
    right := TrimEndIs(TrimStart(s));
    hide Space, TrimStart, TrimEnd;
    if Trim(s) != "" { assert Trim(s)[0] == TrimStart(s)[0]; }
  }

  // ---- Decimal digits --------------------------------------------------------------------------

  predicate IsDigit(c: char) {
    '0' <= c <= '9'
  }

  predicate AllDigits(s: string) {
    forall i :: 0 <= i < |s| ==> IsDigit(s[i])
  }

  function DigitChar(d: nat): char
    requires d < 10
  {
    ('0' as int + d) as char
  }

  function DigitValue(c: char): nat
    requires IsDigit(c)
  {
    c as int - '0' as int
  }

  /** The decimal spelling of a number. */
  function Decimal(n: nat): (s: string)
    ensures s != "" && AllDigits(s)
  {
    if n < 10 then [DigitChar(n)] else Decimal(n / 10) + [DigitChar(n % 10)]
  }

  /** The number a digit string spells, leading zeros allowed. */
  function Value(s: string): nat
    requires AllDigits(s)
  {
    if s == "" then 0 else 10 * Value(s[..|s| - 1]) + DigitValue(s[|s| - 1])
  }

  function Pow10(k: nat): (p: nat)
    ensures p > 0
  {
    if k == 0 then 1 else 10 * Pow10(k - 1)
  }

  function ZeroText(k: nat): (s: string)
    ensures |s| == k && AllDigits(s)
  {
    seq(k, _ => '0')
  }

  lemma ValueSnoc(s: string, c: char)
    requires AllDigits(s) && IsDigit(c)
    ensures AllDigits(s + [c]) && Value(s + [c]) == 10 * Value(s) + DigitValue(c)
  {
    assert (s + [c])[..|s|] == s;
  }

  lemma {:induction false} DecimalValue(n: nat)
    ensures Value(Decimal(n)) == n
  {
    if n < 10 {
      assert Decimal(n)[..0] == "";
    } else {
      DecimalValue(n / 10);
      ValueSnoc(Decimal(n / 10), DigitChar(n % 10));
    }
  }

  lemma {:induction false} DecimalLength(n: nat, k: nat)
    requires k > 0 && n < Pow10(k)
    ensures |Decimal(n)| <= k
  {
    if n >= 10 { DecimalLength(n / 10, k - 1); }
  }

  /** Appending zeros scales by a power of ten. */
  lemma {:induction false} ValueZeros(s: string, k: nat)
    requires AllDigits(s)
    ensures AllDigits(s + ZeroText(k)) && Value(s + ZeroText(k)) == Value(s) * Pow10(k)
  {
    if k == 0 {
      assert s + ZeroText(0) == s;
    } else {
      ValueZeros(s, k - 1);
      ValueSnoc(s + ZeroText(k - 1), '0');
      assert s + ZeroText(k) == s + ZeroText(k - 1) + ['0'];
      Scaled(Value(s), Pow10(k - 1));
    }
  }

  lemma Scaled(x: nat, y: nat)
    ensures 10 * (x * y) == x * (10 * y)
  {}

  /** Leading zeros do not change the value. */
  lemma {:induction false} LeadingZeros(k: nat, s: string)
    requires AllDigits(s)
    ensures AllDigits(ZeroText(k) + s) && Value(ZeroText(k) + s) == Value(s)
  {
    if s == "" {
      assert ZeroText(k) + s == ZeroText(k);
      ZeroValue(k);
    } else {
      var n := |s| - 1;
      LeadingZeros(k, s[..n]);
      ValueSnoc(ZeroText(k) + s[..n], s[n]);
      assert ZeroText(k) + s == ZeroText(k) + s[..n] + [s[n]];
    }
  }

  lemma {:induction false} ZeroValue(k: nat)
    ensures Value(ZeroText(k)) == 0
  {
    if k > 0 {
      ZeroValue(k - 1);
      assert ZeroText(k)[..k - 1] == ZeroText(k - 1);
    }
  }
}
