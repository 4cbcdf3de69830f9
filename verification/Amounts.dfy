/** Decimal amounts of the extension and the command line: printing and parsing undo each other. */
module Amounts {
  import opened Common
  import opened Coins
  import opened Text

  const MAX_PRECISION: nat := 8

  // ---- Whole and fractional part ---------------------------------------------------------------

  function WholePart(atomic: nat, precision: nat): (whole: nat)
    ensures whole <= atomic
  {
    Quotient(atomic, Pow10(precision));
    atomic / Pow10(precision)
  }

  function RestPart(atomic: nat, precision: nat): (rest: nat)
    ensures rest < Pow10(precision)
  {
    atomic % Pow10(precision)
  }

  lemma Quotient(n: nat, k: nat)
    requires k > 0
    ensures 0 <= n / k <= n
  {
    Divided(n, k);
    var q := n / k;
    if q < 0 { Product(-q, k); } else { Product(q, k); }
  }

  lemma Divided(n: nat, k: nat)
    requires k > 0
    ensures (n / k) * k + n % k == n
  {}

  lemma Product(q: int, k: nat)
    requires k > 0
    ensures q >= 0 ==> q <= q * k
    ensures (-q) * k == -(q * k)
  {}

  lemma PartsMake(atomic: nat, precision: nat)
    ensures WholePart(atomic, precision) * Pow10(precision) + RestPart(atomic, precision) == atomic
  {
    Divided(atomic, Pow10(precision));
  }

  lemma NoFraction(atomic: nat)
    ensures WholePart(atomic, 0) == atomic && RestPart(atomic, 0) == 0
  {}

  // ---- The extension -----------------------------------------------------------------------------

  /** Thousands separators every three digits from the right. */
  function Group(digits: string): string {
    if |digits| <= 3 then digits else Group(digits[..|digits| - 3]) + "," + digits[|digits| - 3..]
  }

  /** The fraction digits of `atomic`, all of them. */
  function FullFraction(atomic: nat, precision: nat): string {
    if precision == 0 then ""
    else
      var digits := Decimal(RestPart(atomic, precision));
      if |digits| < precision then ZeroText(precision - |digits|) + digits else digits
  }

  /** Trailing zeros dropped down to `least` digits. */
  function TrimZeros(fraction: string, least: nat): string {
    if |fraction| > least && fraction[|fraction| - 1] == '0' then TrimZeros(fraction[..|fraction| - 1], least)
        else fraction
  }

  function Smaller(a: nat, b: nat): nat {
    if a < b then a else b
  }

  /** The fraction after its decimal point, or nothing. */
  function Tail(fraction: string): string {
    if fraction == "" then "" else "." + fraction
  }

  function FormattedText(atomic: nat, precision: nat, minFraction: nat, grouping: bool): string {
    var whole := Decimal(WholePart(atomic, precision));
    var fraction := TrimZeros(FullFraction(atomic, precision), Smaller(minFraction, precision));
    (if grouping then Group(whole) else whole) + Tail(fraction)
  }

  /** Formats a non-negative amount without a sign. */
  method FormatAtomic(atomic: nat, precision: nat, minFraction: nat, grouping: bool) returns (text: string)
    ensures text == FormattedText(atomic, precision, minFraction, grouping)
  {
    var whole := Decimal(WholePart(atomic, precision));
    var least := Smaller(minFraction, precision);
    var fraction := TrimmedFraction(FullFraction(atomic, precision), least);
    text := (if grouping then Group(whole) else whole) + Tail(fraction);
  }

  /** Drops trailing zeros one by one. */
  method TrimmedFraction(full: string, least: nat) returns (fraction: string)
    ensures fraction == TrimZeros(full, least)
  {
    fraction := full;
    while |fraction| > least && fraction[|fraction| - 1] == '0'
      invariant TrimZeros(fraction, least) == TrimZeros(full, least)
      decreases |fraction|
    {
      fraction := fraction[..|fraction| - 1];
    }
  }

  /** A character the parser drops before reading. */
  predicate Separator(c: char) {
    c == ',' || c == '_' || c == ' '
  }

  function Strip(s: string): string {
    if s == "" then ""
    else Strip(s[..|s| - 1]) + (if Separator(s[|s| - 1]) then "" else [s[|s| - 1]])
  }

  lemma StripSnoc(s: string, c: char)
    ensures Strip(s + [c]) == Strip(s) + (if c in ",_ " then "" else [c])
  {
    StripLast(s + [c]);
    hide Strip;
    assert (s + [c])[..|s|] == s;
  }

  lemma StripLast(s: string)
    requires s != ""
    ensures Strip(s) == Strip(s[..|s| - 1]) + (if s[|s| - 1] in ",_ " then "" else [s[|s| - 1]])
  {
    assert s[|s| - 1] in ",_ " <==> Separator(s[|s| - 1]);
  }

  /** Stripping drops commas, underscores and spaces wherever they stand, and nothing else. */
  lemma {:induction false} StripAt(left: string, c: char, right: string)
    ensures Strip(left + [c] + right) == Strip(left) + (if c in ",_ " then "" else [c]) + Strip(right)
  {
    hide Strip;
    if right == "" {
      assert left + [c] + right == left + [c] && Strip("") == "" by { StripNone(); }
      StripSnoc(left, c);
    } else {
      var front, last := right[..|right| - 1], right[|right| - 1];
      StripAt(left, c, front);
      StripSnoc(left + [c] + front, last);
      StripSnoc(front, last);
      assert left + [c] + right == left + [c] + front + [last] && right == front + [last];
    }
  }

  lemma StripNone()
    ensures Strip("") == ""
  {}

  /** The position of the first decimal point, or the length. */
  function PointAt(s: string): (i: nat)
    ensures i <= |s| && (i < |s| ==> s[i] == '.') && forall j :: 0 <= j < i ==> s[j] != '.'
  {
    if s == "" then 0 else if s[0] == '.' then 0 else 1 + PointAt(s[1..])
  }

  /** What stands before and after the first decimal point. */
  function BeforePoint(text: string): string {
    text[..PointAt(text)]
  }

  function AfterPoint(text: string): string {
    if PointAt(text) < |text| then text[PointAt(text) + 1..] else ""
  }

  /** Reads digits with at most one decimal point, scaled by the precision. */
  function ReadDecimal(text: string, precision: nat): Option<nat> {
    var whole, fraction := BeforePoint(text), AfterPoint(text);
    if !AllDigits(whole) || !AllDigits(fraction) || (whole == "" && fraction == "") || |fraction| > precision then None
    else
      var padded := fraction + ZeroText(precision - |fraction|);
      var atomic := Value(whole) * Pow10(precision) + Value(padded);
      if atomic > MAX_U64 then None else Some(atomic)
  }

  function ParseDecimalAmount(input: string, precision: nat): Option<nat> {
    var text := Strip(Trim(input));
    if precision > MAX_PRECISION || text == "" || |text| > 40 then None else ReadDecimal(text, precision)
  }

  // ---- Trimmed zeros come back ---------------------------------------------------------------------

  lemma {:induction false} TrimKeeps(fraction: string, least: nat)
    requires AllDigits(fraction)
    ensures var t := TrimZeros(fraction, least);
            |t| <= |fraction| && AllDigits(t) && t + ZeroText(|fraction| - |t|) == fraction
  {
    if |fraction| > least && fraction[|fraction| - 1] == '0' {
      var front := fraction[..|fraction| - 1];
      TrimKeeps(front, least);
      var t := TrimZeros(front, least);
      assert fraction == front + ['0'];
      assert ZeroText(|fraction| - |t|) == ZeroText(|front| - |t|) + ['0'];
    } else {
      assert fraction + ZeroText(0) == fraction;
    }
  }

  lemma {:induction false} StripAppend(a: string, b: string)
    ensures Strip(a + b) == Strip(a) + Strip(b)
  {
    if b == "" {
      assert a + b == a;
    } else {
      StripAppend(a, b[..|b| - 1]);
      assert (a + b)[..|a + b| - 1] == a + b[..|b| - 1];
    }
  }

  lemma {:induction false} StripDigits(s: string)
    requires AllDigits(s)
    ensures Strip(s) == s
  {
    if s != "" { StripDigits(s[..|s| - 1]); }
  }

  /** Grouping keeps the first and the last digit in place. */
  lemma {:induction false} GroupEnds(digits: string)
    requires AllDigits(digits) && digits != ""
    ensures var g := Group(digits);
            g != "" && IsDigit(g[0]) && IsDigit(g[|g| - 1])
    decreases |digits|
  {
    if |digits| > 3 {
      var n := |digits| - 3;
      GroupEnds(digits[..n]);
      GroupLonger(digits);
      hide Group;
    }
  }

  lemma GroupLonger(digits: string)
    requires |digits| > 3
    ensures Group(digits) == Group(digits[..|digits| - 3]) + "," + digits[|digits| - 3..]
  {}

  /** Grouping adds nothing but separators. */
  lemma {:induction false} StripGroup(digits: string)
    requires AllDigits(digits)
    ensures Strip(Group(digits)) == digits
    decreases |digits|
  {
    if |digits| <= 3 {
      StripDigits(digits);
    } else {
      var front, last := digits[..|digits| - 3], digits[|digits| - 3..];
      GroupLonger(digits);
      StripComma();
      StripGroup(front);
      StripDigits(last);
      hide Group, Strip, AllDigits;
      StripAppend(Group(front) + ",", last);
      StripAppend(Group(front), ",");
      assert digits == front + last;
    }
  }

  lemma StripComma()
    ensures Strip(",") == ""
  {
    assert ","[..0] == "";
  }

  lemma PlainEnds(text: string)
    requires text != "" && IsDigit(text[0]) && IsDigit(text[|text| - 1])
    ensures Trim(text) == text
  {
    assert TrimStart(text) == text && TrimEnd(text) == text;
  }

  lemma PointIs(whole: string, fraction: string)
    requires AllDigits(whole)
    ensures PointAt(whole + "." + fraction) == |whole| && PointAt(whole) == |whole|
  {
    var text := whole + "." + fraction;
    assert text[|whole|] == '.';
    assert forall j :: 0 <= j < |whole| ==> text[j] == whole[j] && IsDigit(whole[j]);
  }

  lemma Split(text: string, whole: string, fraction: string)
    requires PointAt(text) == |whole| && text == whole + "." + fraction
    ensures BeforePoint(text) == whole && AfterPoint(text) == fraction
  {
    hide PointAt;
    assert text[..|whole|] == whole && text[|whole| + 1..] == fraction;
  }

  lemma Unsplit(text: string)
    requires PointAt(text) == |text|
    ensures BeforePoint(text) == text && AfterPoint(text) == ""
  {
    hide PointAt;
  }

  lemma TailIs(whole: string, fraction: string)
    ensures fraction == "" ==> whole + Tail(fraction) == whole
    ensures fraction != "" ==> whole + Tail(fraction) == whole + "." + fraction
  {}

  /** A whole part and a fraction are told apart again. */
  lemma Pieces(whole: string, fraction: string)
    requires AllDigits(whole)
    ensures BeforePoint(whole + Tail(fraction)) == whole && AfterPoint(whole + Tail(fraction)) == fraction
    ensures PointAt(whole + Tail(fraction)) < |whole + Tail(fraction)| <==> fraction != ""
  {
    hide *;
    PointIs(whole, fraction);
    TailIs(whole, fraction);
    if fraction == "" {
      Unsplit(whole);
    } else {
      Split(whole + "." + fraction, whole, fraction);
    }
  }

  /** All digits of a fraction, leading zeros included, spell the remainder. */
  lemma FullFractionIs(atomic: nat, precision: nat)
    ensures var f := FullFraction(atomic, precision);
            AllDigits(f) && |f| == precision && Value(f) == RestPart(atomic, precision)
  {
    NoFraction(atomic);
    if precision > 0 {
      var rest := RestPart(atomic, precision);
      DecimalLength(rest, precision);
      DecimalValue(rest);
      LeadingZeros(precision - |Decimal(rest)|, Decimal(rest));
      hide Decimal, Value, Pow10, RestPart;
      assert ZeroText(0) + Decimal(rest) == Decimal(rest);
    }
  }

  /** A whole part and a trimmed fraction read back as the amount they came from. */
  lemma ReadBack(atomic: nat, precision: nat, fraction: string)
    requires precision <= MAX_PRECISION && atomic <= MAX_U64 && AllDigits(fraction) && |fraction| <= precision
    requires fraction + ZeroText(precision - |fraction|) == FullFraction(atomic, precision)
    ensures var whole := Decimal(WholePart(atomic, precision));
            ReadDecimal(whole + Tail(fraction), precision) == Some(atomic)
  {
    var whole := Decimal(WholePart(atomic, precision));
    FullFractionIs(atomic, precision);
    DecimalValue(WholePart(atomic, precision));
    PartsMake(atomic, precision);
    Pieces(whole, fraction);
    hide Decimal, Value, Pow10, FullFraction, WholePart, RestPart, AllDigits, BeforePoint, AfterPoint, Tail;
  }

  lemma WholeLength(atomic: nat, precision: nat)
    requires atomic <= MAX_U64
    ensures |Decimal(WholePart(atomic, precision))| <= 20
  {
    BigPower();
    DecimalLength(WholePart(atomic, precision), 20);
  }

  lemma BigPower()
    ensures Pow10(20) == 100_000_000_000_000_000_000
  {
    assert Pow10(5) == 100_000;
    assert Pow10(10) == 100_000 * Pow10(5);
    assert Pow10(15) == 100_000 * Pow10(10);
    assert Pow10(20) == 100_000 * Pow10(15);
  }

  /** Parsing a formatted amount gives the amount back, with or without grouping, however many zeros are kept. */
  lemma ParseFormatted(atomic: nat, precision: nat, minFraction: nat, grouping: bool)
    requires atomic <= MAX_U64 && precision <= MAX_PRECISION
    ensures ParseDecimalAmount(FormattedText(atomic, precision, minFraction, grouping), precision) == Some(atomic)
  {
    var whole := Decimal(WholePart(atomic, precision));
    var full := FullFraction(atomic, precision);
    var fraction := TrimZeros(full, Smaller(minFraction, precision));
    var tail := Tail(fraction);
    var text := FormattedText(atomic, precision, minFraction, grouping);
    FullFractionIs(atomic, precision);
    TrimKeeps(full, Smaller(minFraction, precision));
    WholeLength(atomic, precision);
    ReadBack(atomic, precision, fraction);
    StripTail(whole, fraction, grouping);
    hide Decimal, Value, Pow10, WholePart, RestPart, FullFraction, TrimZeros, Group, Strip, ReadDecimal, Trim;
    assert text == (if grouping then Group(whole) else whole) + tail;
  }

  lemma StripPoint(fraction: string)
    requires AllDigits(fraction)
    ensures Strip(Tail(fraction)) == Tail(fraction)
  {
    StripDigits(fraction);
    StripAppend(".", fraction);
    assert "."[..0] == "";
    assert Strip(".") == ".";
  }

  lemma StripTail(whole: string, fraction: string, grouping: bool)
    requires AllDigits(whole) && whole != "" && AllDigits(fraction)
    ensures var text := (if grouping then Group(whole) else whole) + Tail(fraction);
            Trim(text) == text && Strip(text) == whole + Tail(fraction)
  {
    var head := if grouping then Group(whole) else whole;
    StripGroup(whole);
    GroupEnds(whole);
    StripDigits(whole);
    StripPoint(fraction);
    StripAppend(head, Tail(fraction));
    hide Group, Strip, Trim, AllDigits;
    TailEnds(head, fraction);
  }

  lemma TailEnds(head: string, fraction: string)
    requires head != "" && IsDigit(head[0]) && IsDigit(head[|head| - 1]) && AllDigits(fraction)
    ensures Trim(head + Tail(fraction)) == head + Tail(fraction)
  {
    hide Trim;
    PlainEnds(head + Tail(fraction));
  }

  // ---- The command line ----------------------------------------------------------------------------------

  /** Formats with trailing zeros trimmed away entirely. */
  function FormatAmount(atomic: nat, precision: nat): string {
    if precision == 0 then Decimal(atomic)
    else
      var whole, rest := WholePart(atomic, precision), RestPart(atomic, precision);
      if rest == 0 then Decimal(whole)
      else Decimal(whole) + "." + TrimZeros(FullFraction(atomic, precision), 0)
  }

  function ScaledFraction(fraction: string, precision: nat): nat
    requires AllDigits(fraction) && |fraction| <= precision
  {
    if fraction == "" then 0 else Value(fraction) * Pow10(precision - |fraction|)
  }

  function ParseDecimal(text: string, precision: nat): Option<nat> {
    var whole, fraction := BeforePoint(text), AfterPoint(text);
    if whole == "" || !AllDigits(whole) || !AllDigits(fraction) || (PointAt(text) < |text| && fraction == "")
      || |fraction| > precision
    then None
    else
      var total := Value(whole) * Pow10(precision) + ScaledFraction(fraction, precision);
      if total > MAX_U64 then None else Some(total)
  }

  const ATOMIC_PREFIX := "atomic:"

  /** An amount in decimals of the asset's precision, or in atomic units after a prefix. */
  function ParseAmount(input: string, precision: nat): Option<nat> {
    var text := Trim(input);
    var value := if ATOMIC_PREFIX <= text then ParseCanonical(text[|ATOMIC_PREFIX|..])
        else ParseDecimal(text, precision);
    if value.None? || value.value == 0 || value.value > MAX_MONEY then None else value
  }

  /** A canonical unsigned integer: digits without a leading zero. */
  function ParseCanonical(text: string): Option<nat> {
    if text == "" || !AllDigits(text) || (|text| > 1 && text[0] == '0') || Value(text) > MAX_U64 then None
        else Some(Value(text))
  }

  /** Both programs' ways of scaling a fraction agree. */
  lemma FractionScaled(fraction: string, precision: nat)
    requires AllDigits(fraction) && |fraction| <= precision
    ensures AllDigits(fraction + ZeroText(precision - |fraction|))
    ensures Value(fraction + ZeroText(precision - |fraction|)) == ScaledFraction(fraction, precision)
  {
    ValueZeros(fraction, precision - |fraction|);
  }

  lemma DecimalReads(whole: string, fraction: string, precision: nat)
    requires AllDigits(whole) && whole != "" && AllDigits(fraction) && |fraction| <= precision
    ensures var text := whole + Tail(fraction);
            ParseDecimal(text, precision) == ReadDecimal(text, precision)
  {
    Pieces(whole, fraction);
    FractionScaled(fraction, precision);
    hide Value, Pow10, BeforePoint, AfterPoint, PointAt, Tail, ScaledFraction, AllDigits, ZeroText;
  }

  lemma {:induction false} TrimsAway(s: string)
    requires AllDigits(s)
    ensures TrimZeros(s, 0) == "" <==> Value(s) == 0
  {
    if s != "" {
      TrimsAway(s[..|s| - 1]);
    }
  }

  /** The printed amount is the whole part and the trimmed fraction. */
  lemma FormatAmountIs(atomic: nat, precision: nat)
    ensures FormatAmount(atomic, precision)
         == Decimal(WholePart(atomic, precision)) + Tail(TrimZeros(FullFraction(atomic, precision), 0))
  {
    var full := FullFraction(atomic, precision);
    FullFractionIs(atomic, precision);
    TrimsAway(full);
    NoFraction(atomic);
    assert Decimal(WholePart(atomic, precision)) + "" == Decimal(WholePart(atomic, precision));
    hide Decimal, Value, Pow10, WholePart, RestPart, TrimZeros, FullFraction;
    assert precision == 0 ==> full == "";
    if TrimZeros(full, 0) != "" {
      var fraction := TrimZeros(full, 0);
      assert Decimal(WholePart(atomic, precision)) + "." + fraction
          == Decimal(WholePart(atomic, precision)) + ("." + fraction);
    }
  }

  /** Text that starts with a digit carries no prefix. */
  lemma NoPrefix(whole: string, tail: string)
    requires whole != "" && IsDigit(whole[0])
    ensures !(ATOMIC_PREFIX <= whole + tail)
  {
    assert (whole + tail)[0] == whole[0] && ATOMIC_PREFIX[0] == 'a';
  }

  /** Every positive amount of money survives formatting and parsing. */
  lemma ParseFormatAmount(atomic: nat, precision: nat)
    requires 0 < atomic <= MAX_MONEY && precision <= MAX_PRECISION
    ensures ParseAmount(FormatAmount(atomic, precision), precision) == Some(atomic)
  {
    var whole := Decimal(WholePart(atomic, precision));
    var full := FullFraction(atomic, precision);
    var fraction := TrimZeros(full, 0);
    FormatAmountIs(atomic, precision);
    FullFractionIs(atomic, precision);
    TrimKeeps(full, 0);
    assert IsDigit(whole[0]);
    NoPrefix(whole, Tail(fraction));
    hide Decimal, Value, Pow10, WholePart, RestPart, FullFraction, TrimZeros, Strip, Trim, AllDigits;
    hide ReadDecimal, ParseDecimal, ParseCanonical, FormatAmount, Tail, IsDigit;
    ReadBack(atomic, precision, fraction);
    DecimalReads(whole, fraction, precision);
    StripTail(whole, fraction, false);
  }

  // ---- What is printed, and what is read -------------------------------------------------------------

  /** Counted from the right, every fourth character is a comma and the others are the digits. */
  lemma {:induction false} GroupedAt(digits: string, i: nat)
    requires digits != "" && i < |Group(digits)|
    ensures |Group(digits)| == |digits| + (|digits| - 1) / 3
    ensures i % 4 == 3 ==> Group(digits)[|Group(digits)| - 1 - i] == ','
    ensures i % 4 != 3 ==>
              0 <= |digits| - 1 - (i - i / 4) < |digits|
              && Group(digits)[|Group(digits)| - 1 - i] == digits[|digits| - 1 - (i - i / 4)]
    decreases |digits|
  {
    if |digits| > 3 {
      var front := digits[..|digits| - 3];
      GroupLonger(digits);
      GroupedAt(front, if i >= 4 then i - 4 else 0);
      GroupTail(digits, Group(front), i);
      hide Group;
    }
  }

  lemma GroupTail(digits: string, front: string, i: nat)
    requires |digits| > 3 && i < |front| + 4
    ensures var g := front + "," + digits[|digits| - 3..];
            && |g| == |front| + 4
            && (i < 3 ==> g[|g| - 1 - i] == digits[|digits| - 1 - i]) && (i == 3 ==> g[|g| - 1 - i] == ',')
            && (i >= 4 ==> g[|g| - 1 - i] == front[|front| - 1 - (i - 4)])
  {}

  /** The fraction printed is the shortest with the wanted count of digits: it ends in no zero beyond them. */
  lemma {:induction false} TrimStops(fraction: string, least: nat)
    requires |fraction| >= least
    ensures var t := TrimZeros(fraction, least);
            |t| >= least && (|t| > least ==> t[|t| - 1] != '0') && t <= fraction
  {
    if |fraction| > least && fraction[|fraction| - 1] == '0' { TrimStops(fraction[..|fraction| - 1], least); }
  }

  /** Digits, with or without a point and further digits. */
  ghost predicate IsDecimal(text: string, whole: string, fraction: string) {
    && AllDigits(whole) && AllDigits(fraction)
    && ((text == whole && fraction == "") || text == whole + "." + fraction)
  }

  lemma DecimalSplits(text: string, whole: string, fraction: string)
    requires IsDecimal(text, whole, fraction)
    ensures BeforePoint(text) == whole && AfterPoint(text) == fraction
  {
    PointIs(whole, fraction);
    if text == whole && fraction == "" {
      Unsplit(whole);
    } else {
      Split(text, whole, fraction);
    }
    hide PointAt, AllDigits;
  }

  lemma SplitsDecimal(text: string)
    ensures AllDigits(BeforePoint(text)) && AllDigits(AfterPoint(text)) ==>
              IsDecimal(text, BeforePoint(text), AfterPoint(text))
  {
    var at := PointAt(text);
    hide PointAt, AllDigits;
    if at < |text| {
      assert text == text[..at] + "." + text[at + 1..];
    } else {
      assert text == text[..at];
    }
  }

  /** What digits before and after the point are worth in atomic units. */
  function Worth(whole: string, fraction: string, precision: nat): nat
    requires AllDigits(whole) && AllDigits(fraction) && |fraction| <= precision
  {
    Value(whole) * Pow10(precision) + Value(fraction) * Pow10(precision - |fraction|)
  }

  /** The text reads as this many atomic units. */
  ghost predicate Reads(text: string, whole: string, fraction: string, precision: nat, atomic: nat) {
    IsDecimal(text, whole, fraction) && |fraction| <= precision && atomic == Worth(whole, fraction, precision)
  }

  lemma ReadsParts(text: string, whole: string, fraction: string, precision: nat, atomic: nat)
    requires Reads(text, whole, fraction, precision, atomic)
    ensures IsDecimal(text, whole, fraction) && AllDigits(whole) && AllDigits(fraction) && |fraction| <= precision
    ensures atomic == Worth(whole, fraction, precision) && (|whole| + |fraction| > 0 ==> text != "")
    ensures BeforePoint(text) == whole && AfterPoint(text) == fraction
  {
    DecimalSplits(text, whole, fraction);
    hide Worth, BeforePoint, AfterPoint;
  }

  lemma WorthIs(whole: string, fraction: string, precision: nat)
    requires AllDigits(whole) && AllDigits(fraction) && |fraction| <= precision
    ensures AllDigits(fraction + ZeroText(precision - |fraction|))
    ensures Worth(whole, fraction, precision)
         == Value(whole) * Pow10(precision) + Value(fraction + ZeroText(precision - |fraction|))
    ensures Worth(whole, fraction, precision) == Value(whole) * Pow10(precision) + ScaledFraction(fraction, precision)
  {
    FractionScaled(fraction, precision);
    assert fraction == "" ==> Value(fraction) == 0;
    hide Pow10, ZeroText;
  }

  /** The extension reads, white space and separators aside, up to 40 characters of digits with at most one point, at
      least one digit and no more decimals than the asset has, as what they are worth within 64 bits. */
  lemma ParsesExactly(input: string, precision: nat, atomic: nat)
    ensures ParseDecimalAmount(input, precision) == Some(atomic) <==>
            && precision <= 8 && |Strip(Trim(input))| <= 40 && atomic < 0x1_0000_0000_0000_0000
            && exists whole, fraction ::
                 Reads(Strip(Trim(input)), whole, fraction, precision, atomic) && |whole| + |fraction| > 0
  {
    var text := Strip(Trim(input));
    hide *;
    ParseIs(input, precision);
    SplitsDecimal(text);
    var whole, fraction := BeforePoint(text), AfterPoint(text);
    ReadIs(text, precision, atomic);
    if ReadDecimal(text, precision) == Some(atomic) { ReadsIs(text, whole, fraction, precision, atomic); }
    if w, f :| Reads(text, w, f, precision, atomic) && |w| + |f| > 0 {
      ReadsParts(text, w, f, precision, atomic);
    }
  }

  lemma ReadsIs(text: string, whole: string, fraction: string, precision: nat, atomic: nat)
    requires IsDecimal(text, whole, fraction) && AllDigits(whole) && AllDigits(fraction) && |fraction| <= precision
    requires atomic == Worth(whole, fraction, precision)
    ensures Reads(text, whole, fraction, precision, atomic)
  {
    hide Worth;
  }

  lemma ParseIs(input: string, precision: nat)
    ensures ParseDecimalAmount(input, precision)
         == var text := Strip(Trim(input));
            if precision > 8 || text == "" || |text| > 40 then None else ReadDecimal(text, precision)
  {
    hide Strip, Trim, ReadDecimal;
  }

  lemma ReadIs(text: string, precision: nat, atomic: nat)
    ensures ReadDecimal(text, precision) == Some(atomic) <==>
            var whole, fraction := BeforePoint(text), AfterPoint(text);
            && AllDigits(whole) && AllDigits(fraction) && |whole| + |fraction| > 0 && |fraction| <= precision
            && atomic == Worth(whole, fraction, precision) && atomic < 0x1_0000_0000_0000_0000
  {
    var whole, fraction := BeforePoint(text), AfterPoint(text);
    if AllDigits(whole) && AllDigits(fraction) && |fraction| <= precision { WorthIs(whole, fraction, precision); }
    hide BeforePoint, AfterPoint, AllDigits, Value, Pow10, ZeroText, Worth;
  }

  /** The command line reads digits, with a point only between digits, no more decimals than the asset has, or, after
      a prefix, atomic units without a leading zero; always a positive amount of money. */
  lemma ParseAmountExactly(input: string, precision: nat, atomic: nat)
    ensures ParseAmount(input, precision) == Some(atomic) <==>
            && 0 < atomic <= 2_100_000_000_000_000
            && var text := Trim(input);
               if "atomic:" <= text then
                 var digits := text[7..];
                 digits != "" && AllDigits(digits) && (|digits| > 1 ==> digits[0] != '0') && atomic == Value(digits)
               else
                 exists whole, fraction ::
                   Reads(text, whole, fraction, precision, atomic) && |whole| > 0 && (fraction == "" ==> text == whole)
  {
    var text := Trim(input);
    if "atomic:" <= text {
      hide Trim, Value, AllDigits, ParseDecimal;
    } else {
      hide *;
      ParseAmountIs(input, precision, atomic);
      SplitsDecimal(text);
      CliReads(text, precision, atomic);
      var whole, fraction := BeforePoint(text), AfterPoint(text);
      if ParseDecimal(text, precision) == Some(atomic) { ReadsIs(text, whole, fraction, precision, atomic); }
      if w, f :| Reads(text, w, f, precision, atomic) && |w| > 0 && (f == "" ==> text == w) {
        ReadsParts(text, w, f, precision, atomic);
        WholeOnly(text, w, f);
      }
    }
  }

  lemma ParseAmountIs(input: string, precision: nat, atomic: nat)
    requires !("atomic:" <= Trim(input))
    ensures ParseAmount(input, precision) == Some(atomic) <==>
            ParseDecimal(Trim(input), precision) == Some(atomic) && 0 < atomic <= 2_100_000_000_000_000
  {
    hide Trim, ParseDecimal;
  }

  lemma WholeOnly(text: string, whole: string, fraction: string)
    requires IsDecimal(text, whole, fraction) && (fraction == "" ==> text == whole)
    ensures PointAt(text) < |text| ==> fraction != ""
  {
    PointIs(whole, fraction);
  }

  lemma CliReads(text: string, precision: nat, atomic: nat)
    ensures ParseDecimal(text, precision) == Some(atomic) <==>
            var whole, fraction := BeforePoint(text), AfterPoint(text);
            && atomic <= MAX_U64 && AllDigits(whole) && AllDigits(fraction)
            && |whole| > 0 && (PointAt(text) < |text| ==> fraction != "")
            && |fraction| <= precision && atomic == Worth(whole, fraction, precision)
    ensures AfterPoint(text) == "" && !(PointAt(text) < |text|) ==> text == BeforePoint(text)
  {
    var whole, fraction := BeforePoint(text), AfterPoint(text);
    assert !(PointAt(text) < |text|) ==> text[..PointAt(text)] == text;
    if AllDigits(whole) && AllDigits(fraction) && |fraction| <= precision { WorthIs(whole, fraction, precision); }
    hide BeforePoint, AfterPoint, AllDigits, Value, Pow10, ZeroText, Worth, ScaledFraction, PointAt;
  }
}
