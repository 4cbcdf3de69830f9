/** Witness addresses of one network, in the native and the alias spelling. */
module Addresses {
  import opened Common
  import opened Bech32
  import opened AddressCodec
  import opened Text
  import opened XorArithmetic

  /** The four prefixes of a network: plain and blinded, native and alias. */
  datatype Hrps = Hrps(native: string, nativeBlinded: string, alias: string, aliasBlinded: string)

  predicate LowerPrintable(c: char) {
    33 <= c as int <= 126 && !('A' <= c <= 'Z')
  }

  predicate GoodHrp(hrp: string) {
    1 <= |hrp| <= 18 && forall i :: 0 <= i < |hrp| ==> LowerPrintable(hrp[i])
  }

  predicate GoodHrps(k: Hrps) {
    && GoodHrp(k.native) && GoodHrp(k.nativeBlinded) && GoodHrp(k.alias) && GoodHrp(k.aliasBlinded)
    && k.native != k.nativeBlinded && k.native != k.alias && k.native != k.aliasBlinded
    && k.nativeBlinded != k.alias && k.nativeBlinded != k.aliasBlinded && k.alias != k.aliasBlinded
  }

  // ---- Letters ---------------------------------------------------------------------------------

  function Letter(v: Symbol): char {
    match v
    case 0 => 'q' case 1 => 'p' case 2 => 'z' case 3 => 'r' case 4 => 'y' case 5 => '9' case 6 => 'x' case 7 => '8'
    case 8 => 'g' case 9 => 'f' case 10 => '2' case 11 => 't' case 12 => 'v' case 13 => 'd' case 14 => 'w'
    case 15 => '0'
    case 16 => 's' case 17 => '3' case 18 => 'j' case 19 => 'n' case 20 => '5' case 21 => '4' case 22 => 'k'
    case 23 => 'h'
    case 24 => 'c' case 25 => 'e' case 26 => '6' case 27 => 'm' case 28 => 'u' case 29 => 'a' case 30 => '7'
    case _ => 'l'
  }

  function SymbolOf(c: char): Option<Symbol> {
    match c
    case 'q' => Some(0) case 'p' => Some(1) case 'z' => Some(2) case 'r' => Some(3) case 'y' => Some(4)
    case '9' => Some(5)
    case 'x' => Some(6) case '8' => Some(7) case 'g' => Some(8) case 'f' => Some(9) case '2' => Some(10)
    case 't' => Some(11)
    case 'v' => Some(12) case 'd' => Some(13) case 'w' => Some(14) case '0' => Some(15) case 's' => Some(16)
    case '3' => Some(17)
    case 'j' => Some(18) case 'n' => Some(19) case '5' => Some(20) case '4' => Some(21) case 'k' => Some(22)
    case 'h' => Some(23)
    case 'c' => Some(24) case 'e' => Some(25) case '6' => Some(26) case 'm' => Some(27) case 'u' => Some(28)
    case 'a' => Some(29)
    case '7' => Some(30) case 'l' => Some(31) case _ => None
  }

  lemma LetterFacts(v: Symbol)
    ensures SymbolOf(Letter(v)) == Some(v) && Letter(v) != '1' && LowerPrintable(Letter(v))
  {}

  lemma SymbolFacts(c: char)
    ensures SymbolOf(c).Some? ==> Letter(SymbolOf(c).value) == c
  {}

  function Letters(values: seq<Symbol>): string {
    seq(|values|, i requires 0 <= i < |values| => Letter(values[i]))
  }

  function HrpExpand(hrp: string): seq<nat> {
    seq(|hrp|, i requires 0 <= i < |hrp| => ShiftRight(hrp[i] as nat, 5)) + [0]
    + seq(|hrp|, i requires 0 <= i < |hrp| => Low(hrp[i] as nat, 5))
  }

  lemma HrpExpandBelow(hrp: string)
    requires GoodHrp(hrp)
    ensures forall i :: 0 <= i < |HrpExpand(hrp)| ==> HrpExpand(hrp)[i] < 32
  {
    Pow2Values();
    forall i | 0 <= i < |hrp|
      ensures ShiftRight(hrp[i] as nat, 5) < 32 && Low(hrp[i] as nat, 5) < 32
    {
      assert LowerPrintable(hrp[i]);
      LowBelow(hrp[i] as nat, 5);
      ShiftRightValues(hrp[i] as nat);
    }
    hide ShiftRight, Low, Pow2;
  }

  // ---- What a text spells --------------------------------------------------------------------------

  datatype Decoded = Decoded(hrp: string, values: seq<Symbol>, modern: bool, blinded: bool)

  /** Whether a prefix is native, and whether it is for blinded addresses. */
  function PrefixOf(k: Hrps, hrp: string): Option<(bool, bool)> {
    if hrp == k.native then Some((true, false))
    else if hrp == k.alias then Some((false, false))
    else if hrp == k.nativeBlinded then Some((true, true))
    else if hrp == k.aliasBlinded then Some((false, true))
    else None
  }

  function ProfileOf(blinded: bool): Profile {
    if blinded then BLECH32 else BECH32
  }

  function Constant(p: Profile, modern: bool): nat {
    if modern then p.modern else LEGACY
  }

  /** The lower-case text is the prefix, a separator and the symbols, whose checksum verifies. */
  ghost predicate Spells(k: Hrps, text: string, d: Decoded, symbols: seq<Symbol>) {
    var p := ProfileOf(d.blinded);
    && PrefixOf(k, d.hrp).Some? && PrefixOf(k, d.hrp).value.1 == d.blinded
    && text == d.hrp + "1" + Letters(symbols)
    && |text| <= p.maximumLength && p.checksumLength <= |symbols|
    && d.values == symbols[..|symbols| - p.checksumLength]
    && Fold(p, 1, HrpExpand(d.hrp) + symbols) == Constant(p, d.modern)
  }

  function LowerChar(c: char): char {
    if 'A' <= c <= 'Z' then ((c as int) + 32) as char else c
  }

  function Lower(s: string): string {
    seq(|s|, i requires 0 <= i < |s| => LowerChar(s[i]))
  }

  predicate HasLower(s: string) {
    exists i :: 0 <= i < |s| && 'a' <= s[i] <= 'z'
  }

  predicate HasUpper(s: string) {
    exists i :: 0 <= i < |s| && 'A' <= s[i] <= 'Z'
  }

  /** Printable and not of mixed case. */
  predicate Clean(s: string) {
    (forall i :: 0 <= i < |s| ==> 33 <= s[i] as int <= 126) && !(HasLower(s) && HasUpper(s))
  }

  method CheckClean(s: string) returns (ok: bool)
    ensures ok <==> Clean(s)
  {
    var sawLower, sawUpper := false, false;
    for i := 0 to |s|
      invariant forall j :: 0 <= j < i ==> 33 <= s[j] as int <= 126
      invariant sawLower <==> HasLower(s[..i])
      invariant sawUpper <==> HasUpper(s[..i])
    {
      if (s[i] as int) < 33 || s[i] as int > 126 { return false; }
      CaseGrows(s, i);
      if 'a' <= s[i] <= 'z' { sawLower := true; }
      if 'A' <= s[i] <= 'Z' { sawUpper := true; }
    }
    assert s[..|s|] == s;
    ok := !(sawLower && sawUpper);
  }

  lemma CaseGrows(s: string, i: nat)
    requires i < |s|
    ensures HasLower(s[..i + 1]) <==> HasLower(s[..i]) || 'a' <= s[i] <= 'z'
    ensures HasUpper(s[..i + 1]) <==> HasUpper(s[..i]) || 'A' <= s[i] <= 'Z'
  {
    assert s[..i + 1] == s[..i] + [s[i]];
    assert forall j :: 0 <= j < i ==> s[..i + 1][j] == s[..i][j];
    assert s[..i + 1][i] == s[i];
  }

  /** The position of the last separator. */
  method LastSeparator(s: string) returns (at: int)
    ensures at == -1 ==> '1' !in s
    ensures at != -1 ==> 0 <= at < |s| && s[at] == '1' && forall j :: at < j < |s| ==> s[j] != '1'
  {
    at := |s| - 1;
    while at >= 0 && s[at] != '1'
      invariant -1 <= at < |s| && forall j :: at < j < |s| ==> s[j] != '1'
    {
      at := at - 1;
    }
  }

  method ReadSymbols(encoded: string) returns (r: Option<seq<Symbol>>)
    ensures r.Some? ==> Letters(r.value) == encoded
    ensures r.None? ==> forall values: seq<Symbol> :: Letters(values) != encoded
  {
    var values: seq<Symbol> := [];
    hide SymbolOf, Letter;
    for i := 0 to |encoded|
      invariant Letters(values) == encoded[..i]
    {
      var value := SymbolOf(encoded[i]);
      SymbolFacts(encoded[i]);
      if value.None? {
        NoSuchLetter(encoded, i);
        return None;
      }
      values := values + [value.value];
    }
    assert encoded[..|encoded|] == encoded;
    r := Some(values);
  }

  lemma NoSuchLetter(encoded: string, i: nat)
    requires i < |encoded| && SymbolOf(encoded[i]).None?
    ensures forall values: seq<Symbol> :: Letters(values) != encoded
  {
    forall values: seq<Symbol> | Letters(values) == encoded
      ensures false
    {
      assert encoded[i] == Letter(values[i]);
      LetterFacts(values[i]);
    }
  }

  lemma LettersPlain(values: seq<Symbol>)
    ensures forall i :: 0 <= i < |values| ==> Letters(values)[i] != '1' && LowerPrintable(Letters(values)[i])
  {
    forall i | 0 <= i < |values|
      ensures Letters(values)[i] != '1' && LowerPrintable(Letters(values)[i])
    {
      LetterFacts(values[i]);
    }
  }

  lemma LettersInjective(a: seq<Symbol>, b: seq<Symbol>)
    requires Letters(a) == Letters(b)
    ensures a == b
  {
    assert |a| == |Letters(a)| == |Letters(b)| == |b|;
    forall i | 0 <= i < |a|
      ensures a[i] == b[i]
    {
      assert Letters(a)[i] == Letters(b)[i];
      LetterFacts(a[i]);
      LetterFacts(b[i]);
    }
  }

  /** The last separator splits a spelled text in the only possible way. */
  lemma SplitUnique(text: string, hrp: string, symbols: seq<Symbol>, at: int)
    requires text == hrp + "1" + Letters(symbols)
    requires -1 <= at < |text| && (at != -1 ==> text[at] == '1') && forall j :: at < j < |text| ==> text[j] != '1'
    ensures at == |hrp| && text[..at] == hrp && text[at + 1..] == Letters(symbols)
  {
    LettersPlain(symbols);
    assert text[|hrp|] == '1';
    assert forall j :: |hrp| < j < |text| ==> text[j] == Letters(symbols)[j - |hrp| - 1];
    assert text[..|hrp|] == hrp && text[|hrp| + 1..] == Letters(symbols);
  }

  /** A text spells one address at most. */
  lemma SpellsUnique(k: Hrps, text: string, d: Decoded, a: seq<Symbol>, e: Decoded, b: seq<Symbol>)
    requires Spells(k, text, d, a) && Spells(k, text, e, b)
    ensures d == e && a == b
  {
    hide Fold, HrpExpand, Letters;
    var at := LastOne(text);
    SplitUnique(text, d.hrp, a, at);
    SplitUnique(text, e.hrp, b, at);
    LettersInjective(a, b);
    assert BECH32.modern != LEGACY && BLECH32.modern != LEGACY;
  }

  function LastOne(text: string): (at: int)
    ensures -1 <= at < |text| && (at != -1 ==> text[at] == '1') && forall j :: at < j < |text| ==> text[j] != '1'
  {
    if text == [] then -1 else if text[|text| - 1] == '1' then |text| - 1 else LastOne(text[..|text| - 1])
  }

  ghost predicate Spelled(k: Hrps, address: string, d: Decoded) {
    Clean(address) && exists symbols :: Spells(k, Lower(address), d, symbols)
  }

  method DecodeChecksummedAddress(k: Hrps, address: string) returns (r: Option<Decoded>)
    requires GoodHrps(k)
    ensures r.Some? ==> Spelled(k, address, r.value)
    ensures r.None? ==> forall d :: !Spelled(k, address, d)
  {
    if address == "" { return None; }
    var clean := CheckClean(address);
    if !clean { return None; }
    var text := Lower(address);
    var separator := LastSeparator(text);
    if separator <= 0 {
      NoSplit(k, text, separator);
      return None;
    }
    var hrp := text[..separator];
    var prefix := PrefixOf(k, hrp);
    var encoded := text[separator + 1..];
    SplitForced(k, text, separator);
    hide Clean, Lower, HrpExpand, Letters, Fold;
    if prefix.None? { return None; }
    var p := ProfileOf(prefix.value.1);
    if |text| > p.maximumLength || separator + 1 + p.checksumLength > |text| { return None; }
    var symbols := ReadSymbols(encoded);
    if symbols.None? { return None; }
    LettersSize(symbols.value);
    var checksum := Polymod(HrpExpand(hrp) + symbols.value, p);
    SymbolsForced(k, text, separator, symbols.value);
    assert text == hrp + "1" + encoded;
    if checksum != LEGACY && checksum != p.modern { return None; }
    var d := Decoded(hrp, symbols.value[..|symbols.value| - p.checksumLength], checksum != LEGACY, prefix.value.1);
    assert Spells(k, text, d, symbols.value);
    r := Some(d);
  }

  lemma LettersSize(symbols: seq<Symbol>)
    ensures |Letters(symbols)| == |symbols|
  {}

  lemma NoSplit(k: Hrps, text: string, at: int)
    requires GoodHrps(k) && at <= 0 && at < |text|
    requires at == -1 ==> '1' !in text
    requires at != -1 ==> 0 <= at && text[at] == '1' && forall j :: at < j < |text| ==> text[j] != '1'
    ensures forall d, symbols :: !Spells(k, text, d, symbols)
  {
    forall d, symbols | Spells(k, text, d, symbols)
      ensures false
    {
      assert text[|d.hrp|] == '1';
      hide Fold, HrpExpand;
      SplitUnique(text, d.hrp, symbols, at);
    }
  }

  lemma SplitForced(k: Hrps, text: string, at: int)
    requires 0 < at < |text| && text[at] == '1' && forall j :: at < j < |text| ==> text[j] != '1'
    ensures forall d, symbols ::
        Spells(k, text, d, symbols) ==> d.hrp == text[..at] && Letters(symbols) == text[at + 1..]
  {
    forall d, symbols | Spells(k, text, d, symbols)
      ensures d.hrp == text[..at] && Letters(symbols) == text[at + 1..]
    {
      hide Fold, HrpExpand;
      SplitUnique(text, d.hrp, symbols, at);
    }
  }

  lemma SymbolsForced(k: Hrps, text: string, at: int, read: seq<Symbol>)
    requires 0 < at < |text| && text[at] == '1' && (forall j :: at < j < |text| ==> text[j] != '1')
        && Letters(read) == text[at + 1..]
    ensures forall d, symbols :: Spells(k, text, d, symbols) ==> d.hrp == text[..at] && symbols == read
  {
    SplitForced(k, text, at);
    forall d, symbols | Spells(k, text, d, symbols)
      ensures symbols == read
    {
      LettersInjective(symbols, read);
    }
  }

  // ---- Encoding --------------------------------------------------------------------------------------

  function EncodeChecksummedAddress(hrp: string, values: seq<Symbol>, modern: bool, p: Profile): string
    requires |p.generators| == 5
  {
    hrp + "1" + Letters(values + Checksum(p, HrpExpand(hrp) + values, Constant(p, modern)))
  }

  /** An encoded text within the length limit spells what was encoded. */
  lemma EncodeSpells(k: Hrps, hrp: string, values: seq<Symbol>, modern: bool, blinded: bool)
    requires GoodHrps(k) && PrefixOf(k, hrp).Some? && PrefixOf(k, hrp).value.1 == blinded
    requires |hrp| + 1 + |values| + ProfileOf(blinded).checksumLength <= ProfileOf(blinded).maximumLength
    ensures var p := ProfileOf(blinded);
            Spells(k, EncodeChecksummedAddress(hrp, values, modern, p), Decoded(hrp, values, modern, blinded),
                   values + Checksum(p, HrpExpand(hrp) + values, Constant(p, modern)))
  {
    var p, expanded := ProfileOf(blinded), HrpExpand(hrp);
    HrpExpandBelow(hrp);
    KnownFacts(p);
    var check := Checksum(p, expanded + values, Constant(p, modern));
    hide Fold, Checksum, HrpExpand, Pow2;
    LettersSize(values + check);
    ChecksumVerifies(p, expanded + values, Constant(p, modern));
    assert expanded + (values + check) == expanded + values + check;
    assert (values + check)[..|values + check| - p.checksumLength] == values;
  }

  /** Substituting one symbol of a spelled address spoils its checksum. */
  lemma TypoDetected(k: Hrps, text: string, d: Decoded, symbols: seq<Symbol>, at: nat, v: Symbol, other: Decoded)
    requires GoodHrps(k) && Spells(k, text, d, symbols) && at < |symbols| && symbols[at] != v
    requires other.hrp == d.hrp && other.modern == d.modern
    ensures !Spells(k, d.hrp + "1" + Letters(symbols[at := v]), other, symbols[at := v])
  {
    var p, expanded := ProfileOf(d.blinded), HrpExpand(d.hrp);
    HrpExpandBelow(d.hrp);
    hide Fold, HrpExpand, Letters;
    SubstitutionDetected(p, expanded + symbols, |expanded| + at, v);
    assert (expanded + symbols)[|expanded| + at := v] == expanded + symbols[at := v];
  }

  // ---- Resolving -----------------------------------------------------------------------------------------

  datatype EcxAddress = EcxAddress(
    confidential: bool, native: bool, witnessVersion: nat, programLength: nat, canonical: string, alias: string)

  /** The five-bit groups after the version regroup into bytes: less than a group of zero bits is left. */
  predicate PaddingOk(groups: seq<Symbol>) {
    var left := (|groups| * 5) % 8;
    left < 5 && Low(Number(groups, 5), left) == 0
  }

  function ProgramLength(groups: seq<Symbol>, blinded: bool): int {
    |groups| * 5 / 8 - (if blinded then 33 else 0)
  }

  /** What an address must carry besides a checksum that verifies. */
  predicate PayloadOk(d: Decoded) {
    && d.values != [] && d.values[0] <= 16 && (d.modern <==> d.values[0] != 0)
    && PaddingOk(d.values[1..])
    && var length := ProgramLength(d.values[1..], d.blinded);
       2 <= length <= 40 && (d.values[0] == 0 ==> length == 20 || length == 32)
  }

  function AddressOf(k: Hrps, d: Decoded, native: bool): EcxAddress
    requires d.values != []
  {
    var p := ProfileOf(d.blinded);
    var length := ProgramLength(d.values[1..], d.blinded);
    EcxAddress(
      d.blinded, native, d.values[0], if length < 0 then 0 else length,
      EncodeChecksummedAddress(if d.blinded then k.nativeBlinded else k.native, d.values, d.modern, p),
      EncodeChecksummedAddress(if d.blinded then k.aliasBlinded else k.alias, d.values, d.modern, p))
  }

  /** The address text stands for `a`. */
  ghost predicate Resolves(k: Hrps, address: string, a: EcxAddress) {
    exists d :: ResolvesTo(k, address, d, a)
  }

  ghost predicate ResolvesTo(k: Hrps, address: string, d: Decoded, a: EcxAddress) {
    && Spelled(k, Trim(address), d) && PayloadOk(d) && PrefixOf(k, d.hrp).Some?
    && a == AddressOf(k, d, PrefixOf(k, d.hrp).value.0)
  }

  lemma GroupedSymbols(groups: seq<Symbol>)
    ensures Grouped(groups, 5)
  {
    Pow2Values();
    hide Pow2;
  }

  method ResolveEcxAddress(k: Hrps, address: string) returns (r: Option<EcxAddress>)
    requires GoodHrps(k)
    ensures r.Some? ==> Resolves(k, address, r.value)
    ensures r.None? ==> forall a :: !Resolves(k, address, a)
  {
    var decoded := DecodeChecksummedAddress(k, Trim(address));
    if decoded.None? { return None; }
    var d := decoded.value;
    OnlyThis(k, address, d);
    hide Trim, Spelled, Fold, Number, EncodeChecksummedAddress, PaddingOk;
    var prefix := PrefixOf(k, d.hrp);
    SpelledPrefix(k, Trim(address), d);
    if d.values == [] || d.values[0] > 16 { return None; }
    if d.values[0] == 0 && d.modern { return None; }
    if d.values[0] != 0 && !d.modern { return None; }
    var groups: seq<Symbol> := d.values[1..];
    GroupedSymbols(groups);
    PaddingIs(groups);
    var bytes := ConvertBits(groups, 5, 8, false);
    if bytes.None? { return None; }
    assert |bytes.value| == |groups| * 5 / 8;
    if prefix.value.1 && |bytes.value| < 35 { return None; }
    var program := if prefix.value.1 then bytes.value[33..] else bytes.value;
    if |program| < 2 || |program| > 40 { return None; }
    if d.values[0] == 0 && |program| != 20 && |program| != 32 { return None; }
    var a := AddressOf(k, d, prefix.value.0);
    assert ResolvesTo(k, address, d, a);
    r := Some(a);
  }

  lemma PaddingIs(groups: seq<Symbol>)
    ensures PaddingOk(groups) <==> (var left := (|groups| * 5) % 8; left < 5 && Low(Number(groups, 5), left) == 0)
  {}

  lemma SpelledPrefix(k: Hrps, address: string, d: Decoded)
    requires Spelled(k, address, d)
    ensures PrefixOf(k, d.hrp).Some? && PrefixOf(k, d.hrp).value.1 == d.blinded
  {
    var symbols :| Spells(k, Lower(address), d, symbols);
    hide Fold;
  }

  lemma SpelledUnique(k: Hrps, address: string, d: Decoded, e: Decoded)
    requires Spelled(k, address, d) && Spelled(k, address, e)
    ensures d == e
  {
    var a :| Spells(k, Lower(address), d, a);
    var b :| Spells(k, Lower(address), e, b);
    hide Spells;
    SpellsUnique(k, Lower(address), d, a, e, b);
  }

  lemma OnlyThis(k: Hrps, address: string, d: Decoded)
    requires Spelled(k, Trim(address), d)
    ensures forall e, a :: ResolvesTo(k, address, e, a) ==> e == d
  {
    forall e, a | ResolvesTo(k, address, e, a)
      ensures e == d
    {
      SpelledUnique(k, Trim(address), d, e);
    }
  }

  // ---- Both spellings are accepted again -------------------------------------------------------------------

  /** An encoded text needs no trimming and no lower-casing. */
  lemma EncodedIsPlain(k: Hrps, hrp: string, values: seq<Symbol>, modern: bool, p: Profile)
    requires GoodHrp(hrp) && |p.generators| == 5
    ensures var text := EncodeChecksummedAddress(hrp, values, modern, p);
            Trim(text) == text && Lower(text) == text && Clean(text)
  {
    var all := values + Checksum(p, HrpExpand(hrp) + values, Constant(p, modern));
    var text := hrp + "1" + Letters(all);
    LettersPlain(all);
    forall i | 0 <= i < |text|
      ensures LowerPrintable(text[i])
    {
      if i > |hrp| { assert text[i] == Letters(all)[i - |hrp| - 1]; }
    }
    hide Letters, Checksum, HrpExpand;
    PlainText(text);
  }

  lemma PlainText(text: string)
    requires text != [] && forall i :: 0 <= i < |text| ==> LowerPrintable(text[i])
    ensures Trim(text) == text && Lower(text) == text && Clean(text)
  {
    assert LowerPrintable(text[0]) && LowerPrintable(text[|text| - 1]);
    assert TrimStart(text) == text && TrimEnd(text) == text;
    assert !HasUpper(text);
  }

  /** A payload of at most 40 program bytes fits either length limit. */
  lemma PayloadFits(d: Decoded, hrp: string)
    requires PayloadOk(d) && |hrp| <= 18
    ensures |hrp| + 1 + |d.values| + ProfileOf(d.blinded).checksumLength <= ProfileOf(d.blinded).maximumLength
  {
    hide Number, Low;
    var n := |d.values| - 1;
    assert |d.values[1..]| == n && (n * 5) % 8 < 5;
  }

  lemma PrefixGood(k: Hrps, hrp: string)
    requires GoodHrps(k) && PrefixOf(k, hrp).Some?
    ensures GoodHrp(hrp) && |hrp| <= 18
  {}

  lemma Respelled(k: Hrps, d: Decoded, hrp: string, native: bool)
    requires GoodHrps(k) && PayloadOk(d) && PrefixOf(k, hrp) == Some((native, d.blinded))
    ensures var text := EncodeChecksummedAddress(hrp, d.values, d.modern, ProfileOf(d.blinded));
            ResolvesTo(k, text, d.(hrp := hrp), AddressOf(k, d, native))
  {
    var p := ProfileOf(d.blinded);
    var text, e := EncodeChecksummedAddress(hrp, d.values, d.modern, p), d.(hrp := hrp);
    PrefixGood(k, hrp);
    hide Spells, EncodeChecksummedAddress, PayloadOk, Trim, Lower, Clean, GoodHrps, GoodHrp, Checksum, HrpExpand;
    PayloadFits(d, hrp);
    EncodeSpells(k, hrp, d.values, d.modern, d.blinded);
    EncodedIsPlain(k, hrp, d.values, d.modern, p);
    assert Spelled(k, Trim(text), e);
    assert ResolvesTo(k, text, e, AddressOf(k, d, native));
  }

  /** The three texts carry the same version, program and blinding key. */
  ghost predicate SamePayload(k: Hrps, address: string, a: EcxAddress) {
    exists d, e, g ::
      && ResolvesTo(k, address, d, a) && ResolvesTo(k, a.canonical, e, a.(native := true))
      && ResolvesTo(k, a.alias, g, a.(native := false))
      && d.values == e.values == g.values && d.modern == e.modern == g.modern && d.blinded == e.blinded == g.blinded
  }

  /** Every accepted address resolves, in both its spellings, to the same address: same version, program,
      confidentiality and spellings; so the canonical spelling is a fixed point. */
  lemma SpellingsResolve(k: Hrps, address: string, a: EcxAddress)
    requires GoodHrps(k) && Resolves(k, address, a)
    ensures Resolves(k, a.canonical, a.(native := true)) && Resolves(k, a.alias, a.(native := false))
    ensures SamePayload(k, address, a)
  {
    var d :| ResolvesTo(k, address, d, a);
    ResolvedParts(k, address, d, a);
    hide *;
    var native, alias := if d.blinded then k.nativeBlinded else k.native, if d.blinded then k.aliasBlinded else k.alias;
    Prefixes(k, d.blinded);
    SpellingsAre(k, d, PrefixOf(k, d.hrp).value.0);
    Respelled(k, d, native, true);
    Respelled(k, d, alias, false);
    SamePayloadIs(k, address, a, d, d.(hrp := native), d.(hrp := alias));
  }

  lemma ResolvedParts(k: Hrps, address: string, d: Decoded, a: EcxAddress)
    requires ResolvesTo(k, address, d, a)
    ensures PayloadOk(d) && PrefixOf(k, d.hrp).Some? && a == AddressOf(k, d, PrefixOf(k, d.hrp).value.0)
  {
    hide Spelled, PayloadOk, AddressOf;
  }

  lemma SamePayloadIs(k: Hrps, address: string, a: EcxAddress, d: Decoded, e: Decoded, g: Decoded)
    requires ResolvesTo(k, address, d, a) && ResolvesTo(k, a.canonical, e, a.(native := true))
    requires ResolvesTo(k, a.alias, g, a.(native := false))
    requires d.values == e.values == g.values && d.modern == e.modern == g.modern && d.blinded == e.blinded == g.blinded
    ensures SamePayload(k, address, a)
    ensures Resolves(k, a.canonical, a.(native := true)) && Resolves(k, a.alias, a.(native := false))
  {
    hide ResolvesTo;
  }

  lemma Prefixes(k: Hrps, blinded: bool)
    requires GoodHrps(k)
    ensures PrefixOf(k, if blinded then k.nativeBlinded else k.native) == Some((true, blinded))
    ensures PrefixOf(k, if blinded then k.aliasBlinded else k.alias) == Some((false, blinded))
  {}

  lemma SpellingsAre(k: Hrps, d: Decoded, native: bool)
    requires PayloadOk(d)
    ensures var a, p := AddressOf(k, d, native), ProfileOf(d.blinded);
            && a.(native := true) == AddressOf(k, d, true) && a.(native := false) == AddressOf(k, d, false)
            && a.canonical == EncodeChecksummedAddress(if d.blinded then k.nativeBlinded else k.native, d.values,
                   d.modern, p)
            && a.alias == EncodeChecksummedAddress(if d.blinded then k.aliasBlinded else k.alias, d.values, d.modern, p)
  {
    hide EncodeChecksummedAddress;
  }

  /** An address text stands for one address at most. */
  lemma ResolvesUnique(k: Hrps, address: string, a: EcxAddress, b: EcxAddress)
    requires Resolves(k, address, a) && Resolves(k, address, b)
    ensures a == b
  {
    var d :| ResolvesTo(k, address, d, a);
    var e :| ResolvesTo(k, address, e, b);
    OnlyThis(k, address, d);
    hide Spelled, EncodeChecksummedAddress, PaddingOk, PayloadOk, Trim;
  }

  /** The prefixes of the two compiled networks are usable. */
  lemma NetworksUsable()
    ensures GoodHrps(Hrps("elements", "elementsl", "ert", "el")) && GoodHrps(Hrps("ert", "el", "elements", "elementsl"))
  {
    assert |"elements"| == 8 && |"elementsl"| == 9 && |"ert"| == 3 && |"el"| == 2;
  }

  // ---- What resolving means -------------------------------------------------------------------------------

  /** The prefix as it enters the checksum: the high bits of its letters, a zero, their low five bits. */
  lemma HrpExpandIs(hrp: string)
    ensures |HrpExpand(hrp)| == 2 * |hrp| + 1 && HrpExpand(hrp)[|hrp|] == 0
    ensures forall i :: 0 <= i < |hrp| ==>
              HrpExpand(hrp)[i] == hrp[i] as nat / 32 && HrpExpand(hrp)[|hrp| + 1 + i] == hrp[i] as nat % 32
  {
    forall i | 0 <= i < |hrp|
      ensures ShiftRight(hrp[i] as nat, 5) == hrp[i] as nat / 32 && Low(hrp[i] as nat, 5) == hrp[i] as nat % 32
    {
      HalfLetter(hrp[i] as nat);
    }
    hide ShiftRight, Low;
  }

  lemma HalfLetter(n: nat)
    ensures ShiftRight(n, 5) == n / 32 && Low(n, 5) == n % 32
  {
    ShiftRightValues(n);
    ShiftLeftValues(n / 32);
    LowAndRest(n, 5);
    LowBelow(n, 5);
    Pow2Values();
    hide ShiftRight, Low, ShiftLeft, Pow2;
  }

  /** Two prefixes never enter the checksum alike. */
  lemma HrpExpandInjective(a: string, b: string)
    requires HrpExpand(a) == HrpExpand(b)
    ensures a == b
  {
    HrpExpandIs(a);
    HrpExpandIs(b);
    hide HrpExpand;
    forall i | 0 <= i < |a|
      ensures a[i] == b[i]
    {
      assert HrpExpand(a)[i] == HrpExpand(b)[i] && HrpExpand(a)[|a| + 1 + i] == HrpExpand(b)[|a| + 1 + i];
      assert a[i] as nat == 32 * (a[i] as nat / 32) + a[i] as nat % 32;
      assert b[i] as nat == 32 * (b[i] as nat / 32) + b[i] as nat % 32;
    }
  }

  /** How many symbols of a text are its checksum. */
  function CheckLength(blinded: bool): nat {
    if blinded then 12 else 6
  }

  /** Five bits of every symbol between the version and the checksum. */
  function DataBits(symbols: seq<Symbol>, blinded: bool): int {
    5 * (|symbols| - 1 - CheckLength(blinded))
  }

  /** The symbols carry a witness program: version 0 with the older checksum constant and 20 or 32 bytes, or version 1
      to 16 with the newer one and 2 to 40 bytes; after a blinding key of 33 bytes in a blinded address; and at most
      four bits over, all zero. */
  ghost predicate CarriesProgram(hrp: string, symbols: seq<Symbol>, blinded: bool) {
    && |symbols| > CheckLength(blinded) && symbols[0] <= 16
    && Fold(if blinded then BLECH32 else BECH32, 1, HrpExpand(hrp) + symbols)
       == (if symbols[0] == 0 then 1 else if blinded then 0x455972a3350f7a1 else 0x2bc830a3)
    && (var bytes := DataBits(symbols, blinded) / 8 - (if blinded then 33 else 0);
        2 <= bytes <= 40 && (symbols[0] == 0 ==> bytes == 20 || bytes == 32))
    && (var over := DataBits(symbols, blinded) % 8;
        over < 5 && Low(Number(symbols[1..|symbols| - CheckLength(blinded)], 5), over) == 0)
  }

  /** The text is a prefix, a separator and such symbols, within the length limit. */
  ghost predicate IsAddress(text: string, hrp: string, symbols: seq<Symbol>, blinded: bool) {
    && text == hrp + "1" + Letters(symbols) && |text| <= (if blinded then 1_000 else 90)
    && CarriesProgram(hrp, symbols, blinded)
  }

  /** Printable characters only, and not letters of both cases. */
  ghost predicate OneCase(text: string) {
    && (forall i :: 0 <= i < |text| ==> ' ' < text[i] < '\U{7f}')
    && !(exists i, j :: 0 <= i < |text| && 0 <= j < |text| && 'a' <= text[i] <= 'z' && 'A' <= text[j] <= 'Z')
  }

  ghost predicate AddressUnder(k: Hrps, address: string, hrp: string, symbols: seq<Symbol>) {
    && OneCase(Trim(address)) && hrp in {k.native, k.nativeBlinded, k.alias, k.aliasBlinded}
    && IsAddress(Lower(Trim(address)), hrp, symbols, hrp == k.nativeBlinded || hrp == k.aliasBlinded)
  }

  lemma CleanIs(text: string)
    ensures Clean(text) <==> OneCase(text)
  {
    if HasLower(text) && HasUpper(text) {
      var i :| 0 <= i < |text| && 'a' <= text[i] <= 'z';
      var j :| 0 <= j < |text| && 'A' <= text[j] <= 'Z';
    }
  }

  /** The alphabet of BIP-173. */
  lemma LettersAre(v: Symbol)
    ensures Letter(v) == "qpzry9x8gf2tvdw0s3jn54khce6mua7l"[v]
  {}

  lemma PayloadIs(d: Decoded, symbols: seq<Symbol>)
    requires |symbols| >= CheckLength(d.blinded) && d.values == symbols[..|symbols| - CheckLength(d.blinded)]
    ensures PayloadOk(d) <==>
            && |symbols| > CheckLength(d.blinded) && symbols[0] <= 16 && (d.modern <==> symbols[0] != 0)
            && (var bytes := DataBits(symbols, d.blinded) / 8 - (if d.blinded then 33 else 0);
                2 <= bytes <= 40 && (symbols[0] == 0 ==> bytes == 20 || bytes == 32))
            && (var over := DataBits(symbols, d.blinded) % 8;
                over < 5 && Low(Number(symbols[1..|symbols| - CheckLength(d.blinded)], 5), over) == 0)
  {
    hide Low, Number;
    if d.values != [] {
      assert d.values[1..] == symbols[1..|symbols| - CheckLength(d.blinded)];
    }
  }

  lemma PrefixIs(k: Hrps, hrp: string)
    requires GoodHrps(k)
    ensures PrefixOf(k, hrp).Some? <==> hrp in {k.native, k.nativeBlinded, k.alias, k.aliasBlinded}
    ensures PrefixOf(k, hrp).Some? ==>
              && (PrefixOf(k, hrp).value.0 <==> hrp == k.native || hrp == k.nativeBlinded)
              && (PrefixOf(k, hrp).value.1 <==> hrp == k.nativeBlinded || hrp == k.aliasBlinded)
  {}

  /** The decoded address of such symbols. */
  function DecodedAs(hrp: string, symbols: seq<Symbol>, blinded: bool): Decoded
    requires |symbols| > CheckLength(blinded)
  {
    Decoded(hrp, symbols[..|symbols| - CheckLength(blinded)], symbols[0] != 0, blinded)
  }

  lemma SpelledIs(k: Hrps, text: string, d: Decoded, symbols: seq<Symbol>)
    requires Spells(k, text, d, symbols) && PayloadOk(d)
    ensures IsAddress(text, d.hrp, symbols, d.blinded) && d == DecodedAs(d.hrp, symbols, d.blinded)
    ensures PrefixOf(k, d.hrp).Some? && PrefixOf(k, d.hrp).value.1 == d.blinded
  {
    PayloadIs(d, symbols);
    hide Letters, Fold, HrpExpand, Number, Low, PayloadOk, PrefixOf;
  }

  lemma IsSpelled(k: Hrps, text: string, hrp: string, symbols: seq<Symbol>, blinded: bool)
    requires IsAddress(text, hrp, symbols, blinded)
    requires PrefixOf(k, hrp).Some? && PrefixOf(k, hrp).value.1 == blinded
    ensures var d := DecodedAs(hrp, symbols, blinded);
            Spells(k, text, d, symbols) && PayloadOk(d)
  {
    PayloadIs(DecodedAs(hrp, symbols, blinded), symbols);
    hide Letters, Fold, HrpExpand, Number, Low, PayloadOk, PrefixOf;
  }

  lemma UnderIs(k: Hrps, address: string, hrp: string, symbols: seq<Symbol>)
    requires GoodHrps(k)
    ensures AddressUnder(k, address, hrp, symbols) <==>
            && Clean(Trim(address)) && PrefixOf(k, hrp).Some?
            && IsAddress(Lower(Trim(address)), hrp, symbols, PrefixOf(k, hrp).value.1)
  {
    PrefixIs(k, hrp);
    CleanIs(Trim(address));
    hide Trim, Lower, Clean, OneCase, IsAddress, GoodHrps, PrefixOf;
  }

  lemma ResolvedFrom(k: Hrps, address: string, a: EcxAddress) returns (d: Decoded, symbols: seq<Symbol>)
    requires Resolves(k, address, a)
    ensures ResolvesTo(k, address, d, a) && PayloadOk(d) && Clean(Trim(address))
    ensures Spells(k, Lower(Trim(address)), d, symbols)
  {
    var e :| ResolvesTo(k, address, e, a);
    var s :| Spells(k, Lower(Trim(address)), e, s);
    d, symbols := e, s;
    hide Spells, PayloadOk, Clean, Trim, Lower, AddressOf;
  }

  /** What the resolved address shows of a decoded one. */
  lemma ShownOf(k: Hrps, d: Decoded, symbols: seq<Symbol>, native: bool)
    requires |symbols| > CheckLength(d.blinded) && d == DecodedAs(d.hrp, symbols, d.blinded) && PayloadOk(d)
    ensures var a := AddressOf(k, d, native);
            && a.confidential == d.blinded && a.native == native && a.witnessVersion == symbols[0]
            && a.programLength == DataBits(symbols, d.blinded) / 8 - (if d.blinded then 33 else 0)
  {
    PayloadIs(d, symbols);
    hide EncodeChecksummedAddress, Number, Low, PayloadOk;
  }

  /** What is resolved is an address in these terms, and shows its version, size, kind and prefix. */
  lemma ResolvedIs(k: Hrps, address: string, a: EcxAddress) returns (hrp: string, symbols: seq<Symbol>)
    requires GoodHrps(k) && Resolves(k, address, a)
    ensures AddressUnder(k, address, hrp, symbols)
    ensures a.confidential <==> hrp == k.nativeBlinded || hrp == k.aliasBlinded
    ensures a.native <==> hrp == k.native || hrp == k.nativeBlinded
    ensures |symbols| > CheckLength(a.confidential) && a.witnessVersion == symbols[0]
    ensures a.programLength == DataBits(symbols, a.confidential) / 8 - (if a.confidential then 33 else 0)
  {
    hide *;
    var d, s := ResolvedFrom(k, address, a);
    hrp, symbols := d.hrp, s;
    SpelledIs(k, Lower(Trim(address)), d, symbols);
    AddressParts(Lower(Trim(address)), d.hrp, symbols, d.blinded);
    UnderIs(k, address, hrp, symbols);
    PrefixIs(k, hrp);
    ResolvedParts(k, address, d, a);
    ShownOf(k, d, symbols, PrefixOf(k, hrp).value.0);
  }

  lemma AddressParts(text: string, hrp: string, symbols: seq<Symbol>, blinded: bool)
    requires IsAddress(text, hrp, symbols, blinded)
    ensures |symbols| > CheckLength(blinded)
  {
    hide Letters, Fold, HrpExpand, Number, Low;
  }

  /** Every address in these terms resolves. */
  lemma AddressResolves(k: Hrps, address: string, hrp: string, symbols: seq<Symbol>)
    requires GoodHrps(k) && AddressUnder(k, address, hrp, symbols)
    ensures exists a :: Resolves(k, address, a)
  {
    hide *;
    UnderIs(k, address, hrp, symbols);
    var blinded := PrefixOf(k, hrp).value.1;
    AddressParts(Lower(Trim(address)), hrp, symbols, blinded);
    IsSpelled(k, Lower(Trim(address)), hrp, symbols, blinded);
    SpelledResolves(k, address, DecodedAs(hrp, symbols, blinded), symbols);
  }

  lemma SpelledResolves(k: Hrps, address: string, d: Decoded, symbols: seq<Symbol>)
    requires Clean(Trim(address)) && Spells(k, Lower(Trim(address)), d, symbols) && PayloadOk(d)
    ensures exists a :: Resolves(k, address, a)
  {
    assert PrefixOf(k, d.hrp).Some? by {
      hide Fold, Letters, HrpExpand;
    }
    assert d.values != [] by {
      hide PaddingOk;
    }
    hide Trim, Lower, Clean, Spells, PayloadOk, AddressOf;
    assert ResolvesTo(k, address, d, AddressOf(k, d, PrefixOf(k, d.hrp).value.0));
    assert Resolves(k, address, AddressOf(k, d, PrefixOf(k, d.hrp).value.0));
  }

  /** An address resolves exactly when, trimmed and in lower case, it is a known prefix, a separator and symbols that
      carry a witness program under a checksum that verifies. */
  lemma ResolvesExactly(k: Hrps, address: string)
    requires GoodHrps(k)
    ensures (exists a :: Resolves(k, address, a)) <==> exists hrp, symbols :: AddressUnder(k, address, hrp, symbols)
  {
    hide *;
    if a :| Resolves(k, address, a) {
      var hrp, symbols := ResolvedIs(k, address, a);
    }
    if hrp, symbols :| AddressUnder(k, address, hrp, symbols) {
      AddressResolves(k, address, hrp, symbols);
    }
  }

  /** The two spellings of a resolved address: its symbols again, but for the checksum, under the native and under the
      alias prefix of its kind. */
  lemma SpellingsShow(k: Hrps, address: string, a: EcxAddress)
    returns (hrp: string, symbols: seq<Symbol>, native: seq<Symbol>, alias: seq<Symbol>)
    requires GoodHrps(k) && Resolves(k, address, a)
    ensures AddressUnder(k, address, hrp, symbols)
    ensures var n := |symbols| - CheckLength(a.confidential);
            && n > 0 && |native| == |alias| == CheckLength(a.confidential)
            && a.canonical == (if a.confidential then k.nativeBlinded else k.native) + "1"
                              + Letters(symbols[..n] + native)
            && a.alias == (if a.confidential then k.aliasBlinded else k.alias) + "1" + Letters(symbols[..n] + alias)
  {
    hide *;
    var d, s := ResolvedFrom(k, address, a);
    hrp, symbols := d.hrp, s;
    SpelledIs(k, Lower(Trim(address)), d, symbols);
    AddressParts(Lower(Trim(address)), d.hrp, symbols, d.blinded);
    UnderIs(k, address, hrp, symbols);
    ResolvedParts(k, address, d, a);
    native, alias := SpelledOut(k, d, symbols, PrefixOf(k, hrp).value.0);
  }

  lemma SpelledOut(k: Hrps, d: Decoded, symbols: seq<Symbol>, isNative: bool)
    returns (native: seq<Symbol>, alias: seq<Symbol>)
    requires |symbols| > CheckLength(d.blinded) && d == DecodedAs(d.hrp, symbols, d.blinded)
    ensures var a, n := AddressOf(k, d, isNative), |symbols| - CheckLength(d.blinded);
            && a.confidential == d.blinded && |native| == |alias| == CheckLength(d.blinded)
            && a.canonical == (if d.blinded then k.nativeBlinded else k.native) + "1" + Letters(symbols[..n] + native)
            && a.alias == (if d.blinded then k.aliasBlinded else k.alias) + "1" + Letters(symbols[..n] + alias)
  {
    var p := ProfileOf(d.blinded);
    native := Checksum(p, HrpExpand(if d.blinded then k.nativeBlinded else k.native) + d.values, Constant(p, d.modern));
    alias := Checksum(p, HrpExpand(if d.blinded then k.aliasBlinded else k.alias) + d.values, Constant(p, d.modern));
    hide Letters, HrpExpand, Checksum;
  }
}
