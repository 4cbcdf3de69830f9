/** The bech32 and blech32 checksums (BIP-173, BIP-350): linear, and injective step by step. */
module Bech32 {
  import opened Common
  import opened XorArithmetic

  /** Five generators; the state is `shift + 5` bits wide. */
  datatype Profile = Profile(checksumLength: nat, maximumLength: nat, shift: nat, modern: nat, generators: seq<nat>)

  const BECH32 := Profile(6, 90, 25, 0x2bc830a3, [0x3b6a57b2, 0x26508e6d, 0x1ea119fa, 0x3d4233dd, 0x2a1462b3])

  const BLECH32 :=
    Profile(12, 1000, 55, 0x455972a3350f7a1,
        [0x7d52fba40bd886, 0x5e8dbf1a03950c, 0x1c3a3c74072a18, 0x385d72fa0e5139, 0x7093e5a608865b])

  const LEGACY: nat := 1

  type Symbol = n: nat | n < 32

  predicate Known(p: Profile) {
    p == BECH32 || p == BLECH32
  }

  // ---- One step ----------------------------------------------------------------------------------

  /** The exclusive or of the generators picked by the low `n` bits of `high`. */
  function Mix(generators: seq<nat>, high: nat, n: nat): nat
    requires n <= |generators|
  {
    if n == 0 then 0 else Xor(Mix(generators, high, n - 1), if BitOf(high, n - 1) then generators[n - 1] else 0)
  }

  function Step(p: Profile, state: nat, v: nat): nat
    requires |p.generators| == 5
  {
    Xor(Xor(ShiftLeft(Low(state, p.shift), 5), v), Mix(p.generators, ShiftRight(state, p.shift), 5))
  }

  function Fold(p: Profile, state: nat, values: seq<nat>): nat
    requires |p.generators| == 5
  {
    if values == [] then state else Step(p, Fold(p, state, values[..|values| - 1]), values[|values| - 1])
  }

  /** The checksum loop over any values. */
  method Polymod(values: seq<nat>, p: Profile) returns (checksum: nat)
    requires |p.generators| == 5
    ensures checksum == Fold(p, 1, values)
  {
    checksum := 1;
    for i := 0 to |values|
      invariant checksum == Fold(p, 1, values[..i])
    {
      assert values[..i + 1][..i] == values[..i];
      var high := ShiftRight(checksum, p.shift);
      ghost var base := Xor(ShiftLeft(Low(checksum, p.shift), 5), values[i]);
      checksum := Xor(ShiftLeft(Low(checksum, p.shift), 5), values[i]);
      hide Xor, ShiftLeft, ShiftRight, Low, Fold;
      for index := 0 to |p.generators|
        invariant checksum == Xor(base, Mix(p.generators, high, index))
      {
        XorZero(base);
        XorAssoc(base, Mix(p.generators, high, index), p.generators[index]);
        XorZero(Mix(p.generators, high, index));
        if BitOf(high, index) {
          checksum := Xor(checksum, p.generators[index]);
        }
      }
    }
    assert values[..|values|] == values;
  }

  // ---- Linearity -------------------------------------------------------------------------------------

  lemma {:induction false} MixLinear(generators: seq<nat>, a: nat, b: nat, n: nat)
    requires n <= |generators|
    ensures Mix(generators, Xor(a, b), n) == Xor(Mix(generators, a, n), Mix(generators, b, n))
  {
    if n == 0 {
      XorZero(0);
    } else {
      MixLinear(generators, a, b, n - 1);
      BitOfXor(a, b, n - 1);
      var g := generators[n - 1];
      var x, y := if BitOf(a, n - 1) then g else 0, if BitOf(b, n - 1) then g else 0;
      XorExchange(Mix(generators, a, n - 1), x, Mix(generators, b, n - 1), y);
      XorZero(g);
      XorSelf(g);
      hide Xor, BitOf;
    }
  }

  lemma StepLinear(p: Profile, c: nat, d: nat, v: nat, w: nat)
    requires |p.generators| == 5
    ensures Step(p, Xor(c, d), Xor(v, w)) == Xor(Step(p, c, v), Step(p, d, w))
  {
    hide Xor, ShiftLeft, ShiftRight, Low, Mix;
    var lc, ld := ShiftLeft(Low(c, p.shift), 5), ShiftLeft(Low(d, p.shift), 5);
    var mc, md := Mix(p.generators, ShiftRight(c, p.shift), 5), Mix(p.generators, ShiftRight(d, p.shift), 5);
    LowXor(c, d, p.shift);
    ShiftLeftXor(Low(c, p.shift), Low(d, p.shift), 5);
    ShiftRightXor(c, d, p.shift);
    MixLinear(p.generators, ShiftRight(c, p.shift), ShiftRight(d, p.shift), 5);
    XorExchange(lc, ld, v, w);
    XorExchange(Xor(lc, v), Xor(ld, w), mc, md);
  }

  function XorAll(a: seq<nat>, b: seq<nat>): seq<nat>
    requires |a| == |b|
  {
    seq(|a|, i requires 0 <= i < |a| => Xor(a[i], b[i]))
  }

  /** The checksum is linear: states and values combine by exclusive or. */
  lemma {:induction false} FoldLinear(p: Profile, c: nat, d: nat, a: seq<nat>, b: seq<nat>)
    requires |p.generators| == 5 && |a| == |b|
    ensures Fold(p, Xor(c, d), XorAll(a, b)) == Xor(Fold(p, c, a), Fold(p, d, b))
  {
    if a != [] {
      var n := |a| - 1;
      FoldLinear(p, c, d, a[..n], b[..n]);
      assert XorAll(a, b)[..n] == XorAll(a[..n], b[..n]);
      hide Step, Xor;
      StepLinear(p, Fold(p, c, a[..n]), Fold(p, d, b[..n]), a[n], b[n]);
    }
  }

  lemma {:induction false} FoldAppend(p: Profile, state: nat, a: seq<nat>, b: seq<nat>)
    requires |p.generators| == 5
    ensures Fold(p, state, a + b) == Fold(p, Fold(p, state, a), b)
  {
    if b == [] {
      assert a + b == a;
    } else {
      FoldAppend(p, state, a, b[..|b| - 1]);
      assert (a + b)[..|a + b| - 1] == a + b[..|b| - 1];
      hide Step;
    }
  }

  // ---- Bounds and injectivity ------------------------------------------------------------------------

  lemma KnownFacts(p: Profile)
    requires Known(p)
    ensures |p.generators| == 5 && forall i :: 0 <= i < 5 ==> p.generators[i] < Pow2(p.shift + 5)
    ensures p.modern < Pow2(p.shift + 5) && 5 * p.checksumLength == p.shift + 5 && p.shift >= 5
        && LEGACY < Pow2(p.shift + 5)
  {
    Pow2Big();
  }

  lemma Pow2Big()
    ensures Pow2(30) == 0x4000_0000 && Pow2(60) == 0x1000_0000_0000_0000
  {
    assert ShiftLeft(1, 15) == 0x8000;
    assert ShiftLeft(1, 30) == 0x8000 * ShiftLeft(1, 15) by { ShiftSum(15, 15); }
    assert ShiftLeft(1, 45) == 0x8000 * ShiftLeft(1, 30) by { ShiftSum(30, 15); }
    assert ShiftLeft(1, 60) == 0x8000 * ShiftLeft(1, 45) by { ShiftSum(45, 15); }
  }

  lemma ShiftFive(k: nat)
    ensures ShiftLeft(1, k + 5) == 32 * ShiftLeft(1, k)
  {
    assert ShiftLeft(1, k + 1) == 2 * ShiftLeft(1, k);
    assert ShiftLeft(1, k + 2) == 2 * ShiftLeft(1, k + 1);
    assert ShiftLeft(1, k + 3) == 2 * ShiftLeft(1, k + 2);
    assert ShiftLeft(1, k + 4) == 2 * ShiftLeft(1, k + 3);
    assert ShiftLeft(1, k + 5) == 2 * ShiftLeft(1, k + 4);
  }

  lemma ShiftSum(k: nat, n: nat)
    requires n == 15
    ensures ShiftLeft(1, k + n) == 0x8000 * ShiftLeft(1, k)
  {
    ShiftFive(k);
    ShiftFive(k + 5);
    ShiftFive(k + 10);
    hide ShiftLeft;
  }

  lemma {:induction false} MixBelow(generators: seq<nat>, high: nat, n: nat, k: nat)
    requires n <= |generators| && forall i :: 0 <= i < |generators| ==> generators[i] < Pow2(k)
    ensures Mix(generators, high, n) < Pow2(k)
  {
    PowPositive(k);
    if n > 0 {
      MixBelow(generators, high, n - 1, k);
      hide Pow2, Xor, BitOf;
      XorBound(Mix(generators, high, n - 1), if BitOf(high, n - 1) then generators[n - 1] else 0, k);
    }
  }

  lemma {:induction false} PowPositive(k: nat)
    ensures Pow2(k) > 0
  {
    if k > 0 { PowPositive(k - 1); }
  }

  lemma {:induction false} ShiftBelow(a: nat, k: nat, n: nat)
    requires a < Pow2(k)
    ensures ShiftLeft(a, n) < Pow2(k + n)
  {
    if n > 0 {
      ShiftBelow(a, k, n - 1);
      assert Pow2(k + n) == 2 * Pow2(k + n - 1);
    }
  }

  lemma StepBelow(p: Profile, state: nat, v: Symbol)
    requires Known(p)
    ensures Step(p, state, v) < Pow2(p.shift + 5)
  {
    KnownFacts(p);
    var k := p.shift + 5;
    LowBelow(state, p.shift);
    ShiftBelow(Low(state, p.shift), p.shift, 5);
    Pow2Values();
    Pow2Mono(5, k);
    MixBelow(p.generators, ShiftRight(state, p.shift), 5, k);
    hide Pow2, Xor, ShiftLeft, ShiftRight, Low, Mix;
    XorBound(ShiftLeft(Low(state, p.shift), 5), v, k);
    XorBound(Xor(ShiftLeft(Low(state, p.shift), 5), v), Mix(p.generators, ShiftRight(state, p.shift), 5), k);
  }

  /** Bit `i` of a mix is the parity of the picked generators that have it. */
  function Parity(generators: seq<nat>, high: nat, n: nat, i: nat): bool
    requires n <= |generators|
  {
    n > 0 && Parity(generators, high, n - 1, i) != (BitOf(high, n - 1) && BitOf(generators[n - 1], i))
  }

  lemma {:induction false} MixParity(generators: seq<nat>, high: nat, n: nat, i: nat)
    requires n <= |generators|
    ensures BitOf(Mix(generators, high, n), i) == Parity(generators, high, n, i)
  {
    NoBits(i);
    if n > 0 {
      MixParity(generators, high, n - 1, i);
      hide BitOf, Xor;
      BitOfXor(Mix(generators, high, n - 1), if BitOf(high, n - 1) then generators[n - 1] else 0, i);
    }
  }

  lemma FiveBits(g: nat)
    ensures BitOf(g, 0) == (g % 2 == 1) && BitOf(g, 1) == (g / 2 % 2 == 1) && BitOf(g, 2) == (g / 4 % 2 == 1)
    ensures BitOf(g, 3) == (g / 8 % 2 == 1) && BitOf(g, 4) == (g / 16 % 2 == 1)
  {
    BitZero(g);
    BitUp(g, 0);
    BitZero(g / 2);
    BitUp(g, 1);
    BitUp(g / 2, 0);
    BitZero(g / 4);
    BitUp(g, 2);
    BitUp(g / 2, 1);
    BitUp(g / 4, 0);
    BitZero(g / 8);
    BitUp(g, 3);
    BitUp(g / 2, 2);
    BitUp(g / 4, 1);
    BitUp(g / 8, 0);
    BitZero(g / 16);
    assert g / 2 / 2 == g / 4 && g / 4 / 2 == g / 8 && g / 8 / 2 == g / 16;
    hide BitOf;
  }

  predicate Picked(high: nat, j: nat, g: nat, i: nat) {
    BitOf(high, j) && BitOf(g, i)
  }

  lemma ParityFive(generators: seq<nat>, high: nat, i: nat)
    requires |generators| == 5
    ensures var first := Picked(high, 0, generators[0], i) != Picked(high, 1, generators[1], i);
            var second := Picked(high, 2, generators[2], i) != Picked(high, 3, generators[3], i);
            Parity(generators, high, 5, i) == ((first != second) != Picked(high, 4, generators[4], i))
  {
    hide BitOf;
    assert Parity(generators, high, 1, i) == Picked(high, 0, generators[0], i);
    assert Parity(generators, high, 2, i) == (Parity(generators, high, 1, i) != Picked(high, 1, generators[1], i));
    assert Parity(generators, high, 3, i) == (Parity(generators, high, 2, i) != Picked(high, 2, generators[2], i));
    assert Parity(generators, high, 4, i) == (Parity(generators, high, 3, i) != Picked(high, 3, generators[3], i));
    assert Parity(generators, high, 5, i) == (Parity(generators, high, 4, i) != Picked(high, 4, generators[4], i));
    hide Parity, Picked;
  }

  /** Modulo the low five bits, the generators are independent. */
  lemma MixInjective(p: Profile, high: nat)
    requires Known(p) && high < 32 && Low(Mix(p.generators, high, 5), 5) == 0
    ensures high == 0
  {
    LowBits(Mix(p.generators, high, 5), 5, 0);
    LowBits(Mix(p.generators, high, 5), 5, 1);
    LowBits(Mix(p.generators, high, 5), 5, 2);
    LowBits(Mix(p.generators, high, 5), 5, 3);
    LowBits(Mix(p.generators, high, 5), 5, 4);
    forall i: nat | i < 5
      ensures !Parity(p.generators, high, 5, i)
    {
      NoBits(i);
      MixParity(p.generators, high, 5, i);
      hide BitOf, Mix;
      assert i == 0 || i == 1 || i == 2 || i == 3 || i == 4;
    }
    hide *;
    Independent(p, high);
  }

  lemma Bech32Parities(high: nat)
    ensures var g := BECH32.generators;
            && Parity(g, high, 5, 0) == ((BitOf(high, 1) != BitOf(high, 3)) != BitOf(high, 4))
            && Parity(g, high, 5, 1) == ((BitOf(high, 0) != BitOf(high, 2)) != BitOf(high, 4))
            && Parity(g, high, 5, 2) == (BitOf(high, 1) != BitOf(high, 3))
            && Parity(g, high, 5, 3) == ((BitOf(high, 1) != BitOf(high, 2)) != BitOf(high, 3))
            && Parity(g, high, 5, 4) == ((BitOf(high, 0) != BitOf(high, 2)) != (BitOf(high, 3) != BitOf(high, 4)))
  {
    AllParities(BECH32.generators, high);
    FiveBits(0x3b6a57b2);
    FiveBits(0x26508e6d);
    FiveBits(0x1ea119fa);
    FiveBits(0x3d4233dd);
    FiveBits(0x2a1462b3);
    hide BitOf, Parity;
  }

  lemma Blech32Parities(high: nat)
    ensures var g := BLECH32.generators;
            && Parity(g, high, 5, 0) == (BitOf(high, 3) != BitOf(high, 4))
            && Parity(g, high, 5, 1) == (BitOf(high, 0) != BitOf(high, 4))
            && Parity(g, high, 5, 2) == (BitOf(high, 0) != BitOf(high, 1))
            && Parity(g, high, 5, 3) == ((BitOf(high, 1) != BitOf(high, 2)) != (BitOf(high, 3) != BitOf(high, 4)))
            && Parity(g, high, 5, 4) == ((BitOf(high, 2) != BitOf(high, 3)) != BitOf(high, 4))
  {
    AllParities(BLECH32.generators, high);
    FiveBits(0x7d52fba40bd886);
    FiveBits(0x5e8dbf1a03950c);
    FiveBits(0x1c3a3c74072a18);
    FiveBits(0x385d72fa0e5139);
    FiveBits(0x7093e5a608865b);
    hide BitOf, Parity;
  }

  lemma AllParities(g: seq<nat>, high: nat)
    requires |g| == 5
    ensures forall i: nat :: i < 5 ==>
              var first := Picked(high, 0, g[0], i) != Picked(high, 1, g[1], i);
              var second := Picked(high, 2, g[2], i) != Picked(high, 3, g[3], i);
              Parity(g, high, 5, i) == ((first != second) != Picked(high, 4, g[4], i))
  {
    forall i: nat | i < 5
      ensures var first := Picked(high, 0, g[0], i) != Picked(high, 1, g[1], i);
              var second := Picked(high, 2, g[2], i) != Picked(high, 3, g[3], i);
              Parity(g, high, 5, i) == ((first != second) != Picked(high, 4, g[4], i))
    {
      ParityFive(g, high, i);
    }
  }

  lemma Independent(p: Profile, high: nat)
    requires Known(p) && high < 32 && forall i: nat :: i < 5 ==> !Parity(p.generators, high, 5, i)
    ensures high == 0
  {
    if p == BECH32 { Bech32Parities(high); } else { Blech32Parities(high); }
    FiveBits(high);
    hide BitOf, Parity;
  }

  lemma {:induction false} LowShifted(a: nat, k: nat)
    ensures Low(ShiftLeft(a, k), k) == 0
  {
    if k > 0 {
      LowShifted(a, k - 1);
      assert ShiftLeft(a, k) == 2 * ShiftLeft(a, k - 1);
    }
  }

  lemma {:induction false} ShiftLeftZero(a: nat, k: nat)
    ensures ShiftLeft(a, k) == 0 <==> a == 0
  {
    if k > 0 { ShiftLeftZero(a, k - 1); }
  }

  lemma {:induction false} HighBelow(state: nat, k: nat)
    requires state < Pow2(k + 5)
    ensures ShiftRight(state, k) < 32
  {
    if k == 0 {
      Pow2Values();
      assert Pow2(5) == 32;
    } else {
      assert Pow2(k + 5) == 2 * Pow2(k + 4);
      HighBelow(state / 2, k - 1);
    }
  }

  lemma MixZero(generators: seq<nat>, n: nat)
    requires n <= |generators|
    ensures Mix(generators, 0, n) == 0
  {
    if n > 0 {
      MixZero(generators, n - 1);
      NoBits(n - 1);
      XorZero(0);
      hide BitOf, Xor;
    }
  }

  /** A state is determined by the step taken from it. */
  lemma StepInjective(p: Profile, c: nat, d: nat, v: nat)
    requires Known(p) && c < Pow2(p.shift + 5) && d < Pow2(p.shift + 5) && Step(p, c, v) == Step(p, d, v)
    ensures c == d
  {
    // the difference of the states steps to zero on value zero
    var e := Xor(c, d);
    StepLinear(p, c, d, v, v);
    XorSelf(v);
    XorSelf(Step(p, c, v));
    XorBound(c, d, p.shift + 5);
    hide *;
    ZeroStep(p, e);
    XorZeroIffEqual(c, d);
  }

  /** Only the zero state steps to zero on value zero. */
  lemma ZeroStep(p: Profile, e: nat)
    requires Known(p) && e < Pow2(p.shift + 5) && Step(p, e, 0) == 0
    ensures e == 0
  {
    var high, low := ShiftRight(e, p.shift), ShiftLeft(Low(e, p.shift), 5);
    var mix := Mix(p.generators, high, 5);
    XorZero(low);
    XorZeroIffEqual(low, mix);
    LowShifted(Low(e, p.shift), 5);
    HighBelow(e, p.shift);
    hide Mix, Xor, ShiftLeft, ShiftRight, Low, Pow2;
    MixInjective(p, high);
    MixZero(p.generators, 5);
    ShiftLeftZero(Low(e, p.shift), 5);
    LowAndRest(e, p.shift);
    ShiftLeftZero(0, p.shift);
  }

  lemma {:induction false} FoldBelow(p: Profile, state: nat, values: seq<nat>)
    requires Known(p) && state < Pow2(p.shift + 5) && forall i :: 0 <= i < |values| ==> values[i] < 32
    ensures Fold(p, state, values) < Pow2(p.shift + 5)
  {
    if values != [] {
      FoldBelow(p, state, values[..|values| - 1]);
      hide Step, Pow2;
      StepBelow(p, Fold(p, state, values[..|values| - 1]), values[|values| - 1]);
    }
  }

  /** Different states stay different over the same values. */
  lemma {:induction false} FoldInjective(p: Profile, c: nat, d: nat, values: seq<nat>)
    requires Known(p) && c < Pow2(p.shift + 5) && d < Pow2(p.shift + 5) && c != d
    requires forall i :: 0 <= i < |values| ==> values[i] < 32
    ensures Fold(p, c, values) != Fold(p, d, values)
  {
    if values != [] {
      var front, last := values[..|values| - 1], values[|values| - 1];
      FoldInjective(p, c, d, front);
      FoldBelow(p, c, front);
      FoldBelow(p, d, front);
      hide Step, Pow2;
      if Step(p, Fold(p, c, front), last) == Step(p, Fold(p, d, front), last) {
        StepInjective(p, Fold(p, c, front), Fold(p, d, front), last);
      }
    }
  }

  lemma StepDiffers(p: Profile, state: nat, v: nat, w: nat)
    requires |p.generators| == 5 && v != w
    ensures Step(p, state, v) != Step(p, state, w)
  {
    var low, mix := ShiftLeft(Low(state, p.shift), 5), Mix(p.generators, ShiftRight(state, p.shift), 5);
    XorCancel(Xor(low, v), mix);
    XorCancel(Xor(low, w), mix);
    XorCancel(v, low);
    XorCancel(w, low);
    XorComm(low, v);
    XorComm(low, w);
    hide Xor, Mix, Low, ShiftLeft, ShiftRight;
  }

  lemma Around(values: seq<nat>, at: nat, v: nat) returns (before: seq<nat>, after: seq<nat>)
    requires at < |values| && forall i :: 0 <= i < |values| ==> values[i] < 32
    ensures values == before + [values[at]] + after && values[at := v] == before + [v] + after
    ensures (forall i :: 0 <= i < |before| ==> before[i] < 32) && (forall i :: 0 <= i < |after| ==> after[i] < 32)
  {
    before, after := values[..at], values[at + 1..];
  }

  /** Substituting any one symbol changes the checksum, at any length. */
  lemma SubstitutionDetected(p: Profile, values: seq<nat>, at: nat, v: Symbol)
    requires Known(p) && at < |values| && values[at] != v && forall i :: 0 <= i < |values| ==> values[i] < 32
    ensures Fold(p, 1, values[at := v]) != Fold(p, 1, values)
  {
    KnownFacts(p);
    var w := values[at];
    hide *;
    var before, after := Around(values, at, v);
    FoldBelow(p, 1, before);
    var state := Fold(p, 1, before);
    StepDiffers(p, state, w, v);
    StepBelow(p, state, w);
    StepBelow(p, state, v);
    FoldInjective(p, Step(p, state, w), Step(p, state, v), after);
    FoldAround(p, before, w, after);
    FoldAround(p, before, v, after);
  }

  lemma FoldAround(p: Profile, before: seq<nat>, v: nat, after: seq<nat>)
    requires |p.generators| == 5
    ensures Fold(p, 1, before + [v] + after) == Fold(p, Step(p, Fold(p, 1, before), v), after)
  {
    FoldAppend(p, 1, before + [v], after);
    assert (before + [v])[..|before|] == before;
    hide Step;
  }

  // ---- Making a checksum ----------------------------------------------------------------------------------

  function Zeros(n: nat): seq<nat> {
    seq(n, _ => 0)
  }

  /** The `length` five-bit digits of `x`, most significant first. */
  function Digits(x: nat, length: nat): (d: seq<Symbol>)
    ensures |d| == length
  {
    seq(length, i requires 0 <= i < length => Digit(x, 5 * (length - 1 - i)))
  }

  function Digit(x: nat, k: nat): Symbol {
    Pow2Values();
    LowBelow(ShiftRight(x, k), 5);
    Low(ShiftRight(x, k), 5)
  }

  lemma DigitAt(x: nat, length: nat, n: nat)
    requires 0 < n <= length
    ensures Digits(x, length)[n - 1] == Low(ShiftRight(x, 5 * (length - n)), 5)
    ensures Digits(x, length)[..n][..n - 1] == Digits(x, length)[..n - 1]
  {
    var d := Digits(x, length);
    assert 5 * (length - 1 - (n - 1)) == 5 * (length - n);
    assert d[n - 1] == Digit(x, 5 * (length - n));
    assert d[..n][..n - 1] == d[..n - 1];
  }

  /** Folding digits from state zero rebuilds their number, as long as it fits the state. */
  lemma {:induction false} DigitsFold(p: Profile, x: nat, length: nat, n: nat)
    requires Known(p) && n <= length && 5 * length == p.shift + 5 && x < Pow2(5 * length)
    ensures Fold(p, 0, Digits(x, length)[..n]) == ShiftRight(x, 5 * (length - n))
  {
    if n == 0 {
      ShiftRightSmall(x, 5 * length);
    } else {
      hide *;
      var d := Digits(x, length);
      DigitAt(x, length, n);
      DigitsFold(p, x, length, n - 1);
      assert |p.generators| == 5 by { KnownSize(p); }
      FoldLast(p, 0, d[..n]);
      assert d[..n][..n - 1] == d[..n - 1] && d[..n][n - 1] == d[n - 1];
      assert 5 * (length - (n - 1)) == 5 * (length - n) + 5;
      DigitStep(p, x, 5 * (length - n));
    }
  }

  lemma KnownSize(p: Profile)
    requires Known(p)
    ensures |p.generators| == 5
  {}

  lemma FoldLast(p: Profile, state: nat, values: seq<nat>)
    requires |p.generators| == 5 && values != []
    ensures Fold(p, state, values) == Step(p, Fold(p, state, values[..|values| - 1]), values[|values| - 1])
  {
    hide Step;
  }

  lemma {:induction false} ShiftRightFive(x: nat, k: nat)
    ensures ShiftRight(x, k + 5) == ShiftRight(ShiftRight(x, k), 5)
  {
    if k > 0 { ShiftRightFive(x / 2, k - 1); }
  }

  lemma {:induction false} ShiftRightBelow(x: nat, k: nat, n: nat)
    requires x < Pow2(k + n)
    ensures ShiftRight(x, n) < Pow2(k)
  {
    if n > 0 {
      assert Pow2(k + n) == 2 * Pow2(k + n - 1);
      ShiftRightBelow(x / 2, k, n - 1);
    }
  }

  lemma DigitStep(p: Profile, x: nat, k: nat)
    requires Known(p) && x < Pow2(p.shift + 5)
    ensures Step(p, ShiftRight(x, k + 5), Low(ShiftRight(x, k), 5)) == ShiftRight(x, k)
  {
    var y := ShiftRight(x, k);
    var state := ShiftRight(x, k + 5);
    ShiftRightFive(x, k);
    StateFits(x, p.shift, k);
    LowSmall(state, p.shift);
    ShiftRightSmall(state, p.shift);
    MixZero(p.generators, 5);
    LowAndRest(y, 5);
    LowBelow(y, 5);
    PowPositive(5);
    XorSplit(0, state, Low(y, 5), 0, 5);
    ShiftLeftZero(0, 5);
    XorZero(Low(y, 5));
    XorComm(Low(y, 5), 0);
    XorZero(state);
    hide Xor, Mix, Low, ShiftLeft, ShiftRight, Pow2;
    XorZero(Xor(ShiftLeft(state, 5), Low(y, 5)));
  }

  lemma StateFits(x: nat, shift: nat, k: nat)
    requires x < Pow2(shift + 5)
    ensures ShiftRight(x, k + 5) < Pow2(shift)
  {
    ShiftRightBelow(x, shift, 5);
    RightShrinks(ShiftRight(x, 5), k);
    ShiftRightSum(x, 5, k);
    hide ShiftRight, Pow2;
  }

  lemma {:induction false} RightShrinks(a: nat, k: nat)
    ensures ShiftRight(a, k) <= a
  {
    if k > 0 { RightShrinks(a / 2, k - 1); }
  }

  lemma {:induction false} ShiftRightSum(x: nat, j: nat, k: nat)
    ensures ShiftRight(x, k + j) == ShiftRight(ShiftRight(x, j), k)
  {
    if j > 0 { ShiftRightSum(x / 2, j - 1, k); }
  }

  /** The checksum symbols of values, for either constant. */
  function Checksum(p: Profile, values: seq<nat>, constant: nat): (symbols: seq<Symbol>)
    requires |p.generators| == 5
    ensures |symbols| == p.checksumLength
  {
    Digits(Xor(Fold(p, 1, values + Zeros(p.checksumLength)), constant), p.checksumLength)
  }

  /** Values followed by their checksum fold to the constant. */
  lemma ChecksumVerifies(p: Profile, values: seq<nat>, constant: nat)
    requires Known(p) && constant < Pow2(p.shift + 5) && forall i :: 0 <= i < |values| ==> values[i] < 32
    ensures Fold(p, 1, values + Checksum(p, values, constant)) == constant
  {
    KnownFacts(p);
    var n := p.checksumLength;
    var state, target := Fold(p, 1, values), Xor(Fold(p, 1, values + Zeros(n)), constant);
    FoldBelow(p, 1, values + Zeros(n));
    XorBound(Fold(p, 1, values + Zeros(n)), constant, p.shift + 5);
    DigitsFold(p, target, n, n);
    assert Digits(target, n)[..n] == Digits(target, n) && Checksum(p, values, constant) == Digits(target, n);
    hide Pow2, Step, Digits, Fold, Checksum;
    FoldAppend(p, 1, values, Zeros(n));
    FoldAppend(p, 1, values, Digits(target, n));
    FoldLinear(p, state, 0, Zeros(n), Digits(target, n));
    XorWithZeros(Digits(target, n));
    XorZero(state);
    XorCancel(constant, Fold(p, state, Zeros(n)));
    XorComm(constant, Fold(p, state, Zeros(n)));
  }

  lemma XorWithZeros(values: seq<nat>)
    ensures XorAll(Zeros(|values|), values) == values
  {
    forall i | 0 <= i < |values|
      ensures Xor(0, values[i]) == values[i]
    {
      XorZero(values[i]);
    }
  }

  // ---- The generators ---------------------------------------------------------------------------------

  /** Doubling a symbol in the field of 32 elements, where x^5 is x^3 + 1. */
  function DoubleSymbol(s: Symbol): Symbol {
    if s < 16 then 2 * s else if (2 * s - 32) / 8 % 2 == 0 then 2 * s - 32 + 9 else 2 * s - 32 - 7
  }

  /** The symbol doubled `i` times. */
  function Doubled(s: Symbol, i: nat): Symbol {
    if i == 0 then s else DoubleSymbol(Doubled(s, i - 1))
  }

  function Six(a: nat, b: nat, c: nat, d: nat, e: nat, f: nat): nat {
    32 * (32 * (32 * (32 * (32 * a + b) + c) + d) + e) + f
  }

  /** The generator polynomial of BIP-173 and the one of twelve symbols for blinded addresses: generator `i` is the
      polynomial with every coefficient doubled `i` times. */
  lemma GeneratorsDouble(i: nat)
    requires i < 5
    ensures BECH32.generators[i]
         == Six(Doubled(29, i), Doubled(22, i), Doubled(20, i), Doubled(21, i), Doubled(29, i), Doubled(18, i))
    ensures BLECH32.generators[i]
         == 0x4000_0000
            * Six(Doubled(0, i), Doubled(31, i), Doubled(10, i), Doubled(18, i), Doubled(31, i), Doubled(14, i))
            + Six(Doubled(18, i), Doubled(0, i), Doubled(23, i), Doubled(22, i), Doubled(4, i), Doubled(6, i))
    ensures BECH32.modern == 0x2bc830a3 && BLECH32.modern == 0x455972a3350f7a1 && LEGACY == 1
  {
    SomeDoubled();
    MoreDoubled();
    MostDoubled();
    hide Doubled;
    assert i == 0 || i == 1 || i == 2 || i == 3 || i == 4;
  }

  lemma SomeDoubled()
    ensures Doubled(0, 0) == 0 && Doubled(0, 1) == 0 && Doubled(0, 2) == 0 && Doubled(0, 3) == 0 && Doubled(0, 4) == 0
    ensures Doubled(4, 0) == 4 && Doubled(4, 1) == 8 && Doubled(4, 2) == 16 && Doubled(4, 3) == 9 && Doubled(4, 4) == 18
    ensures Doubled(6, 0) == 6 && Doubled(6, 1) == 12 && Doubled(6, 2) == 24
            && Doubled(6, 3) == 25 && Doubled(6, 4) == 27
    ensures Doubled(10, 0) == 10 && Doubled(10, 1) == 20 && Doubled(10, 2) == 1
            && Doubled(10, 3) == 2 && Doubled(10, 4) == 4
  {}

  lemma MoreDoubled()
    ensures Doubled(14, 0) == 14 && Doubled(14, 1) == 28 && Doubled(14, 2) == 17
            && Doubled(14, 3) == 11 && Doubled(14, 4) == 22
    ensures Doubled(18, 0) == 18 && Doubled(18, 1) == 13 && Doubled(18, 2) == 26
            && Doubled(18, 3) == 29 && Doubled(18, 4) == 19
    ensures Doubled(20, 0) == 20 && Doubled(20, 1) == 1 && Doubled(20, 2) == 2
            && Doubled(20, 3) == 4 && Doubled(20, 4) == 8
    ensures Doubled(21, 0) == 21 && Doubled(21, 1) == 3 && Doubled(21, 2) == 6
            && Doubled(21, 3) == 12 && Doubled(21, 4) == 24
  {}

  lemma MostDoubled()
    ensures Doubled(22, 0) == 22 && Doubled(22, 1) == 5 && Doubled(22, 2) == 10
            && Doubled(22, 3) == 20 && Doubled(22, 4) == 1
    ensures Doubled(23, 0) == 23 && Doubled(23, 1) == 7 && Doubled(23, 2) == 14
            && Doubled(23, 3) == 28 && Doubled(23, 4) == 17
    ensures Doubled(29, 0) == 29 && Doubled(29, 1) == 19 && Doubled(29, 2) == 15
            && Doubled(29, 3) == 30 && Doubled(29, 4) == 21
    ensures Doubled(31, 0) == 31 && Doubled(31, 1) == 23 && Doubled(31, 2) == 7
            && Doubled(31, 3) == 14 && Doubled(31, 4) == 28
  {}
}
