/** The format word as a code: multiples of one polynomial, far apart from each other. */
module QrFormat {
  import opened XorArithmetic
  import opened QrTables
  import opened QrMatrix

  /** The product of two binary polynomials, bit `i` being the coefficient of degree `i`. */
  function Times(q: nat, g: nat): nat {
    if q == 0 then 0 else Xor(2 * Times(q / 2, g), if q % 2 == 1 then g else 0)
  }

  lemma TimesStep(q: nat, bit: nat, g: nat)
    requires bit <= 1
    ensures Times(2 * q + bit, g) == Xor(2 * Times(q, g), bit * g)
  {
    XorZero(0);
    if q == 0 { assert Times(0, g) == 0; }
    assert (2 * q + bit) / 2 == q && (2 * q + bit) % 2 == bit;
    hide Xor;
  }

  lemma Halves(q: nat)
    ensures q == 2 * (q / 2) + q % 2 && q % 2 <= 1
  {}

  lemma BitTimes(x: nat, y: nat, g: nat)
    requires x <= 1 && y <= 1
    ensures Xor(x * g, y * g) == (if x != y then 1 else 0) * g
  {
    XorZero(g);
    XorSelf(g);
    XorZero(0);
    hide Xor;
  }

  /** The product is linear in its first factor. */
  lemma {:induction false} TimesXor(p: nat, q: nat, g: nat)
    ensures Times(Xor(p, q), g) == Xor(Times(p, g), Times(q, g))
    decreases p + q
  {
    hide Xor, Times;
    if p == 0 && q == 0 {
      XorZero(0);
      XorZero(Times(0, g));
      NoProduct(g);
    } else {
      var x, y := p % 2, q % 2;
      TimesXor(p / 2, q / 2, g);
      XorStep(p, q);
      Halves(p);
      Halves(q);
      TimesStep(p / 2, x, g);
      TimesStep(q / 2, y, g);
      TimesStep(Xor(p / 2, q / 2), if x != y then 1 else 0, g);
      XorDouble(Times(p / 2, g), Times(q / 2, g));
      XorExchange(2 * Times(p / 2, g), x * g, 2 * Times(q / 2, g), y * g);
      BitTimes(x, y, g);
    }
  }

  lemma NoProduct(g: nat)
    ensures Times(0, g) == 0
  {}

  // ---- The division ------------------------------------------------------------------------------

  /** What the division steps subtract: the bits they find at the top. */
  function BchQuotient(data: nat, steps: nat): nat {
    if steps == 0 then 0 else 2 * BchQuotient(data, steps - 1) + BchRemainder(data, steps - 1) / 512
  }

  lemma DivisionStep(q: nat, rem: nat)
    requires rem < 1024
    ensures Xor(Times(2 * q + rem / 512, 0x537), BchStep(rem)) == 2 * Xor(Times(q, 0x537), rem)
  {
    var top := rem / 512;
    hide Xor, Times;
    ShiftLeftValues(rem);
    ShiftRightValues(rem);
    TimesStep(q, top, 0x537);
    XorExchange(2 * Times(q, 0x537), top * 0x537, 2 * rem, top * 0x537);
    XorSelf(top * 0x537);
    XorZero(Xor(2 * Times(q, 0x537), 2 * rem));
    XorDouble(Times(q, 0x537), rem);
  }

  lemma StepsAre(data: nat, steps: nat)
    requires steps > 0
    ensures BchQuotient(data, steps) == 2 * BchQuotient(data, steps - 1) + BchRemainder(data, steps - 1) / 512
    ensures BchRemainder(data, steps) == BchStep(BchRemainder(data, steps - 1))
    ensures ShiftLeft(data, steps) == 2 * ShiftLeft(data, steps - 1)
  {
    hide BchStep;
  }

  lemma StepSmall(rem: nat)
    requires rem < 512
    ensures BchStep(rem) == 2 * rem
  {
    ShiftLeftValues(rem);
    ShiftRightValues(rem);
    XorZero(2 * rem);
    hide Xor, ShiftLeft, ShiftRight;
  }

  /** Quotient times divisor, plus remainder, is the data moved up. */
  lemma {:induction false} Divided(data: nat, steps: nat)
    requires data < 32
    ensures Xor(Times(BchQuotient(data, steps), 0x537), BchRemainder(data, steps)) == ShiftLeft(data, steps)
  {
    if steps == 0 {
      XorZero(data);
    } else {
      hide *;
      Divided(data, steps - 1);
      BchBound(data, steps - 1);
      DivisionStep(BchQuotient(data, steps - 1), BchRemainder(data, steps - 1));
      StepsAre(data, steps);
    }
  }

  /** The first five steps only move the data up. */
  lemma {:induction false} FirstSteps(data: nat, steps: nat)
    requires data < 32 && steps <= 5
    ensures BchRemainder(data, steps) == ShiftLeft(data, steps) && BchQuotient(data, steps) == 0
  {
    if steps > 0 {
      hide *;
      FirstSteps(data, steps - 1);
      FirstSmall(data, steps - 1);
      StepSmall(BchRemainder(data, steps - 1));
      StepsAre(data, steps);
    }
  }

  lemma FirstSmall(data: nat, steps: nat)
    requires data < 32 && steps <= 4
    ensures ShiftLeft(data, steps) < 512
  {
    assert ShiftLeft(data, 1) == 2 * data;
    assert ShiftLeft(data, 2) == 4 * data;
    assert ShiftLeft(data, 3) == 8 * data;
    assert ShiftLeft(data, 4) == 16 * data;
  }

  lemma {:induction false} QuotientSmall(data: nat, steps: nat)
    requires data < 32 && 5 <= steps
    ensures BchQuotient(data, steps) < Pow2(steps - 5)
  {
    if steps == 5 {
      FirstSteps(data, 5);
    } else {
      QuotientSmall(data, steps - 1);
      BchBound(data, steps - 1);
    }
  }

  lemma DividedIn(data: nat) returns (quotient: nat)
    requires data < 32
    ensures quotient < 32 && Xor(Assembled(data, BchRemainder(data, 10)), 0x5412) == Times(quotient, 0x537)
  {
    hide *;
    var rem := BchRemainder(data, 10);
    quotient := BchQuotient(data, 10);
    Divided(data, 10);
    QuotientSmall(data, 10);
    BchBound(data, 10);
    Pow2Values();
    XorCancel(Times(quotient, 0x537), rem);
    AddedIsXored(data, rem);
    AssembledIs(data, rem);
    XorCancel(ShiftLeft(data, 10) + rem, 0x5412);
  }

  lemma AssembledIs(data: nat, rem: nat)
    ensures Assembled(data, rem) == Xor(ShiftLeft(data, 10) + rem, 0x5412)
  {
    hide Xor, ShiftLeft;
  }

  lemma WordIs(ecc: Ecc, mask: nat)
    requires mask < 8
    ensures var data := 8 * FormatLevel(ecc) + mask;
            data < 32 && FormatWord(ecc, mask) == Assembled(data, BchRemainder(data, 10))
  {
    hide Assembled, BchRemainder;
  }

  /** Unmasked, every format word is a multiple of 0x537; the quotient has five bits. */
  lemma FormatIsCodeword(ecc: Ecc, mask: nat) returns (quotient: nat)
    requires mask < 8
    ensures quotient < 32 && Xor(FormatWord(ecc, mask), 0x5412) == Times(quotient, 0x537)
  {
    hide *;
    WordIs(ecc, mask);
    quotient := DividedIn(8 * FormatLevel(ecc) + mask);
  }

  /** What a reader accepts as format information: unmasked, a multiple of 0x537. */
  predicate IsFormat(word: nat) {
    exists q :: 0 <= q < 32 && Xor(word, 0x5412) == Times(q, 0x537)
  }

  lemma FormatIsFormat(ecc: Ecc, mask: nat)
    requires mask < 8
    ensures IsFormat(FormatWord(ecc, mask))
  {
    hide Xor, Times, FormatWord;
    var q := FormatIsCodeword(ecc, mask);
  }

  lemma AddedIsXored(data: nat, rem: nat)
    requires rem < 1024
    ensures ShiftLeft(data, 10) + rem == Xor(ShiftLeft(data, 10), rem)
  {
    hide Xor;
    Pow2Values();
    ShiftLeftValues(0);
    XorSplit(0, data, rem, 0, 10);
    XorZero(rem);
    XorZero(data);
  }

  // ---- The distance ---------------------------------------------------------------------------------

  /** The bits of 0x537. */
  predicate Tap(i: int) {
    i == 0 || i == 1 || i == 2 || i == 4 || i == 5 || i == 8 || i == 10
  }

  lemma TapIs(i: nat)
    ensures BitOf(0x537, i) == Tap(i)
  {
    if i >= 11 {
      ShiftedOut(i);
    } else {
      FirstTaps();
      hide BitOf;
    }
  }

  lemma FirstTaps()
    ensures BitOf(0x537, 0) && BitOf(0x537, 1) && BitOf(0x537, 2) && !BitOf(0x537, 3) && BitOf(0x537, 4)
    ensures BitOf(0x537, 5) && !BitOf(0x537, 6) && !BitOf(0x537, 7) && BitOf(0x537, 8) && !BitOf(0x537, 9)
    ensures BitOf(0x537, 10)
  {}

  lemma ShiftedOut(i: nat)
    requires i >= 11
    ensures !BitOf(0x537, i)
  {
    Pow2Values();
    Pow2Mono(11, i);
    assert Pow2(11) == 2 * Pow2(10);
    ShiftRightSmall(0x537, i);
  }

  /** Bit `i` of the multiple: bits of the factor meeting bits of 0x537. */
  predicate CodeBit(q: nat, i: int)
    decreases q
  {
    q != 0 && (CodeBit(q / 2, i - 1) != (q % 2 == 1 && Tap(i)))
  }

  lemma {:induction false} NoCodeBit(q: nat, i: int)
    requires i < 0
    ensures !CodeBit(q, i)
  {
    if q != 0 { NoCodeBit(q / 2, i - 1); }
  }

  lemma TimesBit(q: nat, i: nat)
    ensures BitOf(Times(q, 0x537), i)
         == ((i > 0 && BitOf(Times(q / 2, 0x537), i - 1)) != (q % 2 == 1 && Tap(i)))
  {
    hide *;
    var half := Times(q / 2, 0x537);
    Halves(q);
    TimesStep(q / 2, q % 2, 0x537);
    BitOfXor(2 * half, (q % 2) * 0x537, i);
    TapIs(i);
    NoBits(i);
    assert (q % 2) * 0x537 == if q % 2 == 1 then 0x537 else 0;
    if i == 0 {
      BitZero(2 * half);
    } else {
      BitUp(2 * half, i - 1);
      assert 2 * half / 2 == half;
    }
  }

  lemma {:induction false} TimesBits(q: nat, i: nat)
    ensures BitOf(Times(q, 0x537), i) == CodeBit(q, i)
  {
    if q == 0 {
      NoProduct(0x537);
      NoBits(i);
    } else {
      TimesBit(q, i);
      if i > 0 { TimesBits(q / 2, i - 1); } else { NoCodeBit(q / 2, -1); }
      hide Times, BitOf, Tap;
    }
  }

  lemma CodeUnrolled(q: nat, i: int)
    requires q < 32
    ensures CodeBit(q, i)
         == ((q % 2 == 1 && Tap(i))
             != ((q / 2 % 2 == 1 && Tap(i - 1))
             != ((q / 4 % 2 == 1 && Tap(i - 2)) != ((q / 8 % 2 == 1 && Tap(i - 3)) != (q / 16 == 1 && Tap(i - 4))))))
  {
    hide Tap;
    var h := q / 2;
    assert h / 2 == q / 4 && h / 2 / 2 == q / 8 && h / 2 / 2 / 2 == q / 16 && q / 16 / 2 == 0;
    CodeStep(q, i);
    CodeStep(q / 2, i - 1);
    CodeStep(q / 4, i - 2);
    CodeStep(q / 8, i - 3);
    CodeStep(q / 16, i - 4);
    CodeStep(0, i - 5);
    hide CodeBit;
  }

  lemma CodeStep(q: nat, i: int)
    ensures CodeBit(q, i) == (CodeBit(q / 2, i - 1) != (q % 2 == 1 && Tap(i)))
    ensures q == 0 ==> !CodeBit(q, i)
  {
    hide Tap;
  }

  /** How many of the low `n` bits differ. */
  function Distance(v: nat, w: nat, n: nat): nat {
    if n == 0 then 0 else Distance(v, w, n - 1) + Count(BitOf(v, n - 1) != BitOf(w, n - 1))
  }

  function Count(b: bool): nat {
    if b then 1 else 0
  }

  function Weight(q: nat, n: nat): nat {
    if n == 0 then 0 else Weight(q, n - 1) + Count(CodeBit(q, n - 1))
  }

  /** Words whose exclusive or is a multiple of 0x537 differ where the multiple has its bits. */
  lemma {:induction false} DistanceIsWeight(v: nat, w: nat, q: nat, n: nat)
    requires Xor(v, w) == Times(q, 0x537)
    ensures Distance(v, w, n) == Weight(q, n)
  {
    if n > 0 {
      DistanceIsWeight(v, w, q, n - 1);
      BitOfXor(v, w, n - 1);
      TimesBits(q, n - 1);
      hide Xor, BitOf, CodeBit, Times;
    }
  }

  /** The bits of a multiple, by the five bits of the factor. */
  lemma CodeBits(q: nat, a: bool, b: bool, c: bool, d: bool, e: bool)
    requires q < 32 && a == (q % 2 == 1) && b == (q / 2 % 2 == 1) && c == (q / 4 % 2 == 1) && d == (q / 8 % 2 == 1)
        && e == (q / 16 == 1)
    ensures CodeBit(q, 0) == a && CodeBit(q, 1) == (a != b) && CodeBit(q, 2) == (a != (b != c))
    ensures CodeBit(q, 3) == (b != (c != d)) && CodeBit(q, 4) == (a != (c != (d != e)))
    ensures CodeBit(q, 5) == (a != (b != (d != e)))
    ensures CodeBit(q, 6) == (b != (c != e)) && CodeBit(q, 7) == (c != d) && CodeBit(q, 8) == (a != (d != e))
    ensures CodeBit(q, 9) == (b != e) && CodeBit(q, 10) == (a != c) && CodeBit(q, 11) == (b != d)
    ensures CodeBit(q, 12) == (c != e) && CodeBit(q, 13) == d && CodeBit(q, 14) == e
  {
    CodeUnrolled(q, 0);
    CodeUnrolled(q, 1);
    CodeUnrolled(q, 2);
    CodeUnrolled(q, 3);
    CodeUnrolled(q, 4);
    CodeUnrolled(q, 5);
    CodeUnrolled(q, 6);
    CodeUnrolled(q, 7);
    CodeUnrolled(q, 8);
    CodeUnrolled(q, 9);
    CodeUnrolled(q, 10);
    CodeUnrolled(q, 11);
    CodeUnrolled(q, 12);
    CodeUnrolled(q, 13);
    CodeUnrolled(q, 14);
    hide CodeBit;
  }

  lemma WeightUnrolled(q: nat)
    ensures Weight(q, 15)
         == Count(CodeBit(q, 0)) + Count(CodeBit(q, 1)) + Count(CodeBit(q, 2)) + Count(CodeBit(q, 3))
            + Count(CodeBit(q, 4)) + Count(CodeBit(q, 5)) + Count(CodeBit(q, 6)) + Count(CodeBit(q, 7))
            + Count(CodeBit(q, 8)) + Count(CodeBit(q, 9)) + Count(CodeBit(q, 10)) + Count(CodeBit(q, 11))
            + Count(CodeBit(q, 12)) + Count(CodeBit(q, 13)) + Count(CodeBit(q, 14))
  {
    hide *;
    WeightStep(q, 0);
    WeightStep(q, 1);
    WeightStep(q, 2);
    WeightStep(q, 3);
    WeightStep(q, 4);
    WeightStep(q, 5);
    WeightStep(q, 6);
    WeightStep(q, 7);
    WeightStep(q, 8);
    WeightStep(q, 9);
    WeightStep(q, 10);
    WeightStep(q, 11);
    WeightStep(q, 12);
    WeightStep(q, 13);
    WeightStep(q, 14);
  }

  lemma WeightStep(q: nat, n: nat)
    ensures Weight(q, n + 1) == Weight(q, n) + Count(CodeBit(q, n)) && Weight(q, 0) == 0
  {
    hide CodeBit, Count;
  }

  /** Every multiple but zero has at least seven bits. */
  lemma MultipleHeavy(q: nat)
    requires 0 < q < 32
    ensures Weight(q, 15) >= 7
  {
    var a, b, c, d, e := q % 2 == 1, q / 2 % 2 == 1, q / 4 % 2 == 1, q / 8 % 2 == 1, q / 16 == 1;
    CodeBits(q, a, b, c, d, e);
    WeightUnrolled(q);
    hide CodeBit, Weight;
    assert a || b || c || d || e;
  }

  lemma {:induction false} DistanceTriangle(u: nat, v: nat, w: nat, n: nat)
    ensures Distance(u, w, n) <= Distance(u, v, n) + Distance(v, w, n) && Distance(u, v, n) == Distance(v, u, n)
  {
    if n > 0 {
      DistanceTriangle(u, v, w, n - 1);
      hide BitOf;
    }
  }

  lemma {:induction false} XorSmall(a: nat, b: nat)
    requires a < 32 && b < 32
    ensures Xor(a, b) < 32
  {
    Pow2Values();
    XorBound(a, b, 5);
  }

  /** Any two of the 32 format words differ in at least seven of their 15 bits. */
  lemma FormatsApart(ecc: Ecc, mask: nat, ecc': Ecc, mask': nat)
    requires mask < 8 && mask' < 8 && (ecc != ecc' || mask != mask')
    ensures Distance(FormatWord(ecc, mask), FormatWord(ecc', mask'), 15) >= 7
  {
    var v, w := FormatWord(ecc, mask), FormatWord(ecc', mask');
    FormatDecodes(ecc, mask);
    FormatDecodes(ecc', mask');
    assert v != w;
    hide *;
    var p := FormatIsCodeword(ecc, mask);
    var q := FormatIsCodeword(ecc', mask');
    XorExchange(v, 0x5412, w, 0x5412);
    XorSelf(0x5412);
    XorZero(Xor(v, w));
    TimesXor(p, q, 0x537);
    XorSmall(p, q);
    XorZeroIffEqual(v, w);
    XorZeroIffEqual(p, q);
    NoProduct(0x537);
    DistanceIsWeight(v, w, Xor(p, q), 15);
    MultipleHeavy(Xor(p, q));
  }

  /** A format read with up to three of its bits wrong has one level and one mask that can have been meant. */
  lemma FormatCorrectable(word: nat, ecc: Ecc, mask: nat, ecc': Ecc, mask': nat)
    requires mask < 8 && mask' < 8
    requires Distance(word, FormatWord(ecc, mask), 15) <= 3 && Distance(word, FormatWord(ecc', mask'), 15) <= 3
    ensures ecc == ecc' && mask == mask'
  {
    hide *;
    DistanceTriangle(word, FormatWord(ecc, mask), FormatWord(ecc', mask'), 15);
    DistanceTriangle(FormatWord(ecc, mask), word, FormatWord(ecc', mask'), 15);
    if ecc != ecc' || mask != mask' { FormatsApart(ecc, mask, ecc', mask'); }
  }
}
