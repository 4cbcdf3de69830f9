/** Exclusive or and shifts on non-negative integers of any width, as
    JavaScript's `^`, `<<` and `>>>` on small numbers and on BigInt values. */
module XorArithmetic {

  function ShiftLeft(a: nat, k: nat): nat {
    if k == 0 then a else 2 * ShiftLeft(a, k - 1)
  }

  function ShiftRight(a: nat, k: nat): nat {
    if k == 0 then a else ShiftRight(a / 2, k - 1)
  }

  function Pow2(k: nat): nat {
    ShiftLeft(1, k)
  }

  lemma Pow2Values()
    ensures Pow2(4) == 16 && Pow2(5) == 32 && Pow2(7) == 128 && Pow2(8) == 256 && Pow2(10) == 1024
    ensures Pow2(15) == 0x8000 && Pow2(16) == 0x10000
  {
    assert ShiftLeft(1, 12) == 4096;
  }

  function Xor(a: nat, b: nat): nat
    decreases a + b
  {
    if a == 0 then b
    else if b == 0 then a
    else 2 * Xor(a / 2, b / 2) + (if a % 2 != b % 2 then 1 else 0)
  }

  /** Bit `i` of `a`, least significant first. */
  function BitOf(a: nat, i: nat): bool {
    ShiftRight(a, i) % 2 == 1
  }

  lemma {:induction false} XorStep(a: nat, b: nat)
    ensures Xor(a, b) / 2 == Xor(a / 2, b / 2)
    ensures Xor(a, b) % 2 == (if a % 2 != b % 2 then 1 else 0)
    ensures Xor(a, b) == 2 * Xor(a / 2, b / 2) + (if a % 2 != b % 2 then 1 else 0)
  {
    if a == 0 || b == 0 {
      assert Xor(0, b / 2) == b / 2;
    }
  }

  lemma XorDouble(a: nat, b: nat)
    ensures Xor(2 * a, 2 * b) == 2 * Xor(a, b)
  {
    XorStep(2 * a, 2 * b);
  }

  lemma XorOfHalves(lowA: nat, a: nat, lowB: nat, b: nat)
    ensures Xor(lowA + 2 * a, lowB + 2 * b) == 2 * Xor(lowA / 2 + a, lowB / 2 + b) + Xor(lowA, lowB) % 2
  {
    XorStep(lowA + 2 * a, lowB + 2 * b);
    XorStep(lowA, lowB);
    hide Xor;
    assert (lowA + 2 * a) / 2 == lowA / 2 + a && (lowB + 2 * b) / 2 == lowB / 2 + b;
  }

  lemma {:induction false} XorComm(a: nat, b: nat)
    ensures Xor(a, b) == Xor(b, a)
    decreases a + b
  {
    if a != 0 && b != 0 {
      XorComm(a / 2, b / 2);
    }
  }

  lemma {:induction false} XorAssoc(a: nat, b: nat, c: nat)
    ensures Xor(Xor(a, b), c) == Xor(a, Xor(b, c))
    decreases a + b + c
  {
    if a != 0 && b != 0 && c != 0 {
      XorStep(a, b);
      XorStep(b, c);
      XorStep(Xor(a, b), c);
      XorStep(a, Xor(b, c));
      XorAssoc(a / 2, b / 2, c / 2);
    }
  }

  lemma {:induction false} XorSelf(a: nat)
    ensures Xor(a, a) == 0
  {
    if a != 0 {
      XorSelf(a / 2);
    }
  }

  lemma XorZero(a: nat)
    ensures Xor(a, 0) == a && Xor(0, a) == a
  {}

  /** Xor with the same value twice changes nothing. */
  lemma XorCancel(a: nat, b: nat)
    ensures Xor(Xor(a, b), b) == a
    ensures Xor(b, Xor(a, b)) == a
  {
    XorAssoc(a, b, b);
    XorSelf(b);
    XorComm(b, Xor(a, b));
  }

  lemma XorZeroIffEqual(a: nat, b: nat)
    ensures Xor(a, b) == 0 <==> a == b
  {
    XorSelf(a);
    if Xor(a, b) == 0 {
      XorCancel(a, b);
    }
  }

  lemma XorExchange(a: nat, b: nat, c: nat, d: nat)
    ensures Xor(Xor(a, b), Xor(c, d)) == Xor(Xor(a, c), Xor(b, d))
  {
    XorAssoc(a, b, Xor(c, d));
    XorAssoc(b, c, d);
    XorComm(b, c);
    XorAssoc(c, b, d);
    XorAssoc(a, c, Xor(b, d));
  }

  lemma {:induction false} XorBound(a: nat, b: nat, k: nat)
    requires a < Pow2(k) && b < Pow2(k)
    ensures Xor(a, b) < Pow2(k)
  {
    if k > 0 {
      XorStep(a, b);
      XorBound(a / 2, b / 2, k - 1);
    }
  }

  /** Xor acts separately on the low `k` bits and on the rest. */
  lemma {:induction false} XorSplit(lowA: nat, highA: nat, lowB: nat, highB: nat, k: nat)
    requires lowA < Pow2(k) && lowB < Pow2(k)
    ensures Xor(lowA + ShiftLeft(highA, k), lowB + ShiftLeft(highB, k))
         == Xor(lowA, lowB) + ShiftLeft(Xor(highA, highB), k)
  {
    hide Xor;
    if k == 0 {
      XorZero(0);
    } else {
      XorSplit(lowA / 2, highA, lowB / 2, highB, k - 1);
      XorOfHalves(lowA, ShiftLeft(highA, k - 1), lowB, ShiftLeft(highB, k - 1));
      XorStep(lowA, lowB);
    }
  }

  lemma {:induction false} ShiftRightXor(a: nat, b: nat, k: nat)
    ensures ShiftRight(Xor(a, b), k) == Xor(ShiftRight(a, k), ShiftRight(b, k))
  {
    if k > 0 {
      XorStep(a, b);
      ShiftRightXor(a / 2, b / 2, k - 1);
    }
  }

  lemma {:induction false} ShiftLeftXor(a: nat, b: nat, k: nat)
    ensures ShiftLeft(Xor(a, b), k) == Xor(ShiftLeft(a, k), ShiftLeft(b, k))
  {
    if k > 0 {
      hide Xor;
      ShiftLeftXor(a, b, k - 1);
      XorDouble(ShiftLeft(a, k - 1), ShiftLeft(b, k - 1));
    }
  }

  lemma BitOfXor(a: nat, b: nat, i: nat)
    ensures BitOf(Xor(a, b), i) == (BitOf(a, i) != BitOf(b, i))
  {
    ShiftRightXor(a, b, i);
    XorStep(ShiftRight(a, i), ShiftRight(b, i));
  }

  lemma {:induction false} ShiftRightMore(a: nat, k: nat)
    ensures ShiftRight(a, k + 1) == ShiftRight(a, k) / 2
    ensures ShiftRight(a, k) == 2 * ShiftRight(a, k + 1) + (if BitOf(a, k) then 1 else 0)
  {
    if k > 0 {
      ShiftRightMore(a / 2, k - 1);
    }
  }

  /** A number splits into its low `k` bits and the rest. */
  lemma {:induction false} SplitAt(a: nat, k: nat) returns (low: nat)
    ensures low < Pow2(k) && a == low + ShiftLeft(ShiftRight(a, k), k)
  {
    if k == 0 {
      low := 0;
    } else {
      low := SplitAt(a / 2, k - 1);
      low := 2 * low + a % 2;
    }
  }

  lemma {:induction false} Pow2Mono(j: nat, k: nat)
    requires j <= k
    ensures Pow2(j) <= Pow2(k)
  {
    if j < k {
      Pow2Mono(j, k - 1);
    }
  }

  lemma {:induction false} ShiftRightSmall(a: nat, k: nat)
    requires a < Pow2(k)
    ensures ShiftRight(a, k) == 0
  {
    if k > 0 {
      ShiftRightSmall(a / 2, k - 1);
    }
  }

  /** Shifts by the constants used in this project, as arithmetic. */
  lemma ShiftLeftValues(a: nat)
    ensures ShiftLeft(a, 1) == 2 * a && ShiftLeft(a, 5) == 32 * a
    ensures ShiftLeft(a, 7) == 128 * a && ShiftLeft(a, 10) == 1024 * a
  {
    assert ShiftLeft(a, 1) == 2 * a;
    assert ShiftLeft(a, 2) == 4 * a;
    assert ShiftLeft(a, 3) == 8 * a;
    assert ShiftLeft(a, 4) == 16 * a;
    assert ShiftLeft(a, 6) == 64 * a;
    assert ShiftLeft(a, 8) == 256 * a;
    assert ShiftLeft(a, 9) == 512 * a;
  }

  lemma ShiftRightValues(a: nat)
    ensures ShiftRight(a, 5) == a / 32 && ShiftRight(a, 7) == a / 128
    ensures ShiftRight(a, 9) == a / 512 && ShiftRight(a, 10) == a / 1024
  {
    ShiftRightHalves(a, 0, 5);
    ShiftRightHalves(a, 5, 2);
    ShiftRightHalves(a, 7, 2);
    ShiftRightHalves(a, 9, 1);
    hide ShiftRight;
  }

  lemma ShiftRightHalves(a: nat, k: nat, n: nat)
    ensures n == 0 ==> ShiftRight(a, k + n) == ShiftRight(a, k)
    ensures n == 1 ==> ShiftRight(a, k + n) == ShiftRight(a, k) / 2
    ensures n == 2 ==> ShiftRight(a, k + n) == ShiftRight(a, k) / 4
    ensures n == 5 ==> ShiftRight(a, k + n) == ShiftRight(a, k) / 32
  {
    ShiftRightMore(a, k);
    ShiftRightMore(a, k + 1);
    ShiftRightMore(a, k + 2);
    ShiftRightMore(a, k + 3);
    ShiftRightMore(a, k + 4);
    hide ShiftRight;
  }

  /** The low `k` bits of `a`. */
  function Low(a: nat, k: nat): nat {
    if k == 0 then 0 else a % 2 + 2 * Low(a / 2, k - 1)
  }

  lemma LowHalves(a: nat, k: nat)
    requires k > 0
    ensures Low(a, k) / 2 == Low(a / 2, k - 1) && Low(a, k) % 2 == a % 2
    ensures Low(a, k) == 2 * Low(a / 2, k - 1) + a % 2
  {}

  lemma {:induction false} LowXor(a: nat, b: nat, k: nat)
    ensures Low(Xor(a, b), k) == Xor(Low(a, k), Low(b, k))
  {
    if k == 0 {
      XorZero(0);
    } else {
      hide Xor;
      XorStep(a, b);
      LowXor(a / 2, b / 2, k - 1);
      LowHalves(a, k);
      LowHalves(b, k);
      LowHalves(Xor(a, b), k);
      hide Low;
      XorStep(Low(a, k), Low(b, k));
    }
  }

  lemma {:induction false} LowBelow(a: nat, k: nat)
    ensures Low(a, k) < Pow2(k)
  {
    if k > 0 { LowBelow(a / 2, k - 1); }
  }

  lemma {:induction false} LowAndRest(a: nat, k: nat)
    ensures a == Low(a, k) + ShiftLeft(ShiftRight(a, k), k)
  {
    if k > 0 {
      LowAndRest(a / 2, k - 1);
      assert ShiftLeft(ShiftRight(a, k), k) == 2 * ShiftLeft(ShiftRight(a / 2, k - 1), k - 1);
    }
  }

  lemma {:induction false} LowSmall(a: nat, k: nat)
    requires a < Pow2(k)
    ensures Low(a, k) == a
  {
    if k > 0 { LowSmall(a / 2, k - 1); }
  }

  lemma BitZero(a: nat)
    ensures BitOf(a, 0) <==> a % 2 == 1
  {}

  lemma BitUp(a: nat, i: nat)
    ensures BitOf(a, i + 1) == BitOf(a / 2, i)
  {}

  lemma {:induction false} NoBits(i: nat)
    ensures !BitOf(0, i)
  {
    if i > 0 { NoBits(i - 1); }
  }

  lemma {:induction false} LowBits(a: nat, k: nat, i: nat)
    ensures BitOf(Low(a, k), i) <==> i < k && BitOf(a, i)
  {
    if k == 0 {
      NoBits(i);
    } else {
      var low := Low(a, k);
      assert low / 2 == Low(a / 2, k - 1) && low % 2 == a % 2;
      if i > 0 {
        BitUp(low, i - 1);
        BitUp(a, i - 1);
        LowBits(a / 2, k - 1, i - 1);
      } else {
        BitZero(low);
        BitZero(a);
      }
    }
  }

  function Or(a: nat, b: nat): nat
    decreases a + b
  {
    if a == 0 && b == 0 then 0 else 2 * Or(a / 2, b / 2) + (if a % 2 == 1 || b % 2 == 1 then 1 else 0)
  }

  lemma {:induction false} BitOfOr(a: nat, b: nat, i: nat)
    ensures BitOf(Or(a, b), i) <==> BitOf(a, i) || BitOf(b, i)
  {
    if a == 0 && b == 0 {
      NoBits(i);
    } else if i > 0 {
      assert Or(a, b) / 2 == Or(a / 2, b / 2);
      BitOfOr(a / 2, b / 2, i - 1);
    } else {
      BitZero(Or(a, b));
    }
  }

  lemma {:induction false} OrZeroLeft(b: nat)
    ensures Or(0, b) == b
  {
    if b > 0 { OrZeroLeft(b / 2); }
  }

  /** Bits that do not overlap add up. */
  lemma {:induction false} OrDisjoint(a: nat, v: nat, k: nat)
    requires v < Pow2(k)
    ensures Or(ShiftLeft(a, k), v) == ShiftLeft(a, k) + v
  {
    if k == 0 {
      OrZeroRight(a);
    } else {
      var half := ShiftLeft(a, k - 1);
      assert ShiftLeft(a, k) == 2 * half && (2 * half) / 2 == half && (2 * half) % 2 == 0;
      OrDisjoint(a, v / 2, k - 1);
      if half == 0 && v == 0 {
      } else {
        assert Or(2 * half, v) == 2 * Or(half, v / 2) + v % 2;
      }
    }
  }

  lemma {:induction false} OrZeroRight(a: nat)
    ensures Or(a, 0) == a
  {
    if a > 0 { OrZeroRight(a / 2); }
  }
}
