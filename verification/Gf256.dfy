/** The field GF(256) of the QR code's Reed-Solomon code: bytes under xor, with
    multiplication modulo x^8 + x^4 + x^3 + x^2 + 1 (0x11D). */
module Gf256 {
  import opened XorArithmetic

  type Byte = x: int | 0 <= x < 256

  function Add(a: Byte, b: Byte): Byte {
    ByteXor(a, b);
    Xor(a, b)
  }

  lemma ByteXor(a: Byte, b: Byte)
    ensures Xor(a, b) < 256
  {
    assert Pow2(8) == 256;
    XorBound(a, b, 8);
  }

  lemma AddGroup(a: Byte, b: Byte, c: Byte, d: Byte)
    ensures Add(a, b) == Add(b, a)
    ensures Add(Add(a, b), c) == Add(a, Add(b, c))
    ensures Add(Add(a, b), Add(c, d)) == Add(Add(a, c), Add(b, d))
    ensures Add(a, 0) == a && Add(0, a) == a && Add(a, a) == 0
  {
    XorComm(a, b);
    XorAssoc(a, b, c);
    XorExchange(a, b, c, d);
    XorSelf(a);
  }

  /** Multiplication by the generator x: shift left, then reduce if bit 8 is set. */
  function Double(z: Byte): Byte {
    Add(2 * (z % 128), (z / 128) * 0x1d)
  }

  /** The source's form of the same step: xor in the whole polynomial 0x11D. */
  lemma DoubleIsShiftAndReduce(z: Byte)
    ensures Xor(2 * z, (z / 128) * 0x11d) == Double(z)
  {
    assert Pow2(8) == 256;
    var h := z / 128;
    assert h == 0 || h == 1;
    XorSplit(2 * (z % 128), h, h * 0x1d, h, 8);
    XorSelf(h);
  }

  function Times(bit: bool, x: Byte): Byte {
    if bit then x else 0
  }

  /** The product of `x` with the `n` most significant bits of `y`, by Horner's rule. */
  function MulTop(x: Byte, y: Byte, n: nat): Byte
    requires n <= 8
  {
    if n == 0 then 0 else Add(Double(MulTop(x, y, n - 1)), Times(BitOf(y, 8 - n), x))
  }

  function Mul(x: Byte, y: Byte): Byte {
    MulTop(x, y, 8)
  }

  lemma TimesIsProduct(y: Byte, i: nat, x: Byte)
    ensures (ShiftRight(y, i) % 2) * x == Times(BitOf(y, i), x)
  {
    var bit := ShiftRight(y, i) % 2;
    assert bit == 0 || bit == 1;
  }

  /** One round of the source's loop: shift, reduce, add the selected multiple. */
  function HornerRound(z: nat, y: Byte, i: nat, x: Byte): nat {
    Xor(Xor(ShiftLeft(z, 1), ShiftRight(z, 7) * 0x11d), (ShiftRight(y, i) % 2) * x)
  }

  lemma HornerStep(x: Byte, y: Byte, i: nat)
    requires i < 8
    ensures HornerRound(MulTop(x, y, 7 - i), y, i, x) == MulTop(x, y, 8 - i)
  {
    var z: nat := MulTop(x, y, 7 - i);
    DoubleIsShiftAndReduce(z);
    TimesIsProduct(y, i, x);
    ShiftRightValues(z);
    ShiftLeftValues(z);
  }

  method GfMultiply(x: Byte, y: Byte) returns (r: Byte)
    ensures r == Mul(x, y)
  {
    hide Xor, ShiftLeft, ShiftRight;
    var z: nat := 0;
    var i := 7;
    while i >= 0
      invariant -1 <= i <= 7
      invariant z == MulTop(x, y, 7 - i)
    {
      HornerStep(x, y, i);
      z := Xor(ShiftLeft(z, 1), ShiftRight(z, 7) * 0x11d);
      z := Xor(z, (ShiftRight(y, i) % 2) * x);
      i := i - 1;
    }
    r := z % 256;
  }

  // ---- Multiplication is bilinear ---------------------------------------------

  /** The field: multiplying by x shifts, and takes x^8 for x^4 + x^3 + x^2 + 1. */
  lemma MulByX(x: Byte)
    ensures Mul(x, 2) == if x < 128 then 2 * x else Xor(2 * x, 285)
  {
    hide *;
    NoProduct(x, 6);
    BitsOfTwo();
    HornerBit(x, 2, 6);
    HornerBit(x, 2, 7);
    NoDouble();
    AddGroup(x, 0, 0, 0);
    AddGroup(Double(x), 0, 0, 0);
    MulIs(x, 2);
    DoubleIs(x);
  }

  lemma MulIs(x: Byte, y: Byte)
    ensures Mul(x, y) == MulTop(x, y, 8)
  {
    hide MulTop;
  }

  lemma HornerBit(x: Byte, y: Byte, n: nat)
    requires n < 8
    ensures MulTop(x, y, n + 1) == Add(Double(MulTop(x, y, n)), if BitOf(y, 7 - n) then x else 0)
  {
    hide Add, Double, BitOf;
  }

  lemma BitsOfTwo()
    ensures BitOf(2, 1) && !BitOf(2, 0)
  {}

  lemma NoDouble()
    ensures Double(0) == 0
  {
    AddGroup(0, 0, 0, 0);
    hide Add;
  }

  lemma DoubleIs(x: Byte)
    ensures Double(x) == if x < 128 then 2 * x else Xor(2 * x, 285)
  {
    hide *;
    DoubleIsShiftAndReduce(x);
    XorZero(2 * x);
    assert x / 128 == if x < 128 then 0 else 1;
  }

  lemma {:induction false} NoProduct(x: Byte, n: nat)
    requires n <= 6
    ensures MulTop(x, 2, n) == 0
  {
    if n == 0 {
      MulNone(x);
    } else {
      hide *;
      NoProduct(x, n - 1);
      HighBits(8 - n);
      HornerBit(x, 2, n - 1);
      NoDouble();
      AddGroup(0, 0, 0, 0);
    }
  }

  lemma MulNone(x: Byte)
    ensures MulTop(x, 2, 0) == 0
  {}

  lemma HighBits(i: nat)
    requires 2 <= i < 8
    ensures !BitOf(2, i)
  {
    assert ShiftRight(2, 2) == 0;
    assert !BitOf(2, 2) && !BitOf(2, 3) && !BitOf(2, 4) && !BitOf(2, 5) && !BitOf(2, 6) && !BitOf(2, 7);
  }

  lemma HighLow(a: Byte, b: Byte)
    ensures Add(a, b) / 128 == Xor(a / 128, b / 128)
    ensures Add(a, b) % 128 == Xor(a % 128, b % 128)
  {
    assert Pow2(7) == 128;
    ShiftLeftValues(a / 128);
    ShiftLeftValues(b / 128);
    ShiftLeftValues(Xor(a / 128, b / 128));
    XorSplit(a % 128, a / 128, b % 128, b / 128, 7);
    XorBound(a % 128, b % 128, 7);
  }

  lemma Reduction(ha: nat, hb: nat)
    requires ha <= 1 && hb <= 1
    ensures Xor(ha, hb) <= 1 && Xor(ha * 0x1d, hb * 0x1d) == Xor(ha, hb) * 0x1d
  {
    XorSelf(0x1d);
    XorZero(0x1d);
  }

  lemma DoubleAdd(a: Byte, b: Byte)
    ensures Double(Add(a, b)) == Add(Double(a), Double(b))
  {
    hide Xor;
    HighLow(a, b);
    XorBound(a % 128, b % 128, 7);
    XorDouble(a % 128, b % 128);
    Reduction(a / 128, b / 128);
    AddGroup(2 * (a % 128), (a / 128) * 0x1d, 2 * (b % 128), (b / 128) * 0x1d);
  }

  lemma {:induction false} MulTopAddLeft(a: Byte, b: Byte, y: Byte, n: nat)
    requires n <= 8
    ensures MulTop(Add(a, b), y, n) == Add(MulTop(a, y, n), MulTop(b, y, n))
  {
    if n > 0 {
      MulTopAddLeft(a, b, y, n - 1);
      DoubleAdd(MulTop(a, y, n - 1), MulTop(b, y, n - 1));
      var bit := BitOf(y, 8 - n);
      AddGroup(Double(MulTop(a, y, n - 1)), Double(MulTop(b, y, n - 1)), Times(bit, a), Times(bit, b));
    }
  }

  lemma {:induction false} MulTopAddRight(x: Byte, a: Byte, b: Byte, n: nat)
    requires n <= 8
    ensures MulTop(x, Add(a, b), n) == Add(MulTop(x, a, n), MulTop(x, b, n))
  {
    if n > 0 {
      MulTopAddRight(x, a, b, n - 1);
      DoubleAdd(MulTop(x, a, n - 1), MulTop(x, b, n - 1));
      BitOfXor(a, b, 8 - n);
      var ta, tb := Times(BitOf(a, 8 - n), x), Times(BitOf(b, 8 - n), x);
      AddGroup(x, x, x, x);
      AddGroup(Double(MulTop(x, a, n - 1)), Double(MulTop(x, b, n - 1)), ta, tb);
    }
  }

  lemma {:induction false} MulTopDouble(x: Byte, y: Byte, n: nat)
    requires n <= 8
    ensures MulTop(Double(x), y, n) == Double(MulTop(x, y, n))
  {
    if n > 0 {
      MulTopDouble(x, y, n - 1);
      DoubleAdd(Double(MulTop(x, y, n - 1)), Times(BitOf(y, 8 - n), x));
    }
  }

  lemma {:induction false} MulTopOne(y: Byte, n: nat)
    requires n <= 8
    ensures MulTop(1, y, n) == ShiftRight(y, 8 - n) < Pow2(n)
  {
    if n == 0 {
      ShiftRightSmall(y, 8);
    } else {
      MulTopOne(y, n - 1);
      ShiftRightMore(y, 8 - n);
      Pow2Mono(n - 1, 7);
      DoubleSmall(ShiftRight(y, 9 - n), BitOf(y, 8 - n));
    }
  }

  lemma DoubleSmall(z: Byte, bit: bool)
    requires z < 128
    ensures Add(Double(z), Times(bit, 1)) == 2 * z + (if bit then 1 else 0)
  {
    XorZero(2 * z);
    XorStep(2 * z, Times(bit, 1));
    XorZero(z);
    hide Xor;
  }

  // ---- The ring laws ------------------------------------------------------------

  lemma MulDistributes(a: Byte, b: Byte, y: Byte)
    ensures Mul(Add(a, b), y) == Add(Mul(a, y), Mul(b, y))
    ensures Mul(y, Add(a, b)) == Add(Mul(y, a), Mul(y, b))
  {
    MulTopAddLeft(a, b, y, 8);
    MulTopAddRight(y, a, b, 8);
  }

  lemma MulOne(y: Byte)
    ensures Mul(1, y) == y && Mul(y, 1) == y
  {
    MulTopOne(y, 8);
    MulCommutes(1, y);
  }

  lemma {:induction false} MulByTopBits(x: Byte, y: Byte, n: nat)
    requires n <= 8
    ensures Mul(MulTop(1, x, n), y) == MulTop(y, x, n)
  {
    if n == 0 {
      MulZero(y, 8);
    } else {
      var m, bit := MulTop(1, x, n - 1), BitOf(x, 8 - n);
      MulByTopBits(x, y, n - 1);
      MulTopDouble(m, y, 8);
      MulTopAddLeft(Double(m), Times(bit, 1), y, 8);
      MulTopOne(y, 8);
      MulZero(y, 8);
    }
  }

  lemma {:induction false} MulZero(y: Byte, n: nat)
    requires n <= 8
    ensures MulTop(0, y, n) == 0
  {
    if n > 0 {
      MulZero(y, n - 1);
    }
  }

  lemma MulCommutes(x: Byte, y: Byte)
    ensures Mul(x, y) == Mul(y, x)
  {
    MulTopOne(x, 8);
    MulByTopBits(x, y, 8);
  }

  lemma MulByZero(y: Byte)
    ensures Mul(0, y) == 0 && Mul(y, 0) == 0
  {
    MulZero(y, 8);
    MulCommutes(y, 0);
  }

  lemma {:induction false} MulAssociatesTop(x: Byte, y: Byte, z: Byte, n: nat)
    requires n <= 8
    ensures MulTop(Mul(x, y), z, n) == Mul(x, MulTop(y, z, n))
  {
    if n == 0 {
      MulByZero(x);
    } else {
      var m, bit := MulTop(y, z, n - 1), BitOf(z, 8 - n);
      MulAssociatesTop(x, y, z, n - 1);
      MulCommutes(x, Double(m));
      MulTopDouble(m, x, 8);
      MulCommutes(m, x);
      MulDistributes(Double(m), Times(bit, y), x);
      MulByZero(x);
    }
  }

  lemma MulAssociates(x: Byte, y: Byte, z: Byte)
    ensures Mul(Mul(x, y), z) == Mul(x, Mul(y, z))
  {
    MulAssociatesTop(x, y, z, 8);
  }
}
