/** Byte-mode data codewords of the QR encoder, and the decoder that reads the
    payload back from them. */
module QrCodewords {
  import opened Common
  import opened XorArithmetic
  import opened Gf256
  import opened QrTables

  type Bits = seq<bool>

  /** The low `length` bits of `value`, most significant first. */
  function BitString(value: nat, length: nat): (bits: Bits)
    ensures |bits| == length
  {
    if length == 0 then [] else BitString(value / 2, length - 1) + [value % 2 == 1]
  }

  function BitsValue(bits: Bits): nat {
    if bits == [] then 0
    else 2 * BitsValue(bits[..|bits| - 1]) + (if bits[|bits| - 1] then 1 else 0)
  }

  function BytesBits(data: seq<Byte>): (bits: Bits)
    ensures |bits| == 8 * |data|
  {
    if data == [] then [] else BytesBits(data[..|data| - 1]) + BitString(data[|data| - 1], 8)
  }

  /** Mode indicator, character count, payload. */
  function Header(bytes: seq<Byte>, version: nat): (bits: Bits)
    ensures |bits| == 4 + CountBits(version) + 8 * |bytes|
  {
    BitString(4, 4) + BitString(|bytes|, CountBits(version)) + BytesBits(bytes)
  }

  function PadByte(i: nat): Byte {
    if i % 2 == 0 then 0xec else 0x11
  }

  function PadBits(count: nat): (bits: Bits)
    ensures |bits| == 8 * count
  {
    if count == 0 then [] else PadBits(count - 1) + BitString(PadByte(count - 1), 8)
  }

  /** The whole bit stream of `capacity` codewords. */
  function Stream(bytes: seq<Byte>, version: nat, capacity: nat): Bits
    requires 4 + CountBits(version) + 8 * |bytes| <= 8 * capacity
  {
    var used := (4 + CountBits(version) + 8 * |bytes| + 4) / 8;
    Header(bytes, version) + BitString(0, 4) + PadBits(capacity - used)
  }

  /** Reads the payload of a byte-mode symbol. */
  function ParseByteMode(codewords: seq<Byte>, version: nat): Option<seq<Byte>> {
    var bits, start := BytesBits(codewords), 4 + CountBits(version);
    if |bits| < start || BitsValue(bits[..4]) != 4 then None
    else
      var count := BitsValue(bits[4..start]);
      if |bits| < start + 8 * count then None
      else Some(Payload(bits, start, count))
  }

  function Payload(bits: Bits, start: nat, count: nat): (bytes: seq<Byte>)
    requires start + 8 * count <= |bits|
    ensures |bytes| == count
    ensures forall i :: 0 <= i < count ==> bytes[i] == ByteAt(bits, start + 8 * i)
  {
    seq(count, i requires 0 <= i < count => ByteAt(bits, start + 8 * i))
  }

  function ByteAt(bits: Bits, from: nat): Byte
    requires from + 8 <= |bits|
  {
    BitsValueBound(bits[from..from + 8]);
    Pow2Values();
    BitsValue(bits[from..from + 8])
  }

  // ---- Bits and numbers -----------------------------------------------------------

  lemma {:induction false} BitsValueBound(bits: Bits)
    ensures BitsValue(bits) < Pow2(|bits|)
  {
    if bits != [] {
      BitsValueBound(bits[..|bits| - 1]);
    }
  }

  lemma {:induction false} ValueOfBitString(value: nat, length: nat)
    requires value < Pow2(length)
    ensures BitsValue(BitString(value, length)) == value
  {
    if length > 0 {
      var front := BitString(value / 2, length - 1);
      assert (front + [value % 2 == 1])[..length - 1] == front;
      ValueOfBitString(value / 2, length - 1);
    }
  }

  lemma {:induction false} BitStringOfValue(bits: Bits)
    ensures BitString(BitsValue(bits), |bits|) == bits
  {
    if bits != [] {
      BitStringOfValue(bits[..|bits| - 1]);
    }
  }

  lemma SliceOfSlice<T>(s: seq<T>, a: nat, b: nat, c: nat, d: nat)
    requires a <= b <= |s| && c <= d <= b - a
    ensures s[a..b][c..d] == s[a + c..a + d]
  {
    var left, right := s[a..b][c..d], s[a + c..a + d];
    assert |left| == |right|;
    assert forall i :: 0 <= i < |left| ==> left[i] == s[a + c + i] == right[i];
  }

  lemma {:induction false} BytesBitsAt(data: seq<Byte>, i: nat)
    requires i < |data|
    ensures BytesBits(data)[8 * i..8 * i + 8] == BitString(data[i], 8)
  {
    if i < |data| - 1 {
      var front := data[..|data| - 1];
      hide BitString;
      BytesBitsAt(front, i);
      SliceOfSlice(BytesBits(data), 0, 8 * |front|, 8 * i, 8 * i + 8);
      assert BytesBits(data)[0..8 * |front|] == BytesBits(front);
    }
  }

  lemma {:induction false} BytesBitsAppend(a: seq<Byte>, b: seq<Byte>)
    ensures BytesBits(a + b) == BytesBits(a) + BytesBits(b)
  {
    hide BitString;
    if b == [] {
      assert a + b == a;
    } else {
      var front := b[..|b| - 1];
      BytesBitsAppend(a, front);
      assert (a + b)[..|a + b| - 1] == a + front;
    }
  }

  /** Whatever follows the header, the payload is read back. */
  lemma ParseHeader(bytes: seq<Byte>, version: nat, codewords: seq<Byte>, rest: Bits)
    requires |bytes| < Pow2(CountBits(version))
    requires BytesBits(codewords) == Header(bytes, version) + rest
    ensures ParseByteMode(codewords, version) == Some(bytes)
  {
    HeaderParts(bytes, version);
    hide *;
    var bits, start := BytesBits(codewords), 4 + CountBits(version);
    Pow2Values();
    assert bits[..4] == BitString(4, 4);
    ValueOfBitString(4, 4);
    assert bits[4..start] == BitString(|bytes|, CountBits(version));
    ValueOfBitString(|bytes|, CountBits(version));
    assert bits[start..start + 8 * |bytes|] == BytesBits(bytes);
    ReadBack(bytes, bits, start);
    ParsePayload(codewords, version);
  }

  lemma ReadBack(bytes: seq<Byte>, bits: Bits, start: nat)
    requires start + 8 * |bytes| <= |bits| && bits[start..start + 8 * |bytes|] == BytesBits(bytes)
    ensures Payload(bits, start, |bytes|) == bytes
  {
    hide *;
    forall i | 0 <= i < |bytes|
      ensures ByteAt(bits, start + 8 * i) == bytes[i]
    {
      ByteBack(bytes, bits, start, i);
    }
  }

  lemma ByteBack(bytes: seq<Byte>, bits: Bits, start: nat, i: nat)
    requires i < |bytes|
    requires start + 8 * |bytes| <= |bits| && bits[start..start + 8 * |bytes|] == BytesBits(bytes)
    ensures ByteAt(bits, start + 8 * i) == bytes[i]
  {
    hide BitsValue, BitString, BytesBits;
    BytesBitsAt(bytes, i);
    SliceOfSlice(bits, start, start + 8 * |bytes|, 8 * i, 8 * i + 8);
    Pow2Values();
    ValueOfBitString(bytes[i], 8);
  }

  lemma ParsePayload(codewords: seq<Byte>, version: nat)
    requires var bits, start := BytesBits(codewords), 4 + CountBits(version);
             |bits| >= start && BitsValue(bits[..4]) == 4 && |bits| >= start + 8 * BitsValue(bits[4..start])
    ensures var bits, start := BytesBits(codewords), 4 + CountBits(version);
            ParseByteMode(codewords, version) == Some(Payload(bits, start, BitsValue(bits[4..start])))
  {
    hide BitsValue, BytesBits, Payload;
  }

  // ---- The encoder ------------------------------------------------------------------

  method AppendBits(bits: Bits, value: nat, length: nat) returns (result: Bits)
    ensures result == bits + BitString(value, length)
  {
    result := bits;
    for i := length downto 0
      invariant result == bits + BitString(ShiftRight(value, i), length - i)
    {
      ShiftRightMore(value, i);
      result := result + [ShiftRight(value, i) % 2 == 1];
    }
  }

  method PackByte(bits: Bits, i: nat) returns (byte: nat)
    requires i + 8 <= |bits|
    ensures byte < 256 && BitString(byte, 8) == bits[i..i + 8]
  {
    byte := 0;
    for j := 0 to 8
      invariant byte == BitsValue(bits[i..i + j])
    {
      assert bits[i..i + j + 1][..j] == bits[i..i + j];
      byte := 2 * byte + (if bits[i + j] then 1 else 0);
    }
    BitsValueBound(bits[i..i + 8]);
    Pow2Values();
    BitStringOfValue(bits[i..i + 8]);
  }

  method PackBits(bits: Bits) returns (result: seq<Byte>)
    requires |bits| % 8 == 0
    ensures BytesBits(result) == bits
  {
    hide BitString, BytesBits;
    result := [];
    var i := 0;
    assert BytesBits(result) == bits[..i];
    while i < |bits|
      invariant 0 <= i <= |bits| && i % 8 == 0
      invariant BytesBits(result) == bits[..i]
    {
      var byte := PackByte(bits, i);
      BytesBitsSnoc(result, byte);
      assert bits[..i + 8] == bits[..i] + bits[i..i + 8];
      result := result + [byte];
      i := i + 8;
    }
    assert bits[..i] == bits;
  }

  method AppendBytes(bits: Bits, bytes: seq<Byte>) returns (result: Bits)
    ensures result == bits + BytesBits(bytes)
  {
    hide BitString;
    result := bits;
    for k := 0 to |bytes|
      invariant result == bits + BytesBits(bytes[..k])
    {
      BytesBitsSnoc(bytes[..k], bytes[k]);
      assert bytes[..k + 1] == bytes[..k] + [bytes[k]];
      result := AppendBits(result, bytes[k], 8);
    }
    assert bytes[..|bytes|] == bytes;
  }

  method AppendPads(bits: Bits, capacityBits: nat) returns (result: Bits)
    requires |bits| <= capacityBits && |bits| % 8 == 0 && capacityBits % 8 == 0
    ensures result == bits + PadBits((capacityBits - |bits|) / 8)
  {
    hide BitString, Xor;
    result := bits;
    var pad: nat := 0xec;
    ghost var count := 0;
    while |result| < capacityBits
      invariant |result| == |bits| + 8 * count <= capacityBits
      invariant result == bits + PadBits(count)
      invariant pad == PadByte(count)
      decreases capacityBits - |result|
    {
      result := AppendBits(result, pad, 8);
      PadToggles(count);
      pad := Xor(pad, Xor(0xec, 0x11));
      count := count + 1;
    }
  }

  method ByteModeCodewords(bytes: seq<Byte>, version: nat, ecc: Ecc) returns (r: Result<seq<Byte>, string>)
    requires 1 <= version <= 40
    ensures r.Ok? <==> 4 + CountBits(version) + 8 * |bytes| <= 8 * NumDataCodewords(version, ecc)
    ensures r.Ok? ==> BytesBits(r.value) == Stream(bytes, version, NumDataCodewords(version, ecc))
    ensures r.Ok? ==> |r.value| == NumDataCodewords(version, ecc)
  {
    hide *;
    r := CodewordsFor(bytes, version, NumDataCodewords(version, ecc));
  }

  method CodewordsFor(bytes: seq<Byte>, version: nat, capacity: int) returns (r: Result<seq<Byte>, string>)
    ensures r.Ok? <==> 4 + CountBits(version) + 8 * |bytes| <= 8 * capacity
    ensures r.Ok? ==> BytesBits(r.value) == Stream(bytes, version, capacity)
    ensures r.Ok? ==> |r.value| == capacity
  {
    hide *;
    var capacityBits := capacity * 8;
    var bits := AppendBits([], 4, 4);
    bits := AppendBits(bits, |bytes|, CountBits(version));
    bits := AppendBytes(bits, bytes);
    HeaderParts(bytes, version);
    if |bits| > capacityBits {
      return Err("data too long for this version");
    }
    StreamParts(bytes, version, capacity);
    bits := AppendBits(bits, 0, if capacityBits - |bits| < 4 then capacityBits - |bits| else 4);
    bits := AppendBits(bits, 0, (8 - |bits| % 8) % 8);
    bits := AppendPads(bits, capacityBits);
    var result := PackBits(bits);
    r := Ok(result);
  }

  lemma HeaderParts(bytes: seq<Byte>, version: nat)
    ensures Header(bytes, version) == BitString(4, 4) + BitString(|bytes|, CountBits(version)) + BytesBits(bytes)
    ensures |Header(bytes, version)| == 4 + CountBits(version) + 8 * |bytes|
    ensures |Header(bytes, version)| % 8 == 4
  {
    hide BitString, BytesBits;
  }

  lemma StreamParts(bytes: seq<Byte>, version: nat, capacity: nat)
    requires |Header(bytes, version)| <= 8 * capacity
    ensures 4 + CountBits(version) + 8 * |bytes| <= 8 * capacity
    ensures var before := Header(bytes, version) + BitString(0, 4);
            |before| <= 8 * capacity && |before| % 8 == 0 &&
            Stream(bytes, version, capacity) == before + PadBits((8 * capacity - |before|) / 8)
  {
    HeaderParts(bytes, version);
    hide BitString, BytesBits, Header, PadBits;
  }

  lemma BytesBitsSnoc(data: seq<Byte>, byte: Byte)
    ensures BytesBits(data + [byte]) == BytesBits(data) + BitString(byte, 8)
  {
    assert (data + [byte])[..|data|] == data;
  }

  lemma PadToggles(i: nat)
    ensures Xor(PadByte(i), Xor(0xec, 0x11)) == PadByte(i + 1)
  {
    hide Xor;
    XorCancel(0xec, 0x11);
    XorComm(0xec, 0x11);
    XorCancel(0x11, 0xec);
  }

  lemma StreamRoundTrip(bytes: seq<Byte>, version: nat, capacity: nat, codewords: seq<Byte>)
    requires |bytes| < Pow2(CountBits(version))
    requires 4 + CountBits(version) + 8 * |bytes| <= 8 * capacity
    requires BytesBits(codewords) == Stream(bytes, version, capacity)
    ensures ParseByteMode(codewords, version) == Some(bytes)
  {
    hide *;
    var before := Header(bytes, version) + BitString(0, 4);
    HeaderParts(bytes, version);
    StreamParts(bytes, version, capacity);
    var pads := PadBits((8 * capacity - |before|) / 8);
    assert BytesBits(codewords) == Header(bytes, version) + (BitString(0, 4) + pads);
    ParseHeader(bytes, version, codewords, BitString(0, 4) + pads);
  }

  /** Every payload that fits is read back from its codewords. */
  lemma ByteModeRoundTrip(bytes: seq<Byte>, version: nat, ecc: Ecc, codewords: seq<Byte>)
    requires 1 <= version <= 40
    requires 4 + CountBits(version) + 8 * |bytes| <= 8 * NumDataCodewords(version, ecc)
    requires BytesBits(codewords) == Stream(bytes, version, NumDataCodewords(version, ecc))
    ensures ParseByteMode(codewords, version) == Some(bytes)
  {
    hide *;
    CountFits(|bytes|, version, ecc);
    StreamRoundTrip(bytes, version, NumDataCodewords(version, ecc), codewords);
  }

  lemma CountFits(count: nat, version: nat, ecc: Ecc)
    requires 1 <= version <= 40
    requires 4 + CountBits(version) + 8 * count <= 8 * NumDataCodewords(version, ecc)
    ensures count < Pow2(CountBits(version)) && NumDataCodewords(version, ecc) >= 0
  {
    TablesSound(version, ecc);
    hide NumDataCodewords;
    Pow2Values();
  }

  // ---- The codewords by hexadecimal digits -----------------------------------------------------------

  /** The `k`-th hexadecimal digit of the codewords. */
  function Digit(codewords: seq<Byte>, k: nat): nat
    requires k < 2 * |codewords|
  {
    if k % 2 == 0 then codewords[k / 2] / 16 else codewords[k / 2] % 16
  }

  /** The four low bits. */
  function FourBits(value: nat): Bits {
    [value / 8 % 2 == 1, value / 4 % 2 == 1, value / 2 % 2 == 1, value % 2 == 1]
  }

  lemma LowFour(value: nat, length: nat)
    ensures BitString(value, length + 4) == BitString(value / 16, length) + FourBits(value)
  {
    BitStringLast(value, length + 3);
    BitStringLast(value / 2, length + 2);
    BitStringLast(value / 4, length + 1);
    BitStringLast(value / 8, length);
    hide BitString;
    assert value / 2 / 2 == value / 4 && value / 4 / 2 == value / 8 && value / 8 / 2 == value / 16;
  }

  lemma SameFour(value: nat)
    ensures FourBits(value) == FourBits(value % 16) && value % 16 / 16 == 0
  {
    var high, low := value / 16, value % 16;
    assert value == 16 * high + low;
    assert value / 2 == 2 * (4 * high) + low / 2 && value / 4 == 2 * (2 * high) + low / 4
        && value / 8 == 2 * high + low / 8;
    EvenLess(8 * high, low);
    EvenLess(4 * high, low / 2);
    EvenLess(2 * high, low / 4);
    EvenLess(high, low / 8);
  }

  lemma EvenLess(x: nat, y: nat)
    ensures (2 * x + y) % 2 == y % 2
  {}

  lemma Middle<T>(a: seq<T>, b: seq<T>, c: seq<T>)
    ensures (a + b + c)[|a|..|a| + |b|] == b && a + b + c == a + (b + c)
  {}

  lemma LowDigit(value: nat, length: nat)
    ensures BitString(value, length + 4) == BitString(value / 16, length) + BitString(value % 16, 4)
  {
    hide *;
    LowFour(value, length);
    LowFour(value % 16, 0);
    SameFour(value);
    BitStringLast(value % 16 / 16, 0);
    assert [] + FourBits(value) == FourBits(value);
  }

  lemma BitStringLast(value: nat, length: nat)
    ensures BitString(value, length + 1) == BitString(value / 2, length) + [value % 2 == 1]
    ensures BitString(value, 0) == []
  {}

  lemma SameString(v: nat, w: nat, length: nat)
    requires v < Pow2(length) && w < Pow2(length) && BitString(v, length) == BitString(w, length)
    ensures v == w
  {
    ValueOfBitString(v, length);
    ValueOfBitString(w, length);
    hide BitString;
  }

  lemma DigitBits(codewords: seq<Byte>, k: nat)
    requires k < 2 * |codewords|
    ensures BytesBits(codewords)[4 * k..4 * k + 4] == BitString(Digit(codewords, k), 4)
    ensures Digit(codewords, k) < 16
  {
    DigitAt(codewords, k / 2);
    hide *;
    assert k == 2 * (k / 2) || k == 2 * (k / 2) + 1;
  }

  lemma DigitsOf(codewords: seq<Byte>, i: nat)
    requires i < |codewords|
    ensures Digit(codewords, 2 * i) == codewords[i] / 16 < 16 && Digit(codewords, 2 * i + 1) == codewords[i] % 16
  {}

  lemma Halved(a: Bits, b: Bits)
    requires |a| == 4 && |b| == 4
    ensures (a + b)[0..4] == a && (a + b)[4..8] == b
  {}

  lemma DigitAt(codewords: seq<Byte>, i: nat)
    requires i < |codewords|
    ensures BytesBits(codewords)[8 * i..8 * i + 4] == BitString(Digit(codewords, 2 * i), 4)
    ensures BytesBits(codewords)[8 * i + 4..8 * i + 8] == BitString(Digit(codewords, 2 * i + 1), 4)
    ensures Digit(codewords, 2 * i) < 16 && Digit(codewords, 2 * i + 1) < 16
  {
    hide *;
    var byte: nat := codewords[i];
    DigitsOf(codewords, i);
    BytesBitsAt(codewords, i);
    LowDigit(byte, 4);
    var bits := BytesBits(codewords);
    Halved(BitString(byte / 16, 4), BitString(byte % 16, 4));
    SliceOfSlice(bits, 8 * i, 8 * i + 8, 0, 4);
    SliceOfSlice(bits, 8 * i, 8 * i + 8, 4, 8);
  }

  /** Four bits of the stream at a digit's place are that digit. */
  lemma DigitIs(codewords: seq<Byte>, k: nat, digit: nat)
    requires k < 2 * |codewords| && digit < 16
    requires BytesBits(codewords)[4 * k..4 * k + 4] == BitString(digit, 4)
    ensures Digit(codewords, k) == digit
  {
    DigitBits(codewords, k);
    Pow2Values();
    SameString(Digit(codewords, k), digit, 4);
    hide BytesBits, BitString, Digit;
  }

  lemma EightBits(n: nat)
    ensures BitString(n, 8) == BitString(n / 16 % 16, 4) + BitString(n % 16, 4)
  {
    hide *;
    LowDigit(n, 4);
    LowDigit(n / 16, 0);
    BitStringLast(n / 16 / 16, 0);
    assert [] + BitString(n / 16 % 16, 4) == BitString(n / 16 % 16, 4);
  }

  lemma SixteenBits(n: nat)
    ensures BitString(n, 16) == BitString(n / 4096 % 16, 4) + BitString(n / 256 % 16, 4) + BitString(n / 16 % 16, 4)
        + BitString(n % 16, 4)
  {
    hide *;
    LowDigit(n, 12);
    LowDigit(n / 16, 8);
    EightBits(n / 256);
    assert n / 16 / 16 == n / 256 && n / 256 / 16 == n / 4096;
  }

  /** A 4, and the length in two digits or in four. */
  predicate StartsWith(codewords: seq<Byte>, version: nat, n: nat) {
    && |codewords| > (if version <= 9 then 1 else 2) && Digit(codewords, 0) == 4
    && n == (if version <= 9 then 16 * Digit(codewords, 1) + Digit(codewords, 2)
             else 4096 * Digit(codewords, 1) + 256 * Digit(codewords, 2) + 16 * Digit(codewords, 3)
                  + Digit(codewords, 4))
  }

  /** The digits of the payload from place `h` on, and a 0. */
  ghost predicate Carries(codewords: seq<Byte>, h: nat, bytes: seq<Byte>) {
    && h + 2 * |bytes| < 2 * |codewords|
    && (forall m :: 0 <= m < 2 * |bytes| ==> Digit(codewords, h + m) == Digit(bytes, m))
    && Digit(codewords, h + 2 * |bytes|) == 0
  }

  /** The two pad bytes in turn to the end. */
  ghost predicate PaddedFrom(codewords: seq<Byte>, start: nat) {
    forall i :: start <= i < |codewords| ==> codewords[i] == if (i - start) % 2 == 0 then 0xec else 0x11
  }

  lemma StreamStarts(codewords: seq<Byte>, version: nat, n: nat, rest: Bits)
    requires BytesBits(codewords) == BitString(4, 4) + (BitString(n, CountBits(version)) + rest)
    requires n < Pow2(CountBits(version)) && |codewords| > if version <= 9 then 1 else 2
    ensures StartsWith(codewords, version, n)
  {
    hide BytesBits, BitString, Digit, Pow2;
    CountIs(version);
    var lead := BitString(n, CountBits(version));
    FirstDigit(codewords, lead + rest);
    Middle(BitString(4, 4), lead, rest);
    LengthDigits(n, version);
    if version <= 9 { ShortLength(codewords, n, rest); } else { LongLength(codewords, n, rest); }
    hide CountBits;
  }

  lemma StreamCarries(bytes: seq<Byte>, h: nat, codewords: seq<Byte>, before: Bits, zero: Bits, pads: Bits)
    requires BytesBits(codewords) == before + BytesBits(bytes) + zero + pads
    requires |before| == 4 * h && zero == BitString(0, 4)
    ensures Carries(codewords, h, bytes)
  {
    hide BytesBits, BitString, Digit;
    var body := BytesBits(bytes);
    Middle(before + body, zero, pads);
    Middle(before, body, zero + pads);
    BitsCount(codewords);
    BitsCount(bytes);
    PayloadDigits(codewords, bytes, h, before, zero + pads);
    LastDigit(codewords, h + 2 * |bytes|, before + body, pads);
  }

  /** The parts of the stream, digit by digit. */
  lemma StreamDigits(bytes: seq<Byte>, version: nat, codewords: seq<Byte>, pads: Bits)
    requires BytesBits(codewords) == Header(bytes, version) + BitString(0, 4) + pads
    requires |bytes| < Pow2(CountBits(version)) && |codewords| > if version <= 9 then 1 else 2
    ensures StartsWith(codewords, version, |bytes|)
    ensures Carries(codewords, if version <= 9 then 3 else 5, bytes)
  {
    hide *;
    HeaderParts(bytes, version);
    CountIs(version);
    var mode, lead, body, zero := BitString(4, 4), BitString(|bytes|, CountBits(version)), BytesBits(bytes),
        BitString(0, 4);
    Middle(mode + lead, body, zero);
    Middle(mode + lead, body, zero + pads);
    Middle(mode + lead + body, zero, pads);
    Middle(mode, lead, body + (zero + pads));
    StreamStarts(codewords, version, |bytes|, body + (zero + pads));
    StreamCarries(bytes, if version <= 9 then 3 else 5, codewords, mode + lead, zero, pads);
  }

  lemma CountIs(version: nat)
    ensures CountBits(version) == if version <= 9 then 8 else 16
  {}

  lemma BitsCount(codewords: seq<Byte>)
    ensures |BytesBits(codewords)| == 8 * |codewords|
  {
    hide *;
  }

  lemma FirstDigit(codewords: seq<Byte>, rest: Bits)
    requires BytesBits(codewords) == BitString(4, 4) + rest && |codewords| > 0
    ensures Digit(codewords, 0) == 4
  {
    hide *;
    assert BytesBits(codewords)[4 * 0..4 * 0 + 4] == BitString(4, 4);
    DigitIs(codewords, 0, 4);
  }

  lemma ShortLength(codewords: seq<Byte>, n: nat, rest: Bits)
    requires BytesBits(codewords) == BitString(4, 4) + BitString(n, 8) + rest && |codewords| > 1
    ensures Digit(codewords, 1) == n / 16 % 16 && Digit(codewords, 2) == n % 16
  {
    hide *;
    EightBits(n);
    var bits := BytesBits(codewords);
    assert bits[4 * 1..4 * 1 + 4] == BitString(n / 16 % 16, 4) && bits[4 * 2..4 * 2 + 4] == BitString(n % 16, 4);
    DigitIs(codewords, 1, n / 16 % 16);
    DigitIs(codewords, 2, n % 16);
  }

  lemma LongLength(codewords: seq<Byte>, n: nat, rest: Bits)
    requires BytesBits(codewords) == BitString(4, 4) + BitString(n, 16) + rest && |codewords| > 2
    ensures Digit(codewords, 1) == n / 4096 % 16 && Digit(codewords, 2) == n / 256 % 16
    ensures Digit(codewords, 3) == n / 16 % 16 && Digit(codewords, 4) == n % 16
  {
    hide *;
    SixteenBits(n);
    var bits := BytesBits(codewords);
    assert bits[4 * 1..4 * 1 + 4] == BitString(n / 4096 % 16, 4);
    assert bits[4 * 2..4 * 2 + 4] == BitString(n / 256 % 16, 4);
    assert bits[4 * 3..4 * 3 + 4] == BitString(n / 16 % 16, 4) && bits[4 * 4..4 * 4 + 4] == BitString(n % 16, 4);
    DigitIs(codewords, 1, n / 4096 % 16);
    DigitIs(codewords, 2, n / 256 % 16);
    DigitIs(codewords, 3, n / 16 % 16);
    DigitIs(codewords, 4, n % 16);
  }

  lemma PayloadDigits(codewords: seq<Byte>, bytes: seq<Byte>, h: nat, before: Bits, rest: Bits)
    requires BytesBits(codewords) == before + BytesBits(bytes) + rest && |before| == 4 * h
    ensures h + 2 * |bytes| <= 2 * |codewords|
    ensures forall m :: 0 <= m < 2 * |bytes| ==> Digit(codewords, h + m) == Digit(bytes, m)
  {
    hide *;
    var bits := BytesBits(codewords);
    BitsCount(codewords);
    BitsCount(bytes);
    Middle(before, BytesBits(bytes), rest);
    forall m | 0 <= m < 2 * |bytes|
      ensures Digit(codewords, h + m) == Digit(bytes, m)
    {
      PayloadDigit(codewords, bytes, h, m);
    }
  }

  lemma PayloadDigit(codewords: seq<Byte>, bytes: seq<Byte>, h: nat, m: nat)
    requires h + 2 * |bytes| <= 2 * |codewords| && m < 2 * |bytes|
    requires BytesBits(codewords)[4 * h..4 * h + 8 * |bytes|] == BytesBits(bytes)
    ensures Digit(codewords, h + m) == Digit(bytes, m)
  {
    hide *;
    DigitBits(bytes, m);
    SliceOfSlice(BytesBits(codewords), 4 * h, 4 * h + 8 * |bytes|, 4 * m, 4 * m + 4);
    assert 4 * h + 4 * m == 4 * (h + m);
    DigitIs(codewords, h + m, Digit(bytes, m));
  }

  lemma LastDigit(codewords: seq<Byte>, end: nat, before: Bits, pads: Bits)
    requires BytesBits(codewords) == before + (BitString(0, 4) + pads) && |before| == 4 * end
    ensures end < 2 * |codewords| && Digit(codewords, end) == 0
  {
    hide *;
    var bits := BytesBits(codewords);
    assert |bits| == 8 * |codewords|;
    assert bits[4 * end..4 * end + 4] == BitString(0, 4);
    DigitIs(codewords, end, 0);
  }

  lemma {:induction false} PadBitsAt(count: nat, i: nat)
    requires i < count
    ensures PadBits(count)[8 * i..8 * i + 8] == BitString(if i % 2 == 0 then 0xec else 0x11, 8)
  {
    hide BitString;
    var front := PadBits(count - 1);
    if i < count - 1 {
      PadBitsAt(count - 1, i);
      assert PadBits(count)[8 * i..8 * i + 8] == front[8 * i..8 * i + 8];
    }
  }

  lemma CodewordIs(codewords: seq<Byte>, i: nat, byte: Byte)
    requires i < |codewords| && BytesBits(codewords)[8 * i..8 * i + 8] == BitString(byte, 8)
    ensures codewords[i] == byte
  {
    BytesBitsAt(codewords, i);
    Pow2Values();
    SameString(codewords[i], byte, 8);
    hide BytesBits, BitString;
  }

  /** The codewords in hexadecimal: a 4 for byte mode, the length in two digits up to version 9 and in four above,
      the digits of the payload, a 0, and then 0xEC and 0x11 in turn to the end. */
  lemma ByteModeDigits(bytes: seq<Byte>, version: nat, ecc: Ecc, codewords: seq<Byte>)
    requires 1 <= version <= 40
    requires 4 + CountBits(version) + 8 * |bytes| <= 8 * NumDataCodewords(version, ecc)
    requires BytesBits(codewords) == Stream(bytes, version, NumDataCodewords(version, ecc))
    ensures StartsWith(codewords, version, |bytes|) && Carries(codewords, if version <= 9 then 3 else 5, bytes)
    ensures PaddedFrom(codewords, |bytes| + if version <= 9 then 2 else 3)
  {
    hide *;
    var capacity, h := NumDataCodewords(version, ecc), if version <= 9 then 3 else 5;
    var before := Header(bytes, version) + BitString(0, 4);
    CountFits(|bytes|, version, ecc);
    StreamParts(bytes, version, capacity);
    HeaderParts(bytes, version);
    CountIs(version);
    Pow2Values();
    var count := (8 * capacity - |before|) / 8;
    var pads, start := PadBits(count), (h + 1) / 2 + |bytes|;
    assert |before| == 8 * start;
    BitsCount(codewords);
    assert |pads| == 8 * count;
    StreamDigits(bytes, version, codewords, pads);
    PadsFollow(codewords, start, before, count);
  }

  lemma PadsFollow(codewords: seq<Byte>, start: nat, before: Bits, count: nat)
    requires BytesBits(codewords) == before + PadBits(count) && |before| == 8 * start
    ensures PaddedFrom(codewords, start)
  {
    hide BytesBits, BitString, PadBits;
    var bits := BytesBits(codewords);
    assert |bits| == 8 * |codewords| && |PadBits(count)| == 8 * count;
    assert bits[8 * start..8 * start + 8 * count] == PadBits(count);
    forall i | start <= i < |codewords|
      ensures codewords[i] == if (i - start) % 2 == 0 then 0xec else 0x11
    {
      PadBitsAt(count, i - start);
      SliceOfSlice(bits, 8 * start, 8 * start + 8 * count, 8 * (i - start), 8 * (i - start) + 8);
      assert 8 * start + 8 * (i - start) == 8 * i;
      CodewordIs(codewords, i, if (i - start) % 2 == 0 then 0xec else 0x11);
    }
  }

  lemma LengthDigits(n: nat, version: nat)
    requires n < Pow2(CountBits(version))
    ensures version <= 9 ==> n == 16 * (n / 16 % 16) + n % 16
    ensures version > 9 ==> n == 4096 * (n / 4096 % 16) + 256 * (n / 256 % 16) + 16 * (n / 16 % 16) + n % 16
  {
    Pow2Values();
    assert n / 16 / 16 == n / 256 && n / 256 / 16 == n / 4096;
  }
}
