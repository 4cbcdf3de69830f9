/** The QR encoder end to end, and a decoder that gets the payload back from the
    finished matrix alone. */
module QrEncode {
  import opened Common
  import opened XorArithmetic
  import opened Gf256
  import opened QrTables
  import opened QrCodewords
  import opened QrBlocks
  import opened QrFormat
  import opened QrMatrix

  /** What the drawing of the fixed patterns leaves: the modules drawn so far and
      which of them are reserved. */
  datatype Pattern = Pattern(modules: Grid, isFunction: Grid)

  /** The reserved modules include the format modules, and leave room for every raw
      codeword of the version. */
  ghost predicate Usable(pattern: Pattern, version: nat): (usable: bool)
    ensures usable ==> AllInside(Zigzag(Size(version)), Size(version))
  {
    var size := Size(version);
    && version >= 1
    && Square(pattern.modules, size) && Square(pattern.isFunction, size)
    && (forall k :: 0 <= k < 31 ==> At(pattern.isFunction, FormatCell(size, k), size))
    && (ZigzagInside(version);
        |Read(pattern.modules, pattern.isFunction, size, Zigzag(size))| >= 8 * RawCodewords(version))
  }

  lemma ZigzagInside(version: nat)
    requires version >= 1
    ensures AllInside(Zigzag(Size(version)), Size(version))
  {
    OddSize(version);
    hide *;
    ZigzagStaysInside(Size(version));
  }

  datatype QrCode = QrCode(version: nat, size: nat, ecc: Ecc, mask: nat, modules: Grid)

  // ---- The decoder ------------------------------------------------------------------------

  /** Reads the payload from the matrix: level and mask from the format modules, whose check bits must be right, then
      unmask, zigzag, de-interleave, check every block, drop the check symbols, parse. */
  function Decode(modules: Grid, isFunction: Grid, version: nat): Option<seq<Byte>>
    requires 1 <= version <= 40
    requires Square(modules, Size(version)) && Square(isFunction, Size(version))
  {
    ZigzagInside(version);
    var size := Size(version);
    var word := ReadFormat(modules, size, 15);
    var format := Xor(word, 0x5412) / 1024;
    var plain := MaskedGrid(modules, isFunction, size, format % 8);
    var bits := Read(plain, isFunction, size, Zigzag(size));
    if !IsFormat(word) || RawCodewords(version) < 0 || |bits| < 8 * RawCodewords(version) then None
    else DecodeCodewords(Payload(bits, 0, RawCodewords(version)), version, EccOfLevel(format / 8))
  }

  function DecodeCodewords(all: seq<Byte>, version: nat, ecc: Ecc): Option<seq<Byte>>
    requires 1 <= version <= 40 && |all| == RawCodewords(version)
  {
    var layout := LayoutOf(version, ecc);
    AllTransmitted(layout);
    if Intact(all, layout) then ParseByteMode(Deinterleave(all, layout, layout.blocks), version) else None
  }

  // ---- The symbol being built ---------------------------------------------------------------

  class Builder {
    const version: nat
    const ecc: Ecc
    const size: nat
    var modules: Grid
    var isFunction: Grid

    ghost predicate Valid()
      reads this
    {
      && 1 <= version <= 40 && size == Size(version)
      && Square(modules, size) && Square(isFunction, size)
      && forall k :: 0 <= k < 31 ==> At(isFunction, FormatCell(size, k), size)
    }

    constructor (version: nat, ecc: Ecc, pattern: Pattern)
      requires 1 <= version <= 40 && Usable(pattern, version)
      ensures this.version == version && this.ecc == ecc && Valid()
      ensures modules == pattern.modules && isFunction == pattern.isFunction
    {
      this.version, this.ecc, this.size := version, ecc, Size(version);
      this.modules, this.isFunction := pattern.modules, pattern.isFunction;
    }

    method Set(x: int, y: int, dark: bool)
      requires Square(modules, size) && Square(isFunction, size) && Inside(Point(x, y), size)
      modifies this
      ensures modules == Put(old(modules), Point(x, y), dark, size)
      ensures isFunction == Put(old(isFunction), Point(x, y), true, size)
    {
      modules := modules[y := modules[y][x := dark]];
      isFunction := isFunction[y := isFunction[y][x := true]];
    }

    /** One format module; it is reserved already. */
    method SetFormat(ghost g: Grid, word: nat, k: nat, x: int, y: int, dark: bool)
      requires k < 31 && FormatDrawn(g, word, k)
      requires FormatCell(size, k) == Point(x, y) && FormatDark(word, k) == dark
      modifies this
      ensures isFunction == old(isFunction) && FormatDrawn(g, word, k + 1)
    {
      Set(x, y, dark);
      SameGrid(isFunction, old(isFunction), size);
    }

    ghost predicate FormatDrawn(g: Grid, word: nat, n: nat)
      reads this
    {
      Valid() && n <= 31 && Square(g, size) && modules == DrawFormat(g, size, word, n)
    }

    method DrawFormatBits(mask: nat)
      requires Valid() && mask < 8
      modifies this
      ensures Valid() && isFunction == old(isFunction)
      ensures modules == DrawFormat(old(modules), size, FormatWord(ecc, mask), 31)
    {
      ghost var g := modules;
      var bits := FormatBits(ecc, mask);
      assert FormatDrawn(g, bits, 0);
      DrawFirstCopy(bits, g);
      DrawSecondCopy(bits, g);
    }

    /** The copy around the first finder. */
    method DrawFirstCopy(bits: nat, ghost g: Grid)
      requires FormatDrawn(g, bits, 0)
      modifies this
      ensures isFunction == old(isFunction) && FormatDrawn(g, bits, 15)
    {
      hide *;
      for i := 0 to 6
        invariant isFunction == old(isFunction) && FormatDrawn(g, bits, i)
      {
        FormatCellStep(size, bits, i);
        SetFormat(g, bits, i, 8, i, BitOf(bits, i));
      }
      FormatCellStep(size, bits, 6);
      SetFormat(g, bits, 6, 8, 7, BitOf(bits, 6));
      FormatCellStep(size, bits, 7);
      SetFormat(g, bits, 7, 8, 8, BitOf(bits, 7));
      FormatCellStep(size, bits, 8);
      SetFormat(g, bits, 8, 7, 8, BitOf(bits, 8));
      for i := 9 to 15
        invariant isFunction == old(isFunction) && FormatDrawn(g, bits, i)
      {
        FormatCellStep(size, bits, i);
        SetFormat(g, bits, i, 14 - i, 8, BitOf(bits, i));
      }
    }

    /** The copy split between the other two finders, and the dark module. */
    method DrawSecondCopy(bits: nat, ghost g: Grid)
      requires FormatDrawn(g, bits, 15)
      modifies this
      ensures isFunction == old(isFunction) && FormatDrawn(g, bits, 31)
    {
      hide *;
      for i := 0 to 8
        invariant isFunction == old(isFunction) && FormatDrawn(g, bits, 15 + i)
      {
        FormatCellStep(size, bits, 15 + i);
        SetFormat(g, bits, 15 + i, size - 1 - i, 8, BitOf(bits, i));
      }
      for i := 8 to 15
        invariant isFunction == old(isFunction) && FormatDrawn(g, bits, 15 + i)
      {
        FormatCellStep(size, bits, 15 + i);
        SetFormat(g, bits, 15 + i, 8, size - 15 + i, BitOf(bits, i));
      }
      FormatCellStep(size, bits, 30);
      SetFormat(g, bits, 30, 8, size - 8, true);
    }

    /** The first `used` bits fill the free cells of `path`, starting from `g`. */
    ghost predicate Filled(g: Grid, bits: Bits, path: seq<Point>, used: nat)
      reads this
    {
      && Valid() && Square(g, size) && AllInside(path, size)
      && Written(modules, used) == Write(g, isFunction, size, path, bits)
    }

    /** The codewords fill the first `p` pairs of columns and `vert` rows of the next. */
    ghost predicate FilledTo(g: Grid, data: seq<Byte>, p: nat, vert: nat, used: nat)
      reads this
    {
      Filled(g, BytesBits(data), PathTo(size, p, vert), used)
    }

    method DrawCodewords(data: seq<Byte>)
      requires Valid()
      modifies this
      ensures Valid() && isFunction == old(isFunction) && AllInside(Zigzag(size), size)
      ensures modules == Write(old(modules), isFunction, size, Zigzag(size), BytesBits(data)).grid
    {
      ghost var g := modules;
      FilledStart(data);
      hide *;
      FillPairs(data, g);
      FilledEnd(g, data);
    }

    lemma FilledStart(data: seq<Byte>)
      requires Valid()
      ensures FilledTo(modules, data, 0, 0, 0) && size % 2 == 1 && size >= 21
    {}

    lemma FilledEnd(g: Grid, data: seq<Byte>)
      requires exists i :: FilledTo(g, data, size / 2, 0, i)
      ensures Valid() && Square(g, size) && AllInside(Zigzag(size), size)
      ensures modules == Write(g, isFunction, size, Zigzag(size), BytesBits(data)).grid
    {
      assert PathTo(size, size / 2, 0) == Zigzag(size);
    }

    method FillPairs(data: seq<Byte>, ghost g: Grid)
      requires FilledTo(g, data, 0, 0, 0) && size % 2 == 1 && size >= 21
      modifies this
      ensures isFunction == old(isFunction) && exists i :: FilledTo(g, data, size / 2, 0, i)
    {
      hide *;
      ghost var p := 0;
      var i := 0;
      var right := size - 1;
      RightSteps(size, 0);
      while right >= 1
        invariant isFunction == old(isFunction) && FilledTo(g, data, p, 0, i)
        invariant 0 <= p <= size / 2 && right == RightBefore(size, p)
        invariant right >= 1 <==> p < size / 2
        decreases right
      {
        RightSteps(size, p);
        RightSteps(size, p + 1);
        if right == 6 {
          right := 5;
        }
        i := DrawPair(data, right, i, g, p);
        right := right - 2;
        p := p + 1;
      }
    }

    /** The two inner loops: fill one pair of columns. */
    method DrawPair(data: seq<Byte>, right: int, used: nat, ghost g: Grid, ghost p: nat) returns (i: nat)
      requires p < size / 2 && size % 2 == 1 && size >= 21 && right == Right(size, p)
      requires FilledTo(g, data, p, 0, used)
      modifies this
      ensures isFunction == old(isFunction) && FilledTo(g, data, p + 1, 0, i)
    {
      hide *;
      i := used;
      var vert := 0;
      while vert < size
        invariant 0 <= vert <= size && isFunction == old(isFunction) && FilledTo(g, data, p, vert, i)
      {
        i := DrawRow(data, right, vert, i, g, p);
        vert := vert + 1;
      }
      FilledRound(g, data, p, i);
    }

    lemma FilledRound(g: Grid, data: seq<Byte>, p: nat, used: nat)
      requires FilledTo(g, data, p, size, used)
      ensures FilledTo(g, data, p + 1, 0, used)
    {
      SweepGrows(size, p, size);
      SweepGrows(size, p + 1, 0);
    }

    method DrawRow(data: seq<Byte>, right: int, vert: nat, used: nat, ghost g: Grid, ghost p: nat) returns (i: nat)
      requires p < size / 2 && size % 2 == 1 && size >= 21 && right == Right(size, p) && vert < size
      requires FilledTo(g, data, p, vert, used)
      modifies this
      ensures isFunction == old(isFunction) && FilledTo(g, data, p, vert + 1, i)
    {
      SweepGrows(size, p, vert);
      hide Filled, PathTo, CellAt, Right;
      ghost var path := PathTo(size, p, vert);
      i := DrawCell(data, right, vert, 0, used, g, path, p);
      i := DrawCell(data, right, vert, 1, i, g, path + [CellAt(size, p, vert, 0)], p);
    }

    method DrawCell(data: seq<Byte>, right: int, vert: nat, j: nat, used: nat, ghost g: Grid, ghost path: seq<Point>,
        ghost p: nat)
      returns (i: nat)
      requires p < size / 2 && size % 2 == 1 && size >= 21 && right == Right(size, p) && vert < size && j < 2
      requires Filled(g, BytesBits(data), path, used)
      modifies this
      ensures isFunction == old(isFunction) && Filled(g, BytesBits(data), path + [CellAt(size, p, vert, j)], i)
    {
      i := used;
      var x := right - j;
      var upward := ((right + 1) / 2) % 2 == 0;
      var y := if upward then size - 1 - vert else vert;
      assert Point(x, y) == CellAt(size, p, vert, j) && Inside(Point(x, y), size);
      WriteSnoc(g, isFunction, size, path, Point(x, y), BytesBits(data));
      hide BytesBits, CellAt, Write, Right, Upward, FormatCell;
      if !isFunction[y][x] && i < |data| * 8 {
        BytesBitAt(data, i);
        modules := modules[y := modules[y][x := BitOf(data[i / 8], 7 - i % 8)]];
        i := i + 1;
      }
    }

    method ApplyMask(mask: nat)
      requires Valid() && mask < 8
      modifies this`modules
      ensures Valid() && Masked(old(modules), modules, isFunction, size, mask)
    {
      ghost var g := modules;
      for y := 0 to size
        invariant Valid()
        invariant forall c :: Inside(c, size) ==>
                    At(modules, c, size) == (At(g, c, size) != (c.y < y && Flips(isFunction, size, mask, c)))
      {
        for x := 0 to size
          invariant Valid()
          invariant forall c :: Inside(c, size) ==>
                      At(modules, c, size) == (At(g, c, size) != ((c.y < y || (c.y == y && c.x < x))
                          && Flips(isFunction, size, mask, c)))
        {
          assert Flips(isFunction, size, mask, Point(x, y)) == (!isFunction[y][x] && MaskApplies(mask, x, y));
          if !isFunction[y][x] && MaskApplies(mask, x, y) {
            modules := Put(modules, Point(x, y), !modules[y][x], size);
          }
        }
      }
    }
  }

  /** The loop variable before the skip of column 6. */
  function RightBefore(size: nat, p: nat): int {
    if p == 0 then size - 1 else Right(size, p - 1) - 2
  }

  lemma RightSteps(size: nat, p: nat)
    requires size % 2 == 1 && size >= 21 && p <= size / 2
    ensures RightBefore(size, 0) == size - 1 && RightBefore(size, p + 1) == Right(size, p) - 2
    ensures RightBefore(size, p) >= 1 <==> p < size / 2
    ensures Right(size, p) == if RightBefore(size, p) == 6 then 5 else RightBefore(size, p)
  {}

  /** The path when `vert` rows of pair `p` are filled. */
  function PathTo(size: nat, p: nat, vert: nat): seq<Point> {
    Path(size, p) + Sweep(size, p, vert)
  }

  lemma SweepGrows(size: nat, p: nat, vert: nat)
    ensures PathTo(size, p, 0) == Path(size, p) && PathTo(size, p, size) == Path(size, p + 1)
    ensures PathTo(size, p, vert + 1) == PathTo(size, p, vert) + [CellAt(size, p, vert, 0)] + [CellAt(size, p, vert, 1)]
  {
    hide CellAt;
  }

  lemma WriteSnoc(g: Grid, isFunction: Grid, size: nat, path: seq<Point>, c: Point, bits: Bits)
    requires Square(g, size) && Square(isFunction, size) && AllInside(path, size) && Inside(c, size)
    ensures AllInside(path + [c], size)
    ensures var before := Write(g, isFunction, size, path, bits);
            Write(g, isFunction, size, path + [c], bits) ==
            if !At(isFunction, c, size) && before.used < |bits|
            then Written(Put(before.grid, c, bits[before.used], size), before.used + 1) else before
  {
    assert (path + [c])[..|path|] == path;
  }

  lemma FormatCellStep(size: nat, word: nat, k: nat)
    requires k < 31
    ensures FormatCell(size, k) == (
      if k <= 5 then Point(8, k) else if k == 6 then Point(8, 7) else if k == 7 then Point(8, 8)
      else if k == 8 then Point(7, 8) else if k < 15 then Point(14 - k, 8)
      else if k < 23 then Point(size - 1 - (k - 15), 8) else if k < 30 then Point(8, size - 15 + (k - 15))
      else Point(8, size - 8))
    ensures FormatDark(word, k) == (if k < 15 then BitOf(word, k) else if k < 30 then BitOf(word, k - 15) else true)
  {}

  method FormatBits(ecc: Ecc, mask: nat) returns (bits: nat)
    requires mask < 8
    ensures bits == FormatWord(ecc, mask)
  {
    hide Xor, BchStep;
    var data := 8 * FormatLevel(ecc) + mask;
    var rem := data;
    for i := 0 to 10
      invariant rem == BchRemainder(data, i)
    {
      assert BchStep(rem) == Xor(ShiftLeft(rem, 1), ShiftRight(rem, 9) * 0x537) by { BchStepIs(rem); }
      rem := Xor(ShiftLeft(rem, 1), ShiftRight(rem, 9) * 0x537);
    }
    bits := Xor(ShiftLeft(data, 10) + rem, 0x5412);
  }

  lemma BchStepIs(rem: nat)
    ensures BchStep(rem) == Xor(ShiftLeft(rem, 1), ShiftRight(rem, 9) * 0x537)
  {
    hide Xor;
  }

  lemma {:induction false} BitStringBit(value: nat, length: nat, i: nat)
    requires i < length
    ensures BitString(value, length)[i] == BitOf(value, length - 1 - i)
  {
    if i < length - 1 {
      BitStringBit(value / 2, length - 1, i);
    }
  }

  /** The source's bit fetch reads the bit stream of the bytes. */
  lemma BytesBitAt(data: seq<Byte>, i: nat)
    requires i < 8 * |data|
    ensures BytesBits(data)[i] == BitOf(data[i / 8], 7 - i % 8)
  {
    BytesBitsAt(data, i / 8);
    BitStringBit(data[i / 8], 8, i % 8);
    hide BitString, BytesBits;
    assert BytesBits(data)[i] == BytesBits(data)[8 * (i / 8)..8 * (i / 8) + 8][i % 8];
  }

  // ---- From text bytes to the finished symbol -------------------------------------------------

  predicate FitsIn(count: nat, version: nat, ecc: Ecc)
    requires 1 <= version <= 40
  {
    4 + CountBits(version) + 8 * count <= 8 * NumDataCodewords(version, ecc)
  }

  /** The finished matrix for one mask. */
  function Finished(base: Grid, isFunction: Grid, size: nat, ecc: Ecc, mask: nat): Grid
    requires Square(base, size) && Square(isFunction, size) && size >= 21 && mask < 8
  {
    DrawFormat(MaskedGrid(base, isFunction, size, mask), size, FormatWord(ecc, mask), 31)
  }

  /** The matrix after placing the codewords of `all`, before masking. */
  function Placed(pattern: Pattern, version: nat, all: seq<Byte>): (g: Grid)
    requires Usable(pattern, version)
    ensures Square(g, Size(version))
  {
    Write(pattern.modules, pattern.isFunction, Size(version), Zigzag(Size(version)), BytesBits(all)).grid
  }

  lemma {:induction false} ReadLength(g: Grid, h: Grid, isFunction: Grid, size: nat, path: seq<Point>)
    requires Square(g, size) && Square(h, size) && Square(isFunction, size) && AllInside(path, size)
    ensures |Read(g, isFunction, size, path)| == |Read(h, isFunction, size, path)|
  {
    if path != [] {
      ReadLength(g, h, isFunction, size, path[..|path| - 1]);
    }
  }

  lemma ReadsPlaced(pattern: Pattern, version: nat, all: seq<Byte>)
    requires Usable(pattern, version) && |all| == RawCodewords(version)
    ensures var size := Size(version);
            var bits := Read(Placed(pattern, version, all), pattern.isFunction, size, Zigzag(size));
            |bits| >= 8 * |all| && Payload(bits, 0, |all|) == all
  {
    var size := Size(version);
    var base := Placed(pattern, version, all);
    var bits := Read(base, pattern.isFunction, size, Zigzag(size));
    ReadLength(base, pattern.modules, pattern.isFunction, size, Zigzag(size));
    ZigzagVisitsOnce(size);
    ReadsWritten(pattern.modules, pattern.isFunction, size, Zigzag(size), BytesBits(all));
    hide *;
    assert bits[0..0 + 8 * |all|] == BytesBits(all);
    ReadBack(all, bits, 0);
  }

  /** Unmasking the finished matrix restores every free cell. */
  lemma UnmasksFree(base: Grid, pattern: Pattern, version: nat, ecc: Ecc, mask: nat)
    requires Usable(pattern, version) && Square(base, Size(version)) && mask < 8
    ensures var size := Size(version);
            var final := Finished(base, pattern.isFunction, size, ecc, mask);
            var plain := MaskedGrid(final, pattern.isFunction, size, mask);
            Read(plain, pattern.isFunction, size, Zigzag(size)) == Read(base, pattern.isFunction, size, Zigzag(size))
  {
    var size, isFunction := Size(version), pattern.isFunction;
    var masked := MaskedGrid(base, isFunction, size, mask);
    var final := Finished(base, isFunction, size, ecc, mask);
    var plain := MaskedGrid(final, isFunction, size, mask);
    FormatAgrees(masked, final, size, FormatWord(ecc, mask));
    hide Flips, FormatCell, Finished, MaskedGrid, DrawFormat, Formatted, FormatWord;
    forall c | Inside(c, size) && !At(isFunction, c, size)
      ensures At(plain, c, size) == At(base, c, size)
    {
      assert !FormatCovers(size, c);
    }
    ReadSame(plain, base, isFunction, size, Zigzag(size));
  }

  lemma DecodesFinished(bytes: seq<Byte>, pattern: Pattern, version: nat, ecc: Ecc, all: seq<Byte>, mask: nat)
    requires 1 <= version <= 40 && Usable(pattern, version) && mask < 8
    requires |all| == RawCodewords(version) && DecodeCodewords(all, version, ecc) == Some(bytes)
    ensures Decode(Finished(Placed(pattern, version, all), pattern.isFunction, Size(version), ecc, mask),
        pattern.isFunction, version)
         == Some(bytes)
  {
    var size, base := Size(version), Placed(pattern, version, all);
    var masked := MaskedGrid(base, pattern.isFunction, size, mask);
    var word := FormatWord(ecc, mask);
    var final := Finished(base, pattern.isFunction, size, ecc, mask);
    FormatDecodes(ecc, mask);
    FormatIsFormat(ecc, mask);
    assert final == DrawFormat(masked, size, word, 31);
    ReadsFormat(masked, final, size, word, 15);
    assert ShiftRight(word, 0) == word;
    UnmasksFree(base, pattern, version, ecc, mask);
    ReadsPlaced(pattern, version, all);
    hide IsFormat, ReadFormat, FormatWord, Finished, Placed, DecodeCodewords, MaskedGrid, Zigzag, Read, Payload,
        RawCodewords, EccOfLevel, Xor, Usable;
  }

  /** The codewords `all` are those of the payload: mode, length, payload and padding to the full capacity, in blocks
      without errors. */
  ghost predicate Symbols(all: seq<Byte>, bytes: seq<Byte>, version: nat, ecc: Ecc) {
    && 1 <= version <= 40 && FitsIn(|bytes|, version, ecc) && |all| == RawCodewords(version)
    && var layout := LayoutOf(version, ecc);
       AllTransmitted(layout);
       Intact(all, layout)
       && BytesBits(Deinterleave(all, layout, layout.blocks)) == Stream(bytes, version, NumDataCodewords(version, ecc))
  }

  lemma DecodesCodewords(bytes: seq<Byte>, version: nat, ecc: Ecc, data: seq<Byte>, all: seq<Byte>)
    requires 1 <= version <= 40 && FitsIn(|bytes|, version, ecc) && |all| == RawCodewords(version)
    requires BytesBits(data) == Stream(bytes, version, NumDataCodewords(version, ecc))
    requires var layout := LayoutOf(version, ecc);
             |all| == layout.CellsBefore(layout.Width()) && Deinterleave(all, layout, layout.blocks) == data
               && Intact(all, layout)
    ensures DecodeCodewords(all, version, ecc) == Some(bytes)
    ensures Symbols(all, bytes, version, ecc)
  {
    hide Intact, BytesBits, Stream, NumDataCodewords, LayoutOf, Deinterleave, ParseByteMode, RawCodewords;
    ByteModeRoundTrip(bytes, version, ecc, data);
  }

  /** The smallest version the payload fits in, if any. */
  method ChooseVersion(count: nat, ecc: Ecc) returns (version: nat)
    ensures 1 <= version <= 41
    ensures forall v :: 1 <= v < version ==> !FitsIn(count, v, ecc)
    ensures version <= 40 ==> FitsIn(count, version, ecc)
  {
    hide NumDataCodewords;
    version := 1;
    while version <= 40
      invariant 1 <= version <= 41
      invariant forall v :: 1 <= v < version ==> !FitsIn(count, v, ecc)
    {
      var needed := 4 + (if version <= 9 then 8 else 16) + count * 8;
      if needed <= NumDataCodewords(version, ecc) * 8 {
        break;
      }
      version := version + 1;
    }
  }

  /** The penalty of the finished matrix for one mask. */
  function Score(base: Grid, isFunction: Grid, size: nat, ecc: Ecc, penalty: Grid -> int, mask: nat): int
    requires Square(base, size) && Square(isFunction, size) && size >= 21 && mask < 8
  {
    penalty(Finished(base, isFunction, size, ecc, mask))
  }

  /** Among the first `upTo` masks, `mask` is the first of the least-penalised. */
  ghost predicate BestMask(base: Grid, isFunction: Grid, size: nat, ecc: Ecc, penalty: Grid -> int, mask: nat,
      upTo: nat)
    requires Square(base, size) && Square(isFunction, size) && size >= 21 && mask < 8 && upTo <= 8
  {
    var score := Score(base, isFunction, size, ecc, penalty, mask);
    && (forall k :: 0 <= k < upTo ==> score <= Score(base, isFunction, size, ecc, penalty, k))
    && (forall k :: 0 <= k < mask ==> score < Score(base, isFunction, size, ecc, penalty, k))
  }

  /** Masking and formatting any matrix that agrees with `base` off the format
      modules gives the finished matrix of `base`. */
  lemma FinishAny(base: Grid, g: Grid, m: Grid, h: Grid, isFunction: Grid, size: nat, ecc: Ecc, mask: nat)
    requires size >= 21 && Square(isFunction, size) && mask < 8 && AgreeOffFormat(base, g, size)
    requires Masked(g, m, isFunction, size, mask) && h == DrawFormat(m, size, FormatWord(ecc, mask), 31)
    ensures h == Finished(base, isFunction, size, ecc, mask)
  {
    var masked := MaskedGrid(base, isFunction, size, mask);
    hide Flips, FormatCell, FormatWord, DrawFormat, Formatted, MaskedGrid;
    forall c | Inside(c, size) && !FormatCovers(size, c)
      ensures At(masked, c, size) == At(m, c, size)
    {}
    FormatOverwrites(masked, m, DrawFormat(masked, size, FormatWord(ecc, mask), 31), h, size, FormatWord(ecc, mask));
  }

  /** Undoing a mask after formatting restores everything off the format modules. */
  lemma UndoMask(base: Grid, g: Grid, m: Grid, h: Grid, u: Grid, isFunction: Grid, size: nat, word: nat, mask: nat)
    requires size >= 21 && Square(isFunction, size) && mask < 8 && AgreeOffFormat(base, g, size)
    requires Masked(g, m, isFunction, size, mask) && Formatted(m, h, size, word, 31)
    requires Masked(h, u, isFunction, size, mask)
    ensures AgreeOffFormat(base, u, size)
  {
    FormatAgrees(m, h, size, word);
    hide Flips, FormatCell, Formatted;
  }

  /** Mask, draw the format, score, and unmask again. */
  method TryMask(builder: Builder, ghost base: Grid, penalty: Grid -> int, candidate: nat) returns (score: int)
    requires builder.Valid() && candidate < 8 && AgreeOffFormat(base, builder.modules, builder.size)
    modifies builder
    ensures builder.Valid() && builder.isFunction == old(builder.isFunction)
    ensures AgreeOffFormat(base, builder.modules, builder.size)
    ensures score == Score(base, builder.isFunction, builder.size, builder.ecc, penalty, candidate)
  {
    hide Masked, Formatted, DrawFormat, FormatWord, Finished, AgreeOffFormat, FormatCell;
    ghost var g := builder.modules;
    builder.ApplyMask(candidate);
    ghost var m := builder.modules;
    builder.DrawFormatBits(candidate);
    ghost var h := builder.modules;
    FinishAny(base, g, m, h, builder.isFunction, builder.size, builder.ecc, candidate);
    score := penalty(builder.modules);
    builder.ApplyMask(candidate);
    UndoMask(base, g, m, h, builder.modules, builder.isFunction, builder.size, FormatWord(builder.ecc, candidate),
        candidate);
  }

  method ChooseMask(builder: Builder, ghost base: Grid, penalty: Grid -> int) returns (mask: nat)
    requires builder.Valid() && builder.modules == base
    modifies builder
    ensures builder.Valid() && builder.isFunction == old(builder.isFunction)
    ensures AgreeOffFormat(base, builder.modules, builder.size) && mask < 8
    ensures BestMask(base, builder.isFunction, builder.size, builder.ecc, penalty, mask, 8)
  {
    hide FormatCell, Score;
    ghost var isFunction, size, ecc := builder.isFunction, builder.size, builder.ecc;
    var best: Option<int> := None;
    mask := 0;
    for candidate := 0 to 8
      invariant builder.Valid() && builder.isFunction == isFunction && AgreeOffFormat(base, builder.modules, size)
      invariant mask < 8 && (best.None? <==> candidate == 0)
      invariant best.Some? ==> best.value == Score(base, isFunction, size, ecc, penalty, mask)
      invariant best.Some? ==> BestMask(base, isFunction, size, ecc, penalty, mask, candidate)
    {
      var score := TryMask(builder, base, penalty, candidate);
      if best.None? || score < best.value {
        best := Some(score);
        mask := candidate;
      }
    }
  }

  /** `code` carries the interleaved codewords `all` under an admissible mask. */
  ghost predicate Carries(code: QrCode, all: seq<Byte>, forcedMask: Option<int>, pattern: Pattern, penalty: Grid -> int)
    requires code.version >= 1 && Usable(pattern, code.version)
  {
    var base, size := Placed(pattern, code.version, all), Size(code.version);
    && code.size == size && code.mask < 8
    && code.modules == Finished(base, pattern.isFunction, size, code.ecc, code.mask)
    && (if forcedMask.Some? && forcedMask.value != -1 then code.mask == forcedMask.value
        else BestMask(base, pattern.isFunction, size, code.ecc, penalty, code.mask, 8))
  }

  /** Place, mask and format the interleaved codewords. */
  method DrawSymbol(all: seq<Byte>, version: nat, ecc: Ecc, forcedMask: Option<int>, pattern: Pattern,
      penalty: Grid -> int)
    returns (code: QrCode)
    requires 1 <= version <= 40 && Usable(pattern, version)
    requires forcedMask.Some? ==> -1 <= forcedMask.value < 8
    ensures code.version == version && code.ecc == ecc && Square(code.modules, Size(version))
    ensures Carries(code, all, forcedMask, pattern, penalty)
  {
    var builder := new Builder(version, ecc, pattern);
    builder.DrawCodewords(all);
    ghost var base := builder.modules;
    hide FormatCell, Score, Write, Usable, BestMask, Masked, DrawFormat, Formatted, BytesBits, FormatWord;
    var mask := if forcedMask.Some? then forcedMask.value else -1;
    if mask == -1 {
      mask := ChooseMask(builder, base, penalty);
    }
    ghost var g := builder.modules;
    builder.ApplyMask(mask);
    ghost var m := builder.modules;
    builder.DrawFormatBits(mask);
    FinishAny(base, g, m, builder.modules, builder.isFunction, builder.size, ecc, mask);
    hide Finished;
    code := QrCode(version, builder.size, ecc, mask, builder.modules);
  }

  method EncodeAt(bytes: seq<Byte>, version: nat, ecc: Ecc, forcedMask: Option<int>, pattern: Pattern,
      penalty: Grid -> int)
    returns (code: QrCode, ghost all: seq<Byte>)
    requires 1 <= version <= 40 && Usable(pattern, version) && FitsIn(|bytes|, version, ecc)
    requires forcedMask.Some? ==> -1 <= forcedMask.value < 8
    ensures code.version == version && code.ecc == ecc
    ensures Square(code.modules, Size(version)) && Carries(code, all, forcedMask, pattern, penalty)
    ensures Symbols(all, bytes, version, ecc)
    ensures Decode(code.modules, pattern.isFunction, version) == Some(bytes)
  {
    hide Intact, Symbols, Usable, NumDataCodewords, Decode, Placed, Finished, BestMask, LayoutOf, Deinterleave,
        DecodeCodewords, BytesBits, Stream, Zigzag, RawCodewords;
    var data := ByteModeCodewords(bytes, version, ecc);
    var interleaved := AddEccAndInterleave(data.value, version, ecc);
    all := interleaved;
    DecodesCodewords(bytes, version, ecc, data.value, all);
    code := DrawSymbol(interleaved, version, ecc, forcedMask, pattern, penalty);
    DecodesFinished(bytes, pattern, version, ecc, all, code.mask);
  }

  /** Encodes a payload at the smallest version that fits; without a forced mask,
      the first least-penalised mask is used. The finished matrix decodes to the
      payload. */
  method EncodeQr(bytes: seq<Byte>, ecc: Ecc, forcedMask: Option<int>, patterns: nat -> Pattern, penalty: Grid -> int)
    returns (r: Result<QrCode, string>)
    requires forall v :: 1 <= v <= 40 ==> Usable(patterns(v), v)
    ensures r.Ok? <==>
        (exists v :: 1 <= v <= 40 && FitsIn(|bytes|, v, ecc)) && (forcedMask.Some? ==> -1 <= forcedMask.value < 8)
    ensures r.Ok? ==>
              && 1 <= r.value.version <= 40 && r.value.ecc == ecc && FitsIn(|bytes|, r.value.version, ecc)
              && forall v :: 1 <= v < r.value.version ==> !FitsIn(|bytes|, v, ecc)
    ensures r.Ok? ==>
              var pattern := patterns(r.value.version);
              && Usable(pattern, r.value.version)
              && Square(r.value.modules, Size(r.value.version))
              && Decode(r.value.modules, pattern.isFunction, r.value.version) == Some(bytes)
              && exists all: seq<Byte> ::
                   Carries(r.value, all, forcedMask, pattern, penalty) && Symbols(all, bytes, r.value.version, ecc)
  {
    hide Symbols, FitsIn, NumDataCodewords, Decode, Carries, Zigzag;
    var version := ChooseVersion(|bytes|, ecc);
    if version > 40 {
      return Err("data too long for a QR code");
    }
    if forcedMask.Some? && !(-1 <= forcedMask.value < 8) {
      return Err("mask must be 0..7");
    }
    var code;
    ghost var all;
    code, all := EncodeAt(bytes, version, ecc, forcedMask, patterns(version), penalty);
    r := Ok(code);
  }

  // ---- The finished symbol ------------------------------------------------------------------------

  lemma CarriesParts(code: QrCode, all: seq<Byte>, forcedMask: Option<int>, pattern: Pattern, penalty: Grid -> int)
    requires code.version >= 1 && Usable(pattern, code.version) && Carries(code, all, forcedMask, pattern, penalty)
    ensures code.size == Size(code.version) >= 21 && code.mask < 8 && Square(pattern.isFunction, code.size)
    ensures code.modules
         == Finished(Placed(pattern, code.version, all), pattern.isFunction, code.size, code.ecc, code.mask)
    ensures Square(code.modules, code.size)
    ensures forcedMask.Some? && forcedMask.value != -1 ==> code.mask == forcedMask.value
    ensures forcedMask == None || forcedMask == Some(-1) ==>
              BestMask(Placed(pattern, code.version, all), pattern.isFunction, code.size, code.ecc, penalty,
                  code.mask, 8)
  {
    hide Placed, BestMask, DrawFormat, MaskedGrid;
  }

  lemma FinishedAt(base: Grid, isFunction: Grid, size: nat, ecc: Ecc, mask: nat, c: Point)
    requires Square(base, size) && Square(isFunction, size) && size >= 21 && mask < 8 && Inside(c, size)
    ensures Square(Finished(base, isFunction, size, ecc, mask), size)
    ensures !FormatCovers(size, c) ==>
              At(Finished(base, isFunction, size, ecc, mask), c, size)
              == (At(base, c, size) != (!At(isFunction, c, size) && MaskApplies(mask, c.x, c.y)))
  {
    var masked := MaskedGrid(base, isFunction, size, mask);
    FormatAgrees(masked, DrawFormat(masked, size, FormatWord(ecc, mask), 31), size, FormatWord(ecc, mask));
    hide FormatWord, DrawFormat, Formatted, MaskApplies, FormatCovers;
  }

  lemma PlacedAt(pattern: Pattern, version: nat, all: seq<Byte>, c: Point)
    requires Usable(pattern, version) && Inside(c, Size(version))
    ensures At(pattern.isFunction, c, Size(version)) ==>
              At(Placed(pattern, version, all), c, Size(version)) == At(pattern.modules, c, Size(version))
    ensures !At(pattern.isFunction, c, Size(version)) ==> !FormatCovers(Size(version), c)
  {
    if At(pattern.isFunction, c, Size(version)) {
      WriteKeepsOthers(pattern.modules, pattern.isFunction, Size(version), Zigzag(Size(version)), BytesBits(all), c);
    }
    hide Zigzag, Write, BytesBits, FormatCell, Read, RawCodewords;
  }

  /** Module by module: patterns stay as they were drawn, and a data module is the codeword bit placed there, inverted
      exactly where the mask applies. */
  lemma ModulesAre(code: QrCode, all: seq<Byte>, forcedMask: Option<int>, pattern: Pattern, penalty: Grid -> int,
      c: Point)
    requires code.version >= 1 && Usable(pattern, code.version) && Carries(code, all, forcedMask, pattern, penalty)
    requires 0 <= c.x < code.size && 0 <= c.y < code.size
    ensures Square(code.modules, code.size) && Square(pattern.isFunction, code.size) && code.mask < 8
    ensures !At(pattern.isFunction, c, code.size) ==>
              code.modules[c.y][c.x]
              == (At(Placed(pattern, code.version, all), c, code.size) != MaskApplies(code.mask, c.x, c.y))
    ensures At(pattern.isFunction, c, code.size) && !FormatCovers(code.size, c) ==>
              code.modules[c.y][c.x] == At(pattern.modules, c, code.size)
  {
    CarriesParts(code, all, forcedMask, pattern, penalty);
    PlacedAt(pattern, code.version, all, c);
    FinishedAt(Placed(pattern, code.version, all), pattern.isFunction, code.size, code.ecc, code.mask, c);
    assert Square(pattern.modules, code.size);
    hide Carries, Finished, Placed, MaskApplies, Usable, FormatCovers;
  }

  /** Both copies of the format word hold its bits, and the dark module is dark. */
  lemma FormatsAre(code: QrCode, all: seq<Byte>, forcedMask: Option<int>, pattern: Pattern, penalty: Grid -> int,
      k: nat)
    requires code.version >= 1 && Usable(pattern, code.version) && Carries(code, all, forcedMask, pattern, penalty)
    requires k < 15
    ensures Square(code.modules, code.size)
    ensures At(code.modules, FormatCell(code.size, k), code.size)
         == At(code.modules, FormatCell(code.size, 15 + k), code.size)
         == (ShiftRight(FormatWord(code.ecc, code.mask), k) % 2 == 1)
    ensures code.modules[code.size - 8][8]
  {
    var masked := MaskedGrid(Placed(pattern, code.version, all), pattern.isFunction, code.size, code.mask);
    assert Formatted(masked, code.modules, code.size, FormatWord(code.ecc, code.mask), 31);
    FormatCells(code.size);
    assert At(code.modules, FormatCell(code.size, 30), code.size) == FormatDark(FormatWord(code.ecc, code.mask), 30);
    hide Carries, Usable, Placed, MaskedGrid, FormatCell, FormatWord;
  }

  lemma BestIs(base: Grid, isFunction: Grid, size: nat, ecc: Ecc, penalty: Grid -> int, mask: nat, k: nat)
    requires Square(base, size) && Square(isFunction, size) && size >= 21 && mask < 8 && k < 8
    requires BestMask(base, isFunction, size, ecc, penalty, mask, 8)
    ensures penalty(Finished(base, isFunction, size, ecc, mask)) <= penalty(Finished(base, isFunction, size, ecc, k))
    ensures k < mask ==>
              penalty(Finished(base, isFunction, size, ecc, mask)) < penalty(Finished(base, isFunction, size, ecc, k))
  {
    assert Score(base, isFunction, size, ecc, penalty, mask) <= Score(base, isFunction, size, ecc, penalty, k);
    hide Finished;
  }

  /** Without a forced mask, none of the eight finished matrices is penalised less, and none of an earlier mask as
      little. */
  lemma MaskIsBest(code: QrCode, all: seq<Byte>, forcedMask: Option<int>, pattern: Pattern, penalty: Grid -> int,
      other: QrCode)
    requires code.version >= 1 && Usable(pattern, code.version) && Carries(code, all, forcedMask, pattern, penalty)
    requires forcedMask == None || forcedMask == Some(-1)
    requires other.version == code.version && other.ecc == code.ecc
    requires Carries(other, all, Some(other.mask), pattern, penalty)
    ensures penalty(code.modules) <= penalty(other.modules)
    ensures other.mask < code.mask ==> penalty(code.modules) < penalty(other.modules)
  {
    CarriesParts(code, all, forcedMask, pattern, penalty);
    CarriesParts(other, all, Some(other.mask), pattern, penalty);
    hide *;
    BestIs(Placed(pattern, code.version, all), pattern.isFunction, code.size, code.ecc, penalty, code.mask, other.mask);
  }
}
