/** Sizes of the 40 QR versions at the four error-correction levels. */
module QrTables {

  datatype Ecc = L | M | Q | H

  function Size(version: nat): nat {
    4 * version + 17
  }

  /** Every symbol has an odd side, of at least 21 modules. */
  lemma OddSize(version: nat)
    requires version >= 1
    ensures Size(version) % 2 == 1 && Size(version) >= 21
  {
    Odd(2 * version + 8);
    assert Size(version) == 2 * (2 * version + 8) + 1;
  }

  lemma Odd(n: nat)
    ensures (2 * n + 1) % 2 == 1
  {}

  function NumRawDataModules(version: nat): int {
    var result := (16 * version + 128) * version + 64;
    if version < 2 then result
    else
      var numAlign := version / 7 + 2;
      result - ((25 * numAlign - 10) * numAlign - 55) - (if version >= 7 then 36 else 0)
  }

  /** Error-correction codewords in each block. */
  function EccPerBlock(version: nat, ecc: Ecc): nat
    requires 1 <= version <= 40
  {
    match ecc
    case L =>
      if version <= 10 then (
        match version
        case 1 => 7 case 2 => 10 case 3 => 15 case 4 => 20 case 5 => 26
        case 6 => 18 case 7 => 20 case 8 => 24 case 9 => 30 case _ => 18
      ) else if version <= 20 then (
        match version
        case 11 => 20 case 12 => 24 case 13 => 26 case 14 => 30 case 15 => 22
        case 16 => 24 case 17 => 28 case 18 => 30 case 19 => 28 case _ => 28
      ) else if version <= 30 then (
        match version
        case 21 => 28 case 22 => 28 case 23 => 30 case 24 => 30 case 25 => 26
        case 26 => 28 case 27 => 30 case 28 => 30 case 29 => 30 case _ => 30
      ) else (
        match version
        case 31 => 30 case 32 => 30 case 33 => 30 case 34 => 30 case 35 => 30
        case 36 => 30 case 37 => 30 case 38 => 30 case 39 => 30 case _ => 30
      )
    case M =>
      if version <= 10 then (
        match version
        case 1 => 10 case 2 => 16 case 3 => 26 case 4 => 18 case 5 => 24
        case 6 => 16 case 7 => 18 case 8 => 22 case 9 => 22 case _ => 26
      ) else if version <= 20 then (
        match version
        case 11 => 30 case 12 => 22 case 13 => 22 case 14 => 24 case 15 => 24
        case 16 => 28 case 17 => 28 case 18 => 26 case 19 => 26 case _ => 26
      ) else if version <= 30 then (
        match version
        case 21 => 26 case 22 => 28 case 23 => 28 case 24 => 28 case 25 => 28
        case 26 => 28 case 27 => 28 case 28 => 28 case 29 => 28 case _ => 28
      ) else (
        match version
        case 31 => 28 case 32 => 28 case 33 => 28 case 34 => 28 case 35 => 28
        case 36 => 28 case 37 => 28 case 38 => 28 case 39 => 28 case _ => 28
      )
    case Q =>
      if version <= 10 then (
        match version
        case 1 => 13 case 2 => 22 case 3 => 18 case 4 => 26 case 5 => 18
        case 6 => 24 case 7 => 18 case 8 => 22 case 9 => 20 case _ => 24
      ) else if version <= 20 then (
        match version
        case 11 => 28 case 12 => 26 case 13 => 24 case 14 => 20 case 15 => 30
        case 16 => 24 case 17 => 28 case 18 => 28 case 19 => 26 case _ => 30
      ) else if version <= 30 then (
        match version
        case 21 => 28 case 22 => 30 case 23 => 30 case 24 => 30 case 25 => 30
        case 26 => 28 case 27 => 30 case 28 => 30 case 29 => 30 case _ => 30
      ) else (
        match version
        case 31 => 30 case 32 => 30 case 33 => 30 case 34 => 30 case 35 => 30
        case 36 => 30 case 37 => 30 case 38 => 30 case 39 => 30 case _ => 30
      )
    case H =>
      if version <= 10 then (
        match version
        case 1 => 17 case 2 => 28 case 3 => 22 case 4 => 16 case 5 => 22
        case 6 => 28 case 7 => 26 case 8 => 26 case 9 => 24 case _ => 28
      ) else if version <= 20 then (
        match version
        case 11 => 24 case 12 => 28 case 13 => 22 case 14 => 24 case 15 => 24
        case 16 => 30 case 17 => 28 case 18 => 28 case 19 => 26 case _ => 28
      ) else if version <= 30 then (
        match version
        case 21 => 30 case 22 => 24 case 23 => 30 case 24 => 30 case 25 => 30
        case 26 => 30 case 27 => 30 case 28 => 30 case 29 => 30 case _ => 30
      ) else (
        match version
        case 31 => 30 case 32 => 30 case 33 => 30 case 34 => 30 case 35 => 30
        case 36 => 30 case 37 => 30 case 38 => 30 case 39 => 30 case _ => 30
      )
  }

  /** Number of error-correction blocks. */
  function Blocks(version: nat, ecc: Ecc): nat
    requires 1 <= version <= 40
  {
    match ecc
    case L =>
      if version <= 10 then (
        match version
        case 1 => 1 case 2 => 1 case 3 => 1 case 4 => 1 case 5 => 1
        case 6 => 2 case 7 => 2 case 8 => 2 case 9 => 2 case _ => 4
      ) else if version <= 20 then (
        match version
        case 11 => 4 case 12 => 4 case 13 => 4 case 14 => 4 case 15 => 6
        case 16 => 6 case 17 => 6 case 18 => 6 case 19 => 7 case _ => 8
      ) else if version <= 30 then (
        match version
        case 21 => 8 case 22 => 9 case 23 => 9 case 24 => 10 case 25 => 12
        case 26 => 12 case 27 => 12 case 28 => 13 case 29 => 14 case _ => 15
      ) else (
        match version
        case 31 => 16 case 32 => 17 case 33 => 18 case 34 => 19 case 35 => 19
        case 36 => 20 case 37 => 21 case 38 => 22 case 39 => 24 case _ => 25
      )
    case M =>
      if version <= 10 then (
        match version
        case 1 => 1 case 2 => 1 case 3 => 1 case 4 => 2 case 5 => 2
        case 6 => 4 case 7 => 4 case 8 => 4 case 9 => 5 case _ => 5
      ) else if version <= 20 then (
        match version
        case 11 => 5 case 12 => 8 case 13 => 9 case 14 => 9 case 15 => 10
        case 16 => 10 case 17 => 11 case 18 => 13 case 19 => 14 case _ => 16
      ) else if version <= 30 then (
        match version
        case 21 => 17 case 22 => 17 case 23 => 18 case 24 => 20 case 25 => 21
        case 26 => 23 case 27 => 25 case 28 => 26 case 29 => 28 case _ => 29
      ) else (
        match version
        case 31 => 31 case 32 => 33 case 33 => 35 case 34 => 37 case 35 => 38
        case 36 => 40 case 37 => 43 case 38 => 45 case 39 => 47 case _ => 49
      )
    case Q =>
      if version <= 10 then (
        match version
        case 1 => 1 case 2 => 1 case 3 => 2 case 4 => 2 case 5 => 4
        case 6 => 4 case 7 => 6 case 8 => 6 case 9 => 8 case _ => 8
      ) else if version <= 20 then (
        match version
        case 11 => 8 case 12 => 10 case 13 => 12 case 14 => 16 case 15 => 12
        case 16 => 17 case 17 => 16 case 18 => 18 case 19 => 21 case _ => 20
      ) else if version <= 30 then (
        match version
        case 21 => 23 case 22 => 23 case 23 => 25 case 24 => 27 case 25 => 29
        case 26 => 34 case 27 => 34 case 28 => 35 case 29 => 38 case _ => 40
      ) else (
        match version
        case 31 => 43 case 32 => 45 case 33 => 48 case 34 => 51 case 35 => 53
        case 36 => 56 case 37 => 59 case 38 => 62 case 39 => 65 case _ => 68
      )
    case H =>
      if version <= 10 then (
        match version
        case 1 => 1 case 2 => 1 case 3 => 2 case 4 => 4 case 5 => 4
        case 6 => 4 case 7 => 5 case 8 => 6 case 9 => 8 case _ => 8
      ) else if version <= 20 then (
        match version
        case 11 => 11 case 12 => 11 case 13 => 16 case 14 => 16 case 15 => 18
        case 16 => 16 case 17 => 19 case 18 => 21 case 19 => 25 case _ => 25
      ) else if version <= 30 then (
        match version
        case 21 => 25 case 22 => 34 case 23 => 30 case 24 => 32 case 25 => 35
        case 26 => 37 case 27 => 40 case 28 => 42 case 29 => 45 case _ => 48
      ) else (
        match version
        case 31 => 51 case 32 => 54 case 33 => 57 case 34 => 60 case 35 => 63
        case 36 => 66 case 37 => 70 case 38 => 74 case 39 => 77 case _ => 81
      )
  }

  function RawCodewords(version: nat): int {
    NumRawDataModules(version) / 8
  }

  function NumDataCodewords(version: nat, ecc: Ecc): int
    requires 1 <= version <= 40
  {
    RawCodewords(version) - EccPerBlock(version, ecc) * Blocks(version, ecc)
  }

  /** Width of the byte-mode character count. */
  function CountBits(version: nat): nat {
    if version <= 9 then 8 else 16
  }

  predicate RowSound(version: nat, ecc: Ecc)
    requires 1 <= version <= 40
  {
    && Blocks(version, ecc) >= 1
    && EccPerBlock(version, ecc) >= 7
    && RawCodewords(version) > Blocks(version, ecc) * (EccPerBlock(version, ecc) + 1)
    && NumDataCodewords(version, ecc) <= (if version <= 9 then 232 else 2956)
  }

  /** The `count` rows starting at version `from` are sound. */
  predicate RowsSound(from: nat, count: nat, ecc: Ecc)
    requires 1 <= from && from + count <= 41
    decreases count
  {
    if count == 0 then true else RowSound(from, ecc) && RowsSound(from + 1, count - 1, ecc)
  }

  lemma Rows1L()
    ensures RowsSound(1, 10, L)
  {}

  lemma Rows11L()
    ensures RowsSound(11, 10, L)
  {}

  lemma Rows21L()
    ensures RowsSound(21, 10, L)
  {}

  lemma Rows31L()
    ensures RowsSound(31, 10, L)
  {}

  lemma Rows1M()
    ensures RowsSound(1, 10, M)
  {}

  lemma Rows11M()
    ensures RowsSound(11, 10, M)
  {}

  lemma Rows21M()
    ensures RowsSound(21, 10, M)
  {}

  lemma Rows31M()
    ensures RowsSound(31, 10, M)
  {}

  lemma Rows1Q()
    ensures RowsSound(1, 10, Q)
  {}

  lemma Rows11Q()
    ensures RowsSound(11, 10, Q)
  {}

  lemma Rows21Q()
    ensures RowsSound(21, 10, Q)
  {}

  lemma Rows31Q()
    ensures RowsSound(31, 10, Q)
  {}

  lemma Rows1H()
    ensures RowsSound(1, 10, H)
  {}

  lemma Rows11H()
    ensures RowsSound(11, 10, H)
  {}

  lemma Rows21H()
    ensures RowsSound(21, 10, H)
  {}

  lemma Rows31H()
    ensures RowsSound(31, 10, H)
  {}

  /** The data modules are what the function patterns leave: three finders of 8 by 8 with their separators, two timing
      lines, the format modules and, from version 2, the alignment patterns of 5 by 5, whose overlap with the timing
      lines counts once, and from version 7 two version fields. */
  lemma RawModulesLeft(version: nat)
    requires version >= 1
    ensures var size, align := 4 * version + 17, if version == 1 then 0 else version / 7 + 2;
            NumRawDataModules(version)
            == size * size - 3 * 64 - 2 * (size - 16) - 31
               - (if version == 1 then 0 else 25 * (align * align - 3) - 10 * (align - 2))
               - (if version >= 7 then 2 * 18 else 0)
  {
    var size := 4 * version + 17;
    assert size * size == 16 * (version * version) + 136 * version + 289;
    assert (16 * version + 128) * version == 16 * (version * version) + 128 * version;
    var align := version / 7 + 2;
    assert (25 * align - 10) * align == 25 * (align * align) - 10 * align;
  }

  lemma {:induction false} RowOfRows(version: nat, from: nat, count: nat, ecc: Ecc)
    requires 1 <= from <= version < from + count <= 41 && RowsSound(from, count, ecc)
    ensures RowSound(version, ecc)
    decreases count
  {
    hide RowSound;
    if from < version {
      RowOfRows(version, from + 1, count - 1, ecc);
    }
  }

  /** What the encoder needs of the size tables, for every version and level. */
  lemma TablesSound(version: nat, ecc: Ecc)
    requires 1 <= version <= 40
    ensures RowSound(version, ecc)
  {
    hide *;
    match ecc {
      case L => Rows1L(); Rows11L(); Rows21L(); Rows31L();
      case M => Rows1M(); Rows11M(); Rows21M(); Rows31M();
      case Q => Rows1Q(); Rows11Q(); Rows21Q(); Rows31Q();
      case H => Rows1H(); Rows11H(); Rows21H(); Rows31H();
    }
    RowOfRows(version, 10 * ((version - 1) / 10) + 1, 10, ecc);
  }

  // ---- Capacity ----------------------------------------------------------------------------------------

  /** A higher level leaves less room for data, and the next version has more of it. */
  predicate RowOrdered(version: nat)
    requires 1 <= version < 40
  {
    && NumDataCodewords(version, L) > NumDataCodewords(version, M) > NumDataCodewords(version, Q)
    && NumDataCodewords(version, Q) > NumDataCodewords(version, H)
    && NumDataCodewords(version, L) < NumDataCodewords(version + 1, L)
    && NumDataCodewords(version, M) < NumDataCodewords(version + 1, M)
    && NumDataCodewords(version, Q) < NumDataCodewords(version + 1, Q)
    && NumDataCodewords(version, H) < NumDataCodewords(version + 1, H)
  }

  predicate RowsOrdered(from: nat, count: nat)
    requires 1 <= from && from + count <= 40
    decreases count
  {
    if count == 0 then true else RowOrdered(from) && RowsOrdered(from + 1, count - 1)
  }

  lemma OrderedFrom1()
    ensures RowsOrdered(1, 2)
  {}

  lemma OrderedFrom3()
    ensures RowsOrdered(3, 2)
  {}

  lemma OrderedFrom5()
    ensures RowsOrdered(5, 2)
  {}

  lemma OrderedFrom7()
    ensures RowsOrdered(7, 2)
  {}

  lemma OrderedFrom9()
    ensures RowsOrdered(9, 2)
  {}

  lemma OrderedFrom11()
    ensures RowsOrdered(11, 2)
  {}

  lemma OrderedFrom13()
    ensures RowsOrdered(13, 2)
  {}

  lemma OrderedFrom15()
    ensures RowsOrdered(15, 2)
  {}

  lemma OrderedFrom17()
    ensures RowsOrdered(17, 2)
  {}

  lemma OrderedFrom19()
    ensures RowsOrdered(19, 2)
  {}

  lemma OrderedFrom21()
    ensures RowsOrdered(21, 2)
  {}

  lemma OrderedFrom23()
    ensures RowsOrdered(23, 2)
  {}

  lemma OrderedFrom25()
    ensures RowsOrdered(25, 2)
  {}

  lemma OrderedFrom27()
    ensures RowsOrdered(27, 2)
  {}

  lemma OrderedFrom29()
    ensures RowsOrdered(29, 2)
  {}

  lemma OrderedFrom31()
    ensures RowsOrdered(31, 2)
  {}

  lemma OrderedFrom33()
    ensures RowsOrdered(33, 2)
  {}

  lemma OrderedFrom35()
    ensures RowsOrdered(35, 2)
  {}

  lemma OrderedFrom37()
    ensures RowsOrdered(37, 2)
  {}

  lemma OrderedFrom39()
    ensures RowsOrdered(39, 1)
  {}

  lemma {:induction false} OrderedOfRows(version: nat, from: nat, count: nat)
    requires 1 <= from <= version < from + count <= 40 && RowsOrdered(from, count)
    ensures RowOrdered(version)
    decreases count
  {
    hide RowOrdered;
    if from < version { OrderedOfRows(version, from + 1, count - 1); }
  }

  lemma OrderedIs(version: nat, ecc: Ecc)
    requires 1 <= version < 40 && RowOrdered(version)
    ensures NumDataCodewords(version, ecc) < NumDataCodewords(version + 1, ecc)
  {
    hide NumDataCodewords;
  }

  /** A payload that fits a version fits every later one: the room for data grows with the version, at every level. */
  lemma {:induction false} CapacityGrows(version: nat, later: nat, ecc: Ecc)
    requires 1 <= version < later <= 40
    ensures NumDataCodewords(version, ecc) < NumDataCodewords(later, ecc)
    decreases later
  {
    hide *;
    OrderedFrom1();
    OrderedFrom3();
    OrderedFrom5();
    OrderedFrom7();
    OrderedFrom9();
    OrderedFrom11();
    OrderedFrom13();
    OrderedFrom15();
    OrderedFrom17();
    OrderedFrom19();
    OrderedFrom21();
    OrderedFrom23();
    OrderedFrom25();
    OrderedFrom27();
    OrderedFrom29();
    OrderedFrom31();
    OrderedFrom33();
    OrderedFrom35();
    OrderedFrom37();
    OrderedFrom39();
    var before := later - 1;
    OrderedOfRows(before, 2 * ((before - 1) / 2) + 1, if before < 39 then 2 else 1);
    OrderedIs(before, ecc);
    if version < before { CapacityGrows(version, before, ecc); }
  }
}
