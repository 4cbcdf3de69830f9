/** Splitting data codewords into error-correction blocks and interleaving the
    blocks, and the decoder's way back. */
module QrBlocks {
  import opened Gf256
  import opened QrTables
  import opened ReedSolomon

  datatype Layout = Layout(blocks: nat, eccPerBlock: nat, rawCodewords: nat) {

    /** The blocks have room for their error correction. */
    predicate Sound() {
      blocks >= 1 && eccPerBlock >= 1 && rawCodewords / blocks > eccPerBlock
    }

    function NumShort(): nat
      requires blocks >= 1
    {
      blocks - rawCodewords % blocks
    }

    /** Data codewords of a short block. */
    function ShortData(): nat
      requires Sound()
    {
      rawCodewords / blocks - eccPerBlock
    }

    /** Length of every block once short blocks are padded. */
    function Width(): nat
      requires Sound()
    {
      ShortData() + 1 + eccPerBlock
    }

    function DataLength(j: nat): nat
      requires Sound()
    {
      ShortData() + (if j < NumShort() then 0 else 1)
    }

    /** Where the data of block `j` starts. */
    function Start(j: nat): nat
      requires Sound()
    {
      if j == 0 then 0 else Start(j - 1) + DataLength(j - 1)
    }

    /** The padding cell of a short block, which is not transmitted. */
    predicate Skipped(i: nat, j: nat)
      requires Sound()
    {
      i == ShortData() && j < NumShort()
    }

    /** Transmitted cells among the first `j` of row `i`. */
    function CellsInRow(i: nat, j: nat): nat
      requires Sound()
    {
      if j == 0 then 0 else CellsInRow(i, j - 1) + (if Skipped(i, j - 1) then 0 else 1)
    }

    /** Transmitted cells in the first `i` rows. */
    function CellsBefore(i: nat): nat
      requires Sound()
    {
      if i == 0 then 0 else CellsBefore(i - 1) + CellsInRow(i - 1, blocks)
    }
  }

  function LayoutOf(version: nat, ecc: Ecc): (layout: Layout)
    requires 1 <= version <= 40
    ensures layout.Sound() && layout.Start(layout.blocks) == NumDataCodewords(version, ecc)
    ensures layout.rawCodewords == RawCodewords(version)
  {
    TablesSound(version, ecc);
    LayoutSound(Blocks(version, ecc), EccPerBlock(version, ecc), RawCodewords(version));
    Layout(Blocks(version, ecc), EccPerBlock(version, ecc), RawCodewords(version))
  }

  lemma LayoutSound(blocks: nat, eccPerBlock: nat, raw: nat)
    requires blocks >= 1 && eccPerBlock >= 1 && raw > blocks * (eccPerBlock + 1)
    ensures var layout := Layout(blocks, eccPerBlock, raw);
            layout.Sound() && layout.Start(blocks) == raw - eccPerBlock * blocks
  {
    var layout := Layout(blocks, eccPerBlock, raw);
    var q, r := raw / blocks, raw % blocks;
    assert raw == blocks * q + r;
    assert blocks * (eccPerBlock + 1) == blocks * eccPerBlock + blocks;
    if q <= eccPerBlock {
      MulMono(blocks, q, eccPerBlock);
      assert false;
    }
    StartClosed(layout, blocks);
    assert blocks * (q - eccPerBlock) == blocks * q - blocks * eccPerBlock;
  }

  lemma MulMono(a: nat, b: nat, c: nat)
    requires b <= c
    ensures a * b <= a * c
  {}

  lemma {:induction false} StartClosed(layout: Layout, j: nat)
    requires layout.Sound()
    ensures layout.Start(j) == j * layout.ShortData() + (if j < layout.NumShort() then 0 else j - layout.NumShort())
  {
    if j > 0 {
      StartClosed(layout, j - 1);
      var d := layout.ShortData();
      assert j * d == (j - 1) * d + d;
    }
  }

  // ---- Reading a transmitted sequence -----------------------------------------------

  function Position(layout: Layout, i: nat, j: nat): nat
    requires layout.Sound()
  {
    layout.CellsBefore(i) + layout.CellsInRow(i, j)
  }

  lemma {:induction false} RowGrows(layout: Layout, i: nat, j: nat, k: nat)
    requires layout.Sound() && j <= k
    ensures layout.CellsInRow(i, j) <= layout.CellsInRow(i, k)
  {
    if j < k {
      RowGrows(layout, i, j, k - 1);
    }
  }

  lemma {:induction false} ColumnGrows(layout: Layout, i: nat, k: nat)
    requires layout.Sound() && i <= k
    ensures layout.CellsBefore(i) <= layout.CellsBefore(k)
  {
    if i < k {
      ColumnGrows(layout, i, k - 1);
    }
  }

  lemma PositionInRange(layout: Layout, i: nat, j: nat)
    requires layout.Sound() && i < layout.Width() && j < layout.blocks && !layout.Skipped(i, j)
    ensures Position(layout, i, j) < layout.CellsBefore(layout.Width())
  {
    RowGrows(layout, i, j + 1, layout.blocks);
    ColumnGrows(layout, i + 1, layout.Width());
  }

  /** The codeword of block `j` at row `i`, where the decoder finds it. */
  function CellOf(all: seq<Byte>, layout: Layout, i: nat, j: nat): Byte
    requires layout.Sound() && |all| == layout.CellsBefore(layout.Width())
    requires i < layout.Width() && j < layout.blocks && !layout.Skipped(i, j)
  {
    PositionInRange(layout, i, j);
    all[Position(layout, i, j)]
  }

  function DataOf(all: seq<Byte>, layout: Layout, j: nat): (data: seq<Byte>)
    requires layout.Sound() && |all| == layout.CellsBefore(layout.Width()) && j < layout.blocks
    ensures |data| == layout.DataLength(j)
    ensures forall i :: 0 <= i < |data| ==> data[i] == CellOf(all, layout, i, j)
  {
    seq(layout.DataLength(j), i requires 0 <= i < layout.DataLength(j) => CellOf(all, layout, i, j))
  }

  function EccOf(all: seq<Byte>, layout: Layout, j: nat): (ecc: seq<Byte>)
    requires layout.Sound() && |all| == layout.CellsBefore(layout.Width()) && j < layout.blocks
    ensures |ecc| == layout.eccPerBlock
    ensures forall i :: 0 <= i < |ecc| ==> ecc[i] == CellOf(all, layout, layout.ShortData() + 1 + i, j)
  {
    seq(layout.eccPerBlock, i requires 0 <= i < layout.eccPerBlock => EccCell(all, layout, i, j))
  }

  function EccCell(all: seq<Byte>, layout: Layout, i: nat, j: nat): Byte
    requires layout.Sound() && |all| == layout.CellsBefore(layout.Width())
    requires i < layout.eccPerBlock && j < layout.blocks
  {
    CellOf(all, layout, layout.ShortData() + 1 + i, j)
  }

  /** The decoder: de-interleave, drop the error correction, join the first `n` blocks. */
  function Deinterleave(all: seq<Byte>, layout: Layout, n: nat): seq<Byte>
    requires layout.Sound() && |all| == layout.CellsBefore(layout.Width()) && n <= layout.blocks
  {
    if n == 0 then [] else Deinterleave(all, layout, n - 1) + DataOf(all, layout, n - 1)
  }

  // ---- The encoder --------------------------------------------------------------------

  /** The padded block `j`: its data, the untransmitted pad of a short block, its
      error correction. */
  function Padded(layout: Layout, data: seq<Byte>, ecc: seq<Byte>, j: nat): seq<Byte>
    requires layout.Sound()
  {
    data + (if j < layout.NumShort() then [0] else []) + ecc
  }

  predicate WellSized(blocks: seq<seq<Byte>>, layout: Layout)
    requires layout.Sound()
  {
    |blocks| == layout.blocks && forall j :: 0 <= j < |blocks| ==> |blocks[j]| == layout.Width()
  }

  function Row(blocks: seq<seq<Byte>>, layout: Layout, i: nat, j: nat): (row: seq<Byte>)
    requires layout.Sound() && WellSized(blocks, layout) && i < layout.Width() && j <= layout.blocks
    ensures |row| == layout.CellsInRow(i, j)
  {
    if j == 0 then []
    else Row(blocks, layout, i, j - 1) + (if layout.Skipped(i, j - 1) then [] else [blocks[j - 1][i]])
  }

  function Rows(blocks: seq<seq<Byte>>, layout: Layout, i: nat): (rows: seq<Byte>)
    requires layout.Sound() && WellSized(blocks, layout) && i <= layout.Width()
    ensures |rows| == layout.CellsBefore(i)
  {
    if i == 0 then [] else Rows(blocks, layout, i - 1) + Row(blocks, layout, i - 1, layout.blocks)
  }

  lemma {:induction false} RowCell(blocks: seq<seq<Byte>>, layout: Layout, i: nat, j: nat, n: nat)
    requires layout.Sound() && WellSized(blocks, layout) && i < layout.Width() && j < n <= layout.blocks
    requires !layout.Skipped(i, j)
    ensures layout.CellsInRow(i, j) < layout.CellsInRow(i, n)
    ensures Row(blocks, layout, i, n)[layout.CellsInRow(i, j)] == blocks[j][i]
  {
    if j < n - 1 {
      RowCell(blocks, layout, i, j, n - 1);
    }
  }

  lemma {:induction false} RowsCell(blocks: seq<seq<Byte>>, layout: Layout, i: nat, j: nat, n: nat)
    requires layout.Sound() && WellSized(blocks, layout) && i < n <= layout.Width() && j < layout.blocks
    requires !layout.Skipped(i, j)
    ensures Position(layout, i, j) < layout.CellsBefore(n)
    ensures Rows(blocks, layout, n)[Position(layout, i, j)] == blocks[j][i]
  {
    if i < n - 1 {
      RowsCell(blocks, layout, i, j, n - 1);
    } else {
      RowCell(blocks, layout, i, j, layout.blocks);
    }
  }

  /** What is read back for block `j` is what was put into it. */
  lemma ReadsBlock(blocks: seq<seq<Byte>>, layout: Layout, j: nat, data: seq<Byte>, ecc: seq<Byte>)
    requires layout.Sound() && WellSized(blocks, layout) && j < layout.blocks
    requires |data| == layout.DataLength(j) && |ecc| == layout.eccPerBlock
    requires blocks[j] == Padded(layout, data, ecc, j)
    ensures var all := Rows(blocks, layout, layout.Width());
            DataOf(all, layout, j) == data && EccOf(all, layout, j) == ecc
  {
    var all, w := Rows(blocks, layout, layout.Width()), layout.Width();
    hide Rows, Position;
    forall i | 0 <= i < |data|
      ensures CellOf(all, layout, i, j) == data[i]
    {
      RowsCell(blocks, layout, i, j, w);
    }
    forall i | 0 <= i < |ecc|
      ensures CellOf(all, layout, layout.ShortData() + 1 + i, j) == ecc[i]
    {
      RowsCell(blocks, layout, layout.ShortData() + 1 + i, j, w);
    }
  }

  lemma {:induction false} StartGrows(layout: Layout, j: nat, k: nat)
    requires layout.Sound() && j <= k
    ensures layout.Start(j) <= layout.Start(k)
  {
    if j < k {
      StartGrows(layout, j, k - 1);
    }
  }

  /** The data of block `j`. */
  function Slice(layout: Layout, data: seq<Byte>, j: nat): (slice: seq<Byte>)
    requires layout.Sound() && j < layout.blocks && |data| == layout.Start(layout.blocks)
    ensures |slice| == layout.DataLength(j)
  {
    StartGrows(layout, j + 1, layout.blocks);
    data[layout.Start(j)..layout.Start(j + 1)]
  }

  lemma {:induction false} JoinsBlocks(all: seq<Byte>, layout: Layout, data: seq<Byte>, n: nat)
    requires layout.Sound() && |all| == layout.CellsBefore(layout.Width()) && n <= layout.blocks
    requires |data| == layout.Start(layout.blocks)
    requires forall j :: 0 <= j < n ==> DataOf(all, layout, j) == Slice(layout, data, j)
    ensures layout.Start(n) <= |data| && Deinterleave(all, layout, n) == data[..layout.Start(n)]
  {
    StartGrows(layout, n, layout.blocks);
    if n > 0 {
      JoinsBlocks(all, layout, data, n - 1);
      StartGrows(layout, n - 1, n);
      hide Layout.Start, DataOf;
      assert data[..layout.Start(n)] == data[..layout.Start(n - 1)] + data[layout.Start(n - 1)..layout.Start(n)];
    }
  }

  /** A codeword of the Reed-Solomon code with `n` check symbols. */
  ghost predicate Codeword(p: Poly, n: nat) {
    exists q :: p == Product(q, Generator(n))
  }

  /** `block` carries the data of block `j` and a remainder making it a codeword. */
  ghost predicate Protects(layout: Layout, data: seq<Byte>, block: seq<Byte>, ecc: seq<Byte>, j: nat)
    requires layout.Sound() && j < layout.blocks && |data| == layout.Start(layout.blocks)
  {
    && |ecc| == layout.eccPerBlock
    && block == Padded(layout, Slice(layout, data, j), ecc, j)
    && Codeword(Slice(layout, data, j) + ecc, layout.eccPerBlock)
  }

  method EncodeBlocks(data: seq<Byte>, layout: Layout) returns (blocks: seq<seq<Byte>>, ghost eccs: seq<seq<Byte>>)
    requires layout.Sound() && |data| == layout.Start(layout.blocks)
    ensures WellSized(blocks, layout) && |eccs| == layout.blocks
    ensures forall j :: 0 <= j < layout.blocks ==> Protects(layout, data, blocks[j], eccs[j], j)
  {
    blocks, eccs := [], [];
    var divisor := ReedSolomonDivisor(layout.eccPerBlock);
    var k := 0;
    hide Product, Generator, Slice, Codeword;
    for i := 0 to layout.blocks
      invariant |blocks| == i && |eccs| == i && k == layout.Start(i)
      invariant forall j ::
          0 <= j < i ==> |blocks[j]| == layout.Width() && Protects(layout, data, blocks[j], eccs[j], j)
    {
      var block;
      ghost var ecc;
      block, ecc := EncodeBlock(data, layout, divisor, i, k);
      StartGrows(layout, i, i + 1);
      k := k + layout.DataLength(i);
      blocks := blocks + [block];
      eccs := eccs + [ecc];
    }
  }

  method EncodeBlock(data: seq<Byte>, layout: Layout, divisor: Poly, i: nat, k: nat)
    returns (block: seq<Byte>, ghost ecc: seq<Byte>)
    requires layout.Sound() && i < layout.blocks && |data| == layout.Start(layout.blocks) && k == layout.Start(i)
    requires |divisor| == layout.eccPerBlock && [1] + divisor == Generator(layout.eccPerBlock)
    ensures |block| == layout.Width() && Protects(layout, data, block, ecc, i)
  {
    StartGrows(layout, i + 1, layout.blocks);
    var dat := data[k..k + layout.ShortData() + (if i < layout.NumShort() then 0 else 1)];
    assert dat == Slice(layout, data, i);
    hide Product, Generator, Slice, Layout.Start, Layout.NumShort, Layout.ShortData;
    var eccBytes;
    ghost var quotient;
    eccBytes, quotient := ReedSolomonRemainder(dat, divisor);
    assert Codeword(dat + eccBytes, layout.eccPerBlock);
    ecc := eccBytes;
    if i < layout.NumShort() {
      dat := dat + [0];
    }
    block := dat + eccBytes;
  }

  method Interleave(blocks: seq<seq<Byte>>, layout: Layout) returns (result: seq<Byte>)
    requires layout.Sound() && WellSized(blocks, layout)
    ensures result == Rows(blocks, layout, layout.Width())
  {
    result := [];
    for i := 0 to |blocks[0]|
      invariant result == Rows(blocks, layout, i)
    {
      for j := 0 to |blocks|
        invariant result == Rows(blocks, layout, i) + Row(blocks, layout, i, j)
      {
        if i != layout.ShortData() || j >= layout.NumShort() {
          result := result + [blocks[j][i]];
        }
      }
    }
  }

  /** No block shows an error: each vanishes at as many powers of alpha as it has check symbols. */
  predicate Intact(all: seq<Byte>, layout: Layout)
    requires layout.Sound() && |all| == layout.CellsBefore(layout.Width())
  {
    forall j, i :: 0 <= j < layout.blocks && 0 <= i < layout.eccPerBlock ==>
      Eval(DataOf(all, layout, j) + EccOf(all, layout, j), Alpha(i)) == 0
  }

  lemma CodewordsIntact(all: seq<Byte>, layout: Layout)
    requires layout.Sound() && |all| == layout.CellsBefore(layout.Width())
    requires forall j :: 0 <= j < layout.blocks ==>
               Codeword(DataOf(all, layout, j) + EccOf(all, layout, j), layout.eccPerBlock)
    ensures Intact(all, layout)
  {
    forall j, i | 0 <= j < layout.blocks && 0 <= i < layout.eccPerBlock
      ensures Eval(DataOf(all, layout, j) + EccOf(all, layout, j), Alpha(i)) == 0
    {
      CodewordHas(DataOf(all, layout, j) + EccOf(all, layout, j), layout.eccPerBlock, i);
    }
  }

  lemma CodewordHas(p: Poly, n: nat, i: nat)
    requires Codeword(p, n) && i < n
    ensures Eval(p, Alpha(i)) == 0
  {
    var q :| p == Product(q, Generator(n));
    hide *;
    CodewordVanishes(p, q, n, i);
  }

  method AddEccAndInterleave(data: seq<Byte>, version: nat, ecc: Ecc) returns (result: seq<Byte>)
    requires 1 <= version <= 40 && |data| == NumDataCodewords(version, ecc)
    ensures |result| == RawCodewords(version)
    ensures var layout := LayoutOf(version, ecc);
            && |result| == layout.CellsBefore(layout.Width())
            && Deinterleave(result, layout, layout.blocks) == data
            && (forall j :: 0 <= j < layout.blocks ==>
                  Codeword(DataOf(result, layout, j) + EccOf(result, layout, j), layout.eccPerBlock))
            && Intact(result, layout)
  {
    hide *;
    result := InterleavedCodewords(data, LayoutOf(version, ecc));
    CodewordsIntact(result, LayoutOf(version, ecc));
  }

  method InterleavedCodewords(data: seq<Byte>, layout: Layout) returns (result: seq<Byte>)
    requires layout.Sound() && |data| == layout.Start(layout.blocks)
    ensures |result| == layout.CellsBefore(layout.Width()) == layout.rawCodewords
    ensures Deinterleave(result, layout, layout.blocks) == data
    ensures forall j :: 0 <= j < layout.blocks ==>
              Codeword(DataOf(result, layout, j) + EccOf(result, layout, j), layout.eccPerBlock)
  {
    var blocks;
    ghost var eccs;
    blocks, eccs := EncodeBlocks(data, layout);
    result := Interleave(blocks, layout);
    AllTransmitted(layout);
    hide Rows, Deinterleave, DataOf, EccOf, Codeword, WellSized;
    forall j | 0 <= j < layout.blocks
      ensures DataOf(result, layout, j) == Slice(layout, data, j)
      ensures Codeword(DataOf(result, layout, j) + EccOf(result, layout, j), layout.eccPerBlock)
    {
      ReadsBlock(blocks, layout, j, Slice(layout, data, j), eccs[j]);
    }
    JoinsBlocks(result, layout, data, layout.blocks);
  }

  lemma {:induction false} RowClosed(layout: Layout, i: nat, j: nat)
    requires layout.Sound()
    ensures layout.CellsInRow(i, j)
         == if i != layout.ShortData() then j else if j < layout.NumShort() then 0 else j - layout.NumShort()
  {
    if j > 0 {
      RowClosed(layout, i, j - 1);
    }
  }

  lemma {:induction false} CellsClosed(layout: Layout, i: nat)
    requires layout.Sound()
    ensures layout.CellsBefore(i)
         == i * layout.blocks - (if i <= layout.ShortData() then 0 else layout.NumShort())
  {
    if i > 0 {
      CellsClosed(layout, i - 1);
      RowClosed(layout, i - 1, layout.blocks);
      assert i * layout.blocks == (i - 1) * layout.blocks + layout.blocks;
    }
  }

  /** Interleaving transmits every raw codeword of the symbol. */
  lemma AllTransmitted(layout: Layout)
    requires layout.Sound()
    ensures layout.CellsBefore(layout.Width()) == layout.rawCodewords
  {
    CellsClosed(layout, layout.Width());
    var q := layout.rawCodewords / layout.blocks;
    assert layout.Width() == q + 1;
    assert (q + 1) * layout.blocks == q * layout.blocks + layout.blocks;
    assert layout.rawCodewords == q * layout.blocks + layout.rawCodewords % layout.blocks;
  }

  // ---- Where each codeword is transmitted ----------------------------------------------------------

  lemma {:induction false} CellsInRowIs(layout: Layout, i: nat, j: nat)
    requires layout.Sound() && j <= layout.blocks
    ensures layout.CellsInRow(i, j)
         == if i == layout.ShortData() then (if j < layout.NumShort() then 0 else j - layout.NumShort()) else j
  {
    if j > 0 { CellsInRowIs(layout, i, j - 1); }
  }

  lemma {:induction false} CellsBeforeIs(layout: Layout, i: nat)
    requires layout.Sound()
    ensures i <= layout.ShortData() ==> layout.CellsBefore(i) == i * layout.blocks
    ensures i > layout.ShortData() ==>
              layout.CellsBefore(i) == (i - 1) * layout.blocks + layout.rawCodewords % layout.blocks
  {
    if i > 0 {
      CellsBeforeIs(layout, i - 1);
      CellsInRowIs(layout, i - 1, layout.blocks);
      assert (i - 1) * layout.blocks + layout.blocks == i * layout.blocks;
      assert i >= 2 ==> (i - 2) * layout.blocks + layout.blocks == (i - 1) * layout.blocks;
      hide Layout.ShortData;
    }
  }

  /** First one data codeword of every block after another; then the last data codeword of the long blocks, which come
      last; then one check codeword of every block after another. */
  lemma InterleavedAt(layout: Layout, i: nat, j: nat)
    requires layout.Sound() && j < layout.blocks && i < layout.Width() && !layout.Skipped(i, j)
    ensures var data, short := layout.rawCodewords / layout.blocks - layout.eccPerBlock,
                layout.blocks - layout.rawCodewords % layout.blocks;
            Position(layout, i, j)
            == if i < data then i * layout.blocks + j
               else if i == data then data * layout.blocks + (j - short)
               else (i - 1) * layout.blocks + layout.rawCodewords % layout.blocks + j
  {
    CellsBeforeIs(layout, i);
    CellsInRowIs(layout, i, j);
  }
}
