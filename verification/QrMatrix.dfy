/** The module matrix of a QR symbol: zigzag placement of the codewords, masks and
    format information, with the reader that undoes each of them. */
module QrMatrix {
  import opened XorArithmetic
  import opened Gf256
  import opened QrTables
  import opened QrCodewords

  type Grid = seq<seq<bool>>

  datatype Point = Point(x: int, y: int)

  predicate Square(g: Grid, size: nat) {
    |g| == size && forall y :: 0 <= y < size ==> |g[y]| == size
  }

  predicate Inside(c: Point, size: nat) {
    0 <= c.x < size && 0 <= c.y < size
  }

  function At(g: Grid, c: Point, size: nat): bool
    requires Square(g, size) && Inside(c, size)
  {
    g[c.y][c.x]
  }

  function Put(g: Grid, c: Point, dark: bool, size: nat): (h: Grid)
    requires Square(g, size) && Inside(c, size)
    ensures Square(h, size) && At(h, c, size) == dark
    ensures forall d :: Inside(d, size) && d != c ==> At(h, d, size) == At(g, d, size)
  {
    g[c.y := g[c.y][c.x := dark]]
  }

  lemma SameGrid(g: Grid, h: Grid, size: nat)
    requires Square(g, size) && Square(h, size)
    requires forall c :: Inside(c, size) ==> At(g, c, size) == At(h, c, size)
    ensures g == h
  {
    forall y | 0 <= y < size
      ensures g[y] == h[y]
    {
      forall x | 0 <= x < size
        ensures g[y][x] == h[y][x]
      {
        assert At(g, Point(x, y), size) == At(h, Point(x, y), size);
      }
    }
  }

  // ---- The zigzag path ----------------------------------------------------------------

  /** The right column of the `p`-th column pair; column 6 is skipped. */
  function Right(size: nat, p: nat): int {
    var c := size - 1 - 2 * p;
    if c > 6 then c else c - 1
  }

  predicate Upward(right: int) {
    ((right + 1) / 2) % 2 == 0
  }

  function CellAt(size: nat, p: nat, vert: nat, j: nat): Point {
    var right := Right(size, p);
    Point(right - j, if Upward(right) then size - 1 - vert else vert)
  }

  /** The cells of pair `p` in the first `vert` rows of the sweep. */
  function Sweep(size: nat, p: nat, vert: nat): seq<Point> {
    if vert == 0 then []
    else Sweep(size, p, vert - 1) + [CellAt(size, p, vert - 1, 0), CellAt(size, p, vert - 1, 1)]
  }

  /** The cells of the first `p` column pairs, in the order they are filled. */
  function Path(size: nat, p: nat): seq<Point> {
    if p == 0 then [] else Path(size, p - 1) + Sweep(size, p - 1, size)
  }

  function Zigzag(size: nat): seq<Point> {
    Path(size, size / 2)
  }

  predicate NoRepeats(path: seq<Point>) {
    forall i, j :: 0 <= i < j < |path| ==> path[i] != path[j]
  }

  predicate AllInside(path: seq<Point>, size: nat) {
    forall i :: 0 <= i < |path| ==> Inside(path[i], size)
  }

  lemma SweepGrown(size: nat, p: nat, vert: nat)
    requires vert > 0
    ensures Sweep(size, p, vert)
         == Sweep(size, p, vert - 1) + [CellAt(size, p, vert - 1, 0), CellAt(size, p, vert - 1, 1)]
  {
    hide CellAt;
  }

  lemma RightInside(size: nat, p: nat)
    requires size % 2 == 1 && size >= 9 && p < size / 2
    ensures 1 <= Right(size, p) < size
  {}

  /** Different cells of the columns `right - 1` and `right`, in the last or the first `vert` rows. */
  ghost predicate Swept(path: seq<Point>, size: nat, right: int, up: bool, vert: nat) {
    && AllInside(path, size) && NoRepeats(path)
    && (forall c :: c in path ==> right - 1 <= c.x <= right)
    && (forall c :: c in path ==> if up then size - vert <= c.y else c.y < vert)
  }

  lemma SweptRow(before: seq<Point>, a: Point, b: Point, size: nat, right: int, up: bool, vert: nat)
    requires 0 < vert <= size && 1 <= right < size && Swept(before, size, right, up, vert - 1)
    requires a == Point(right, if up then size - vert else vert - 1) && b == Point(right - 1, a.y)
    ensures Swept(before + [a, b], size, right, up, vert)
  {
    assert a !in before && b !in before;
  }

  lemma CellsAre(size: nat, p: nat, v: nat)
    ensures CellAt(size, p, v, 0) == Point(Right(size, p), if Upward(Right(size, p)) then size - 1 - v else v)
    ensures CellAt(size, p, v, 1) == Point(Right(size, p) - 1, CellAt(size, p, v, 0).y)
  {
    hide Right, Upward;
  }

  lemma NoneSwept(size: nat, p: nat, right: int, up: bool)
    ensures Sweep(size, p, 0) == [] && Swept([], size, right, up, 0)
  {}

  lemma {:induction false} SweepSwept(size: nat, p: nat, vert: nat)
    requires size % 2 == 1 && size >= 9 && p < size / 2 && vert <= size
    ensures Swept(Sweep(size, p, vert), size, Right(size, p), Upward(Right(size, p)), vert)
  {
    hide *;
    if vert == 0 {
      NoneSwept(size, p, Right(size, p), Upward(Right(size, p)));
    } else {
      SweepSwept(size, p, vert - 1);
      SweepGrown(size, p, vert);
      RightInside(size, p);
      CellsAre(size, p, vert - 1);
      SweptRow(Sweep(size, p, vert - 1), CellAt(size, p, vert - 1, 0), CellAt(size, p, vert - 1, 1), size,
          Right(size, p), Upward(Right(size, p)), vert);
    }
  }

  lemma {:induction false} SweepHas(size: nat, p: nat, vert: nat, v: nat, j: nat)
    requires v < vert && j < 2
    ensures CellAt(size, p, v, j) in Sweep(size, p, vert)
  {
    hide *;
    SweepGrown(size, p, vert);
    var row := [CellAt(size, p, vert - 1, 0), CellAt(size, p, vert - 1, 1)];
    if v < vert - 1 {
      SweepHas(size, p, vert - 1, v, j);
    } else {
      assert row[j] == CellAt(size, p, v, j);
    }
  }

  /** Different cells from column `from` on, none in column 6. */
  ghost predicate Visited(path: seq<Point>, size: nat, from: int) {
    AllInside(path, size) && NoRepeats(path) && forall c :: c in path ==> c.x != 6 && c.x >= from
  }

  /** The first column the first `p` pairs reach. */
  function From(size: nat, p: nat): int {
    if p == 0 then size else Right(size, p - 1) - 1
  }

  lemma PairsAre(size: nat, p: nat)
    requires size % 2 == 1 && size >= 9 && p < size / 2
    ensures Right(size, p) < From(size, p) && Right(size, p) != 6 && Right(size, p) != 7
    ensures From(size, p + 1) == Right(size, p) - 1
  {}

  lemma PairVisited(before: seq<Point>, sweep: seq<Point>, size: nat, from: int, right: int, up: bool)
    requires Visited(before, size, from) && Swept(sweep, size, right, up, size)
    requires right < from && right != 6 && right != 7
    ensures Visited(before + sweep, size, right - 1)
  {
    var path := before + sweep;
    forall i, j | 0 <= i < j < |path|
      ensures path[i] != path[j]
    {
      if i < |before| <= j {
        assert before[i] in before && sweep[j - |before|] in sweep;
      }
    }
    hide Inside, Swept;
    assert forall c :: c in path <==> c in before || c in sweep;
  }

  lemma PathGrown(size: nat, p: nat)
    ensures p == 0 ==> Path(size, p) == [] && Visited([], size, From(size, 0))
    ensures p > 0 ==> Path(size, p) == Path(size, p - 1) + Sweep(size, p - 1, size)
  {
    hide Sweep;
  }

  lemma {:induction false} PathVisited(size: nat, p: nat)
    requires size % 2 == 1 && size >= 9 && p <= size / 2
    ensures Visited(Path(size, p), size, From(size, p))
  {
    hide *;
    PathGrown(size, p);
    if p > 0 {
      PathVisited(size, p - 1);
      SweepSwept(size, p - 1, size);
      PairsAre(size, p - 1);
      PairVisited(Path(size, p - 1), Sweep(size, p - 1, size), size, From(size, p - 1), Right(size, p - 1),
          Upward(Right(size, p - 1)));
    }
  }

  lemma {:induction false} PathReaches(size: nat, p: nat, q: nat, v: nat, j: nat)
    requires size % 2 == 1 && size >= 9 && q < p <= size / 2 && v < size && j < 2
    ensures CellAt(size, q, v, j) in Path(size, p)
  {
    hide *;
    PathGrown(size, p);
    if q == p - 1 {
      SweepHas(size, q, size, v, j);
    } else {
      PathReaches(size, p - 1, q, v, j);
    }
  }

  lemma ZigzagStaysInside(size: nat)
    requires size % 2 == 1 && size >= 9
    ensures AllInside(Zigzag(size), size)
  {
    PathVisited(size, size / 2);
    hide AllInside, Path;
  }

  /** The zigzag visits every cell outside column 6 exactly once, and no other. */
  lemma ZigzagVisitsOnce(size: nat)
    requires size % 2 == 1 && size >= 9
    ensures NoRepeats(Zigzag(size))
    ensures forall c :: c in Zigzag(size) <==> Inside(c, size) && c.x != 6
  {
    PathVisited(size, size / 2);
    hide Path;
    forall c | Inside(c, size) && c.x != 6
      ensures c in Zigzag(size)
    {
      var q := if c.x > 6 then (size - 1 - c.x) / 2 else (size - 2 - c.x) / 2;
      var right := Right(size, q);
      var j := right - c.x;
      var v := if Upward(right) then size - 1 - c.y else c.y;
      assert CellAt(size, q, v, j) == c;
      PathReaches(size, size / 2, q, v, j);
    }
  }

  lemma {:induction false} SweepAt(size: nat, p: nat, vert: nat, v: nat, j: nat)
    requires v < vert && j < 2
    ensures |Sweep(size, p, vert)| == 2 * vert && Sweep(size, p, vert)[2 * v + j] == CellAt(size, p, v, j)
  {
    hide CellAt;
    if vert > 1 { SweepAt(size, p, vert - 1, if v < vert - 1 then v else 0, j); }
  }

  lemma {:induction false} PathAt(size: nat, n: nat, p: nat, v: nat, j: nat)
    requires p < n && v < size && j < 2
    ensures |Path(size, n)| == 2 * size * n && 2 * size * p + 2 * v + j < |Path(size, n)|
    ensures Path(size, n)[2 * size * p + 2 * v + j] == CellAt(size, p, v, j)
  {
    hide CellAt;
    SweepAt(size, n - 1, size, v, j);
    var front := Path(size, n - 1);
    assert Path(size, n) == front + Sweep(size, n - 1, size);
    assert 2 * size * n == 2 * size * (n - 1) + 2 * size;
    if n > 1 {
      PathAt(size, n - 1, if p < n - 1 then p else 0, v, j);
    } else {
      assert front == [] && 2 * size * 0 == 0;
    }
    hide Path, Sweep;
    if p < n - 1 {
      assert (front + Sweep(size, n - 1, size))[2 * size * p + 2 * v + j] == front[2 * size * p + 2 * v + j];
    }
  }

  /** In a symbol of any version the path runs in pairs of columns from the lower right corner, up the first pair and
      down the next, right column first in each row, stepping over column 6. */
  lemma ZigzagAt(size: nat, p: nat, v: nat, j: nat)
    requires size % 4 == 1 && size >= 21 && p < size / 2 && v < size && j < 2
    ensures |Zigzag(size)| == 2 * size * (size / 2)
    ensures Visits(Zigzag(size), 2 * size * p + 2 * v + j,
                   Point((if 2 * p < size - 7 then size - 1 - 2 * p else size - 2 - 2 * p) - j,
                         if p % 2 == 0 then size - 1 - v else v))
  {
    hide *;
    PathAt(size, size / 2, p, v, j);
    ZigzagIs(size);
    CellIs(size, p, v, j);
    VisitsIs(Zigzag(size), 2 * size * p + 2 * v + j, CellAt(size, p, v, j));
  }

  /** The path has this cell at this place. */
  predicate Visits(path: seq<Point>, place: int, c: Point) {
    0 <= place < |path| && path[place] == c
  }

  lemma VisitsIs(path: seq<Point>, place: int, c: Point)
    ensures Visits(path, place, c) <==> 0 <= place < |path| && path[place] == c
  {}

  lemma ZigzagIs(size: nat)
    ensures Zigzag(size) == Path(size, size / 2)
  {
    hide Path;
  }

  lemma CellIs(size: nat, p: nat, v: nat, j: nat)
    requires size % 4 == 1 && size >= 21 && p < size / 2
    ensures CellAt(size, p, v, j)
         == Point((if 2 * p < size - 7 then size - 1 - 2 * p else size - 2 - 2 * p) - j,
                  if p % 2 == 0 then size - 1 - v else v)
  {
    var m := size / 4;
    assert size == 4 * m + 1;
    assert (Right(size, p) + 1) / 2 == 2 * m - p;
  }

  // ---- Writing and reading along a path --------------------------------------------------

  datatype Written = Written(grid: Grid, used: nat)

  /** Writes `bits` into the free cells of `path`, in order, until they run out. */
  function Write(g: Grid, isFunction: Grid, size: nat, path: seq<Point>, bits: Bits): (w: Written)
    requires Square(g, size) && Square(isFunction, size) && AllInside(path, size)
    ensures Square(w.grid, size) && w.used <= |bits|
  {
    if path == [] then Written(g, 0)
    else
      var c, before := path[|path| - 1], Write(g, isFunction, size, path[..|path| - 1], bits);
      if !At(isFunction, c, size) && before.used < |bits|
      then Written(Put(before.grid, c, bits[before.used], size), before.used + 1)
      else before
  }

  /** The free cells of `path`, read in order. */
  function Read(g: Grid, isFunction: Grid, size: nat, path: seq<Point>): (bits: Bits)
    requires Square(g, size) && Square(isFunction, size) && AllInside(path, size)
    ensures |bits| <= |path|
  {
    if path == [] then []
    else
      var c := path[|path| - 1];
      Read(g, isFunction, size, path[..|path| - 1]) + (if At(isFunction, c, size) then [] else [At(g, c, size)])
  }

  lemma {:induction false} WriteKeepsOthers(g: Grid, isFunction: Grid, size: nat, path: seq<Point>, bits: Bits,
      d: Point)
    requires Square(g, size) && Square(isFunction, size) && AllInside(path, size) && Inside(d, size)
    requires d !in path || At(isFunction, d, size)
    ensures At(Write(g, isFunction, size, path, bits).grid, d, size) == At(g, d, size)
  {
    if path != [] {
      WriteKeepsOthers(g, isFunction, size, path[..|path| - 1], bits, d);
    }
  }

  lemma {:induction false} ReadSame(g: Grid, h: Grid, isFunction: Grid, size: nat, path: seq<Point>)
    requires Square(g, size) && Square(h, size) && Square(isFunction, size) && AllInside(path, size)
    requires forall c :: c in path && !At(isFunction, c, size) ==> At(g, c, size) == At(h, c, size)
    ensures Read(g, isFunction, size, path) == Read(h, isFunction, size, path)
  {
    if path != [] {
      ReadSame(g, h, isFunction, size, path[..|path| - 1]);
    }
  }

  lemma {:induction false} ReadsWritten(g: Grid, isFunction: Grid, size: nat, path: seq<Point>, bits: Bits)
    requires Square(g, size) && Square(isFunction, size) && AllInside(path, size) && NoRepeats(path)
    ensures var w := Write(g, isFunction, size, path, bits);
            var read := Read(w.grid, isFunction, size, path);
            && w.used == (if |read| < |bits| then |read| else |bits|)
            && read[..w.used] == bits[..w.used]
  {
    if path != [] {
      var front, c := path[..|path| - 1], path[|path| - 1];
      ReadsWritten(g, isFunction, size, front, bits);
      var before, w := Write(g, isFunction, size, front, bits), Write(g, isFunction, size, path, bits);
      assert c !in front;
      ReadSame(before.grid, w.grid, isFunction, size, front);
    }
  }

  // ---- Masks ------------------------------------------------------------------------------

  predicate MaskApplies(mask: nat, x: nat, y: nat)
    requires mask < 8
  {
    match mask
    case 0 => (x + y) % 2 == 0
    case 1 => y % 2 == 0
    case 2 => x % 3 == 0
    case 3 => (x + y) % 3 == 0
    case 4 => (x / 3 + y / 2) % 2 == 0
    case 5 => (x * y) % 2 + (x * y) % 3 == 0
    case 6 => ((x * y) % 2 + (x * y) % 3) % 2 == 0
    case _ => ((x + y) % 2 + (x * y) % 3) % 2 == 0
  }

  /** The eight patterns in other words: a chessboard, every second row, every third column, diagonals, a chessboard of
      two by three, and three that depend on the product alone or with the chessboard. */
  lemma MaskShapes(x: nat, y: nat)
    ensures MaskApplies(0, x, y) <==> x % 2 == y % 2
    ensures MaskApplies(1, x, y) <==> y == 2 * (y / 2)
    ensures MaskApplies(2, x, y) <==> x == 3 * (x / 3)
    ensures MaskApplies(3, x, y) <==> x + y == 3 * ((x + y) / 3)
    ensures MaskApplies(4, x, y) <==> (x / 3) % 2 == (y / 2) % 2
    ensures MaskApplies(5, x, y) <==> (x * y) % 6 == 0
    ensures MaskApplies(6, x, y) <==> (x * y) % 6 <= 2
    ensures MaskApplies(7, x, y) <==> (x % 2 == y % 2) == ((x * y) % 3 != 1)
  {
    hide MaskApplies;
    SumMasks(x, y);
    ProductMasks(x, y, x * y);
  }

  lemma SumMasks(x: nat, y: nat)
    ensures MaskApplies(0, x, y) <==> x % 2 == y % 2
    ensures MaskApplies(1, x, y) <==> y == 2 * (y / 2)
    ensures MaskApplies(2, x, y) <==> x == 3 * (x / 3)
    ensures MaskApplies(3, x, y) <==> x + y == 3 * ((x + y) / 3)
    ensures MaskApplies(4, x, y) <==> (x / 3) % 2 == (y / 2) % 2
  {
    ByRemainders(0, x, y);
  }

  lemma ProductMasks(x: nat, y: nat, n: nat)
    requires n == x * y
    ensures MaskApplies(5, x, y) <==> n % 6 == 0
    ensures MaskApplies(6, x, y) <==> n % 6 <= 2
    ensures MaskApplies(7, x, y) <==> (x % 2 == y % 2) == (n % 3 != 1)
  {
    ByRemainders(n, x, y);
    assert MaskApplies(5, x, y) <==> n % 2 + n % 3 == 0;
    assert MaskApplies(6, x, y) <==> (n % 2 + n % 3) % 2 == 0;
    assert MaskApplies(7, x, y) <==> ((x + y) % 2 + n % 3) % 2 == 0;
    hide MaskApplies;
  }

  lemma ByRemainders(n: nat, x: nat, y: nat)
    ensures n % 2 + n % 3 == 0 <==> n % 6 == 0
    ensures (n % 2 + n % 3) % 2 == 0 <==> n % 6 <= 2
    ensures ((x + y) % 2 + n % 3) % 2 == 0 <==> (x % 2 == y % 2) == (n % 3 != 1)
    ensures (x + y) % 2 == 0 <==> x % 2 == y % 2
    ensures (x / 3 + y / 2) % 2 == 0 <==> (x / 3) % 2 == (y / 2) % 2
  {
    assert n == 6 * (n / 6) + n % 6;
    assert n % 2 == n % 6 % 2 && n % 3 == n % 6 % 3;
  }

  predicate Flips(isFunction: Grid, size: nat, mask: nat, c: Point)
    requires Square(isFunction, size) && mask < 8 && Inside(c, size)
  {
    !At(isFunction, c, size) && MaskApplies(mask, c.x, c.y)
  }

  /** `h` is `g` with the free cells selected by the mask inverted. */
  ghost predicate Masked(g: Grid, h: Grid, isFunction: Grid, size: nat, mask: nat)
    requires Square(isFunction, size) && mask < 8
  {
    && Square(g, size) && Square(h, size)
    && forall c :: Inside(c, size) ==> At(h, c, size) == (At(g, c, size) != Flips(isFunction, size, mask, c))
  }

  function MaskedGrid(g: Grid, isFunction: Grid, size: nat, mask: nat): (h: Grid)
    requires Square(g, size) && Square(isFunction, size) && mask < 8
    ensures Masked(g, h, isFunction, size, mask)
  {
    seq(size, y requires 0 <= y < size =>
      seq(size, x requires 0 <= x < size =>
        g[y][x] != Flips(isFunction, size, mask, Point(x, y))))
  }

  lemma MaskTwice(g: Grid, h: Grid, k: Grid, isFunction: Grid, size: nat, mask: nat)
    requires Square(isFunction, size) && mask < 8
    requires Masked(g, h, isFunction, size, mask) && Masked(h, k, isFunction, size, mask)
    ensures g == k
  {
    hide Flips;
    SameGrid(g, k, size);
  }

  lemma MaskUnique(g: Grid, h: Grid, k: Grid, isFunction: Grid, size: nat, mask: nat)
    requires Square(isFunction, size) && mask < 8
    requires Masked(g, h, isFunction, size, mask) && Masked(g, k, isFunction, size, mask)
    ensures h == k
  {
    hide Flips;
    SameGrid(h, k, size);
  }

  // ---- Format information --------------------------------------------------------------------

  function FormatLevel(ecc: Ecc): nat {
    match ecc
    case L => 1
    case M => 0
    case Q => 3
    case H => 2
  }

  function EccOfLevel(level: nat): Ecc {
    match level
    case 0 => M
    case 1 => L
    case 2 => H
    case _ => Q
  }

  /** One step of the BCH division by 0x537. */
  function BchStep(rem: nat): nat {
    Xor(ShiftLeft(rem, 1), ShiftRight(rem, 9) * 0x537)
  }

  function BchRemainder(data: nat, steps: nat): nat {
    if steps == 0 then data else BchStep(BchRemainder(data, steps - 1))
  }

  /** The 15 format bits: level, mask and check bits, xored with 0x5412. */
  function FormatWord(ecc: Ecc, mask: nat): nat
    requires mask < 8
  {
    Assembled(8 * FormatLevel(ecc) + mask, BchRemainder(8 * FormatLevel(ecc) + mask, 10))
  }

  function Assembled(data: nat, rem: nat): nat {
    Xor(ShiftLeft(data, 10) + rem, 0x5412)
  }

  /** Where the `k`-th format module is drawn: 15 around the first finder, 15 split
      between the other two, and the dark module. */
  function FormatCell(size: nat, k: nat): Point
    requires k < 31
  {
    if k <= 5 then Point(8, k)
    else if k == 6 then Point(8, 7)
    else if k == 7 then Point(8, 8)
    else if k == 8 then Point(7, 8)
    else if k < 15 then Point(14 - k, 8)
    else if k < 23 then Point(size - 1 - (k - 15), 8)
    else if k < 30 then Point(8, size - 15 + (k - 15))
    else Point(8, size - 8)
  }

  /** Both copies by their coordinates: the first down column 8 and then left along row 8, round the first finder; the
      second left along row 8 from the right edge, then down column 8 to the lower edge; and the dark module. */
  lemma FormatCells(size: nat)
    requires size >= 21
    ensures forall k :: 0 <= k < 6 ==> FormatCell(size, k) == Point(8, k)
    ensures FormatCell(size, 6) == Point(8, 7)
    ensures FormatCell(size, 7) == Point(8, 8) && FormatCell(size, 8) == Point(7, 8)
    ensures forall k :: 9 <= k < 15 ==> FormatCell(size, k) == Point(14 - k, 8)
    ensures forall k :: 15 <= k < 23 ==> FormatCell(size, k) == Point(size + 14 - k, 8)
    ensures forall k :: 23 <= k < 30 ==> FormatCell(size, k) == Point(8, size + k - 30)
    ensures FormatCell(size, 30) == Point(8, size - 8)
  {}

  function FormatDark(word: nat, k: nat): bool
    requires k < 31
  {
    if k < 15 then BitOf(word, k) else if k < 30 then BitOf(word, k - 15) else true
  }

  /** `h` is `g` with the first `n` format modules drawn. */
  ghost predicate Formatted(g: Grid, h: Grid, size: nat, word: nat, n: nat)
    requires size >= 21 && n <= 31
  {
    && Square(g, size) && Square(h, size)
    && (forall k :: 0 <= k < n ==> At(h, FormatCell(size, k), size) == FormatDark(word, k))
    && (forall c ::
        Inside(c, size) && (forall k :: 0 <= k < n ==> c != FormatCell(size, k)) ==> At(h, c, size) == At(g, c, size))
  }

  function DrawFormat(g: Grid, size: nat, word: nat, n: nat): (h: Grid)
    requires size >= 21 && n <= 31 && Square(g, size)
    ensures Formatted(g, h, size, word, n)
  {
    if n == 0 then g
    else
      var before := DrawFormat(g, size, word, n - 1);
      FormatCellsDistinct(size);
      Put(before, FormatCell(size, n - 1), FormatDark(word, n - 1), size)
  }

  ghost predicate FormatCovers(size: nat, c: Point)
    requires size >= 21
  {
    exists k :: 0 <= k < 31 && c == FormatCell(size, k)
  }

  ghost predicate AgreeOffFormat(g: Grid, h: Grid, size: nat)
    requires size >= 21
  {
    && Square(g, size) && Square(h, size)
    && forall c :: Inside(c, size) && !FormatCovers(size, c) ==> At(g, c, size) == At(h, c, size)
  }

  lemma FormatCellsDistinct(size: nat)
    requires size >= 21
    ensures forall j, k :: 0 <= j < k < 31 ==> FormatCell(size, j) != FormatCell(size, k)
  {}

  lemma FormatAgrees(g: Grid, h: Grid, size: nat, word: nat)
    requires size >= 21 && Formatted(g, h, size, word, 31)
    ensures AgreeOffFormat(g, h, size)
  {}

  /** Drawing over an earlier format leaves no trace of it. */
  lemma FormatOverwrites(g: Grid, g': Grid, h: Grid, h': Grid, size: nat, word: nat)
    requires size >= 21 && Formatted(g, h, size, word, 31) && Formatted(g', h', size, word, 31)
    requires AgreeOffFormat(g, g', size)
    ensures h == h'
  {
    hide FormatCell, FormatDark;
    forall c | Inside(c, size)
      ensures At(h, c, size) == At(h', c, size)
    {
      if FormatCovers(size, c) {
        var k :| 0 <= k < 31 && c == FormatCell(size, k);
      }
    }
    SameGrid(h, h', size);
  }

  lemma BchStepIs(rem: nat)
    requires rem < 1024
    ensures BchStep(rem) == Xor(2 * rem, if rem >= 512 then 0x537 else 0)
  {
    hide Xor, ShiftLeft, ShiftRight;
    ShiftLeftValues(rem);
    ShiftRightValues(rem);
    assert rem / 512 == if rem >= 512 then 1 else 0;
  }

  lemma BchStepBound(rem: nat)
    requires rem < 1024
    ensures BchStep(rem) < 1024
  {
    hide *;
    BchStepIs(rem);
    Pow2Values();
    if rem >= 512 {
      ShiftLeftValues(0);
      ShiftLeftValues(1);
      XorSplit(2 * rem - 1024, 1, 0x537 - 1024, 1, 10);
      XorBound(2 * rem - 1024, 0x537 - 1024, 10);
      XorSelf(1);
    } else {
      XorZero(2 * rem);
    }
  }

  lemma {:induction false} BchBound(data: nat, steps: nat)
    requires data < 32
    ensures BchRemainder(data, steps) < 1024
  {
    if steps > 0 {
      BchBound(data, steps - 1);
      BchStepBound(BchRemainder(data, steps - 1));
    }
  }

  lemma AssembledParts(data: nat, rem: nat)
    requires data < 32 && rem < 1024
    ensures Xor(Assembled(data, rem), 0x5412) / 1024 == data && Assembled(data, rem) < Pow2(15)
  {
    hide Xor;
    ShiftLeftValues(data);
    Pow2Values();
    XorCancel(1024 * data + rem, 0x5412);
    XorBound(1024 * data + rem, 0x5412, 15);
  }

  /** The level and the mask are the top five bits of the unmasked format word. */
  lemma FormatDecodes(ecc: Ecc, mask: nat)
    requires mask < 8
    ensures FormatWord(ecc, mask) < Pow2(15)
    ensures var data := Xor(FormatWord(ecc, mask), 0x5412) / 1024;
            data % 8 == mask && data / 8 < 4 && EccOfLevel(data / 8) == ecc
  {
    hide Xor, BchRemainder, Assembled;
    var data := 8 * FormatLevel(ecc) + mask;
    BchBound(data, 10);
    AssembledParts(data, BchRemainder(data, 10));
  }

  /** The format word read from the 15 modules around the first finder. */
  function ReadFormat(g: Grid, size: nat, n: nat): nat
    requires Square(g, size) && size >= 21 && n <= 15
  {
    if n == 0 then 0
    else (if At(g, FormatCell(size, 15 - n), size) then 1 else 0) + 2 * ReadFormat(g, size, n - 1)
  }

  lemma {:induction false} ReadsFormat(g: Grid, h: Grid, size: nat, word: nat, n: nat)
    requires size >= 21 && Formatted(g, h, size, word, 31) && n <= 15 && word < Pow2(15)
    ensures ReadFormat(h, size, n) == ShiftRight(word, 15 - n)
  {
    if n == 0 {
      ShiftRightSmall(word, 15);
    } else {
      ReadsFormat(g, h, size, word, n - 1);
      ShiftRightMore(word, 15 - n);
      assert At(h, FormatCell(size, 15 - n), size) == FormatDark(word, 15 - n);
    }
  }
}
