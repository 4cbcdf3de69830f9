/** Gap-limit address scans: the extension's paged one and the command line's. */
module GapScan {
  import opened Common

  /** What the explorer says of each index: whether it was ever used, and its unspent outputs. */
  datatype Chain = Chain(used: nat -> bool, utxos: nat -> seq<nat>)

  // ---- One address at a time -------------------------------------------------------------------

  /** How many of the last addresses below `n` are unused in a row. */
  function Trailing(c: Chain, n: nat): nat {
    if n == 0 || c.used(n - 1) then 0 else Trailing(c, n - 1) + 1
  }

  /** One past the highest used index below `n`. */
  function NextUnused(c: Chain, n: nat): nat {
    if n == 0 then 0 else if c.used(n - 1) then n else NextUnused(c, n - 1)
  }

  function UtxosBelow(c: Chain, n: nat): seq<nat> {
    if n == 0 then [] else UtxosBelow(c, n - 1) + c.utxos(n - 1)
  }

  /** The one-by-one scan may stop after `n` addresses. */
  predicate Done(c: Chain, gap: nat, minIndex: nat, n: nat) {
    Trailing(c, n) >= gap && n >= minIndex
  }

  /** It stops after exactly `n`. */
  ghost predicate Stops(c: Chain, gap: nat, minIndex: nat, n: nat) {
    Done(c, gap, minIndex, n) && forall m :: 0 <= m < n ==> !Done(c, gap, minIndex, m)
  }

  lemma StopsOnce(c: Chain, gap: nat, minIndex: nat, n: nat, m: nat)
    requires Stops(c, gap, minIndex, n) && Stops(c, gap, minIndex, m)
    ensures n == m
  {
    hide Done;
  }

  // ---- The paged scan ----------------------------------------------------------------------------------

  datatype ScanResult = ScanResult(
    addresses: seq<nat>, utxos: seq<nat>, lastScanned: int, highestUsed: Option<nat>, nextUnused: nat, trailing: nat)

  function FirstIndexes(n: nat): seq<nat> {
    seq(n, i => i)
  }

  /** The result of scanning the first `n` addresses. */
  function ResultAt(c: Chain, n: nat): ScanResult {
    ScanResult(FirstIndexes(n), UtxosBelow(c, n), n - 1, if NextUnused(c, n) == 0 then None
        else Some(NextUnused(c, n) - 1),
               NextUnused(c, n), Trailing(c, n))
  }

  datatype Progress = Progress(addresses: seq<nat>, utxos: seq<nat>, index: nat, trailing: nat,
      highestUsed: Option<nat>)

  function ProgressAt(c: Chain, n: nat): Progress {
    Progress(FirstIndexes(n), UtxosBelow(c, n), n, Trailing(c, n), ResultAt(c, n).highestUsed)
  }

  /** Handles one page's answers in order, up to the gap. */
  method ScanPage(c: Chain, gap: nat, end: nat, p: Progress) returns (next: Progress)
    requires p == ProgressAt(c, p.index) && p.index <= end && p.trailing < gap
    requires forall m :: 0 <= m < p.index ==> !Done(c, gap, 0, m)
    ensures next == ProgressAt(c, next.index) && p.index < next.index <= end + 1
    ensures forall m :: 0 <= m < next.index ==> !Done(c, gap, 0, m)
    ensures next.trailing < gap ==> next.index == end + 1
  {
    next := p;
    while true
      invariant next == ProgressAt(c, next.index) && p.index <= next.index <= end && next.trailing < gap
      invariant forall m :: 0 <= m < next.index ==> !Done(c, gap, 0, m)
      decreases end - next.index
    {
      var at := next.index;
      assert !Done(c, gap, 0, at);
      assert FirstIndexes(at + 1) == FirstIndexes(at) + [at];
      next := next.(
        addresses := next.addresses + [at], utxos := next.utxos + c.utxos(at), index := at + 1,
        trailing := if c.used(at) then 0 else next.trailing + 1,
        highestUsed := if c.used(at) then Some(at) else next.highestUsed);
      if next.trailing >= gap || at == end { return; }
    }
  }

  /** Scans page by page until `gapLimit` unused addresses in a row, or past the maximum index. */
  method ScanChain(c: Chain, gapLimit: nat, pageSize: nat, maximumIndex: nat) returns (r: Option<ScanResult>)
    requires gapLimit > 0 && pageSize > 0
    ensures ChainAnswers(c, gapLimit, maximumIndex, r)
  {
    var p := Progress([], [], 0, 0, None);
    while p.trailing < gapLimit
      invariant p == ProgressAt(c, p.index) && p.index <= maximumIndex + 1
      invariant forall m :: 0 <= m < p.index ==> !Done(c, gapLimit, 0, m)
      decreases maximumIndex + 1 - p.index, p.trailing < gapLimit
    {
      if p.index > maximumIndex {
        assert !Done(c, gapLimit, 0, p.index);
        return None;
      }
      var end := if p.index + pageSize - 1 < maximumIndex then p.index + pageSize - 1 else maximumIndex;
      p := ScanPage(c, gapLimit, end, p);
    }
    assert Stops(c, gapLimit, 0, p.index);
    var nextUnused := if p.highestUsed.None? then 0 else p.highestUsed.value + 1;
    r := Some(ScanResult(p.addresses, p.utxos, p.index - 1, p.highestUsed, nextUnused, p.trailing));
  }

  // ---- The command line's scan --------------------------------------------------------------------------

  /** Pages of up to 20 addresses, with a minimum index to reach and its own ceiling. */
  method ScanBranch(c: Chain, gapLimit: nat, minIndex: nat, ceiling: nat) returns (r: Option<(seq<nat>, nat)>)
    requires gapLimit > 0
    ensures BranchAnswers(c, gapLimit, minIndex, ceiling, r)
  {
    var results: seq<nat>, index: nat, trailing: nat, nextUnused: nat := [], 0, 0, 0;
    while trailing < gapLimit || index < minIndex
      invariant results == FirstIndexes(index) && trailing == Trailing(c, index) && nextUnused == NextUnused(c, index)
      invariant forall m :: 0 <= m < index ==> !Done(c, gapLimit, minIndex, m)
      decreases if trailing < gapLimit || index < minIndex then 1 else 0, ceiling + 1 - index
    {
      assert !Done(c, gapLimit, minIndex, index);
      if index > ceiling { return None; }
      results, index, trailing, nextUnused := BranchPage(c, gapLimit, minIndex, results, index, trailing, nextUnused);
    }
    assert Stops(c, gapLimit, minIndex, index);
    r := Some((results, nextUnused));
  }

  method BranchPage(c: Chain, gapLimit: nat, minIndex: nat, results: seq<nat>, index: nat, trailing: nat,
      nextUnused: nat)
    returns (results': seq<nat>, index': nat, trailing': nat, nextUnused': nat)
    requires results == FirstIndexes(index) && trailing == Trailing(c, index) && nextUnused == NextUnused(c, index)
    requires gapLimit > 0 && (trailing < gapLimit || index < minIndex) && forall m ::
        0 <= m < index ==> !Done(c, gapLimit, minIndex, m)
    ensures results' == FirstIndexes(index') && trailing' == Trailing(c, index') && nextUnused' == NextUnused(c, index')
    ensures index' > index && forall m :: 0 <= m < index' ==> !Done(c, gapLimit, minIndex, m)
  {
    results', index', trailing', nextUnused' := results, index, trailing, nextUnused;
    var end := index + if gapLimit < 20 then gapLimit else 20;
    while true
      invariant results' == FirstIndexes(index') && trailing' == Trailing(c, index')
          && nextUnused' == NextUnused(c, index')
      invariant index <= index' < end && (trailing' < gapLimit || index' < minIndex)
      invariant forall m :: 0 <= m < index' ==> !Done(c, gapLimit, minIndex, m)
      decreases end - index'
    {
      var at := index';
      assert !Done(c, gapLimit, minIndex, at);
      assert FirstIndexes(at + 1) == FirstIndexes(at) + [at];
      index' := at + 1;
      if c.used(at) {
        trailing', nextUnused' := 0, at + 1;
      } else {
        trailing' := trailing' + 1;
      }
      results' := results' + [at];
      if (trailing' >= gapLimit && index' >= minIndex) || index' == end { return; }
    }
  }

  // ---- What a scan finds ------------------------------------------------------------------------------------

  /** The `gap` indexes from `j` on are unused. */
  ghost predicate Gap(c: Chain, gap: nat, j: nat) {
    forall t :: j <= t < j + gap ==> !c.used(t)
  }

  lemma {:induction false} TrailingIs(c: Chain, n: nat)
    ensures Trailing(c, n) <= n && forall t :: n - Trailing(c, n) <= t < n ==> !c.used(t)
    ensures Trailing(c, n) < n ==> c.used(n - Trailing(c, n) - 1)
  {
    if n > 0 && !c.used(n - 1) { TrailingIs(c, n - 1); }
  }

  /** The scan may stop at `n` exactly when a gap ends there. */
  lemma DoneIsGap(c: Chain, gap: nat, n: nat)
    ensures Done(c, gap, 0, n) <==> n >= gap && Gap(c, gap, n - gap)
  {
    TrailingIs(c, n);
    hide Trailing;
  }

  lemma DoneBranch(c: Chain, gap: nat, minIndex: nat, n: nat)
    ensures Done(c, gap, minIndex, n) <==> n >= gap && n >= minIndex && Gap(c, gap, n - gap)
  {
    DoneIsGap(c, gap, n);
    hide Trailing, Gap;
  }

  lemma FirstDone(c: Chain, gap: nat, minIndex: nat, n: nat) returns (m: nat)
    requires Done(c, gap, minIndex, n)
    ensures m <= n && Stops(c, gap, minIndex, m)
  {
    m := 0;
    while !Done(c, gap, minIndex, m)
      invariant m <= n && forall l :: 0 <= l < m ==> !Done(c, gap, minIndex, l)
      decreases n - m
    {
      m := m + 1;
    }
  }

  /** A used index is found exactly when no gap precedes it. */
  lemma FindsBeforeGap(c: Chain, gap: nat, n: nat, i: nat)
    requires gap > 0 && Stops(c, gap, 0, n) && c.used(i)
    ensures i < n <==> forall j: nat :: j + gap <= i ==> !Gap(c, gap, j)
  {
    DoneIsGap(c, gap, n);
    if i >= n {
      assert Gap(c, gap, n - gap) && n - gap + gap <= i;
    } else {
      forall j: nat | j + gap <= i
        ensures !Gap(c, gap, j)
      {
        DoneIsGap(c, gap, j + gap);
        assert !Done(c, gap, 0, j + gap);
      }
    }
    hide Done, Gap;
  }

  /** What the extension's scan may answer. */
  ghost predicate ChainAnswers(c: Chain, gap: nat, maximumIndex: nat, r: Option<ScanResult>) {
    match r
    case Some(result) => exists n: nat :: Stops(c, gap, 0, n) && n <= maximumIndex + 1 && result == ResultAt(c, n)
    case None => forall n: nat :: Stops(c, gap, 0, n) ==> n > maximumIndex + 1
  }

  /** What the command line's scan may answer. */
  ghost predicate BranchAnswers(c: Chain, gap: nat, minIndex: nat, ceiling: nat, r: Option<(seq<nat>, nat)>) {
    match r
    case Some(result) =>
      exists n: nat :: Stops(c, gap, minIndex, n) && result == (FirstIndexes(n), NextUnused(c, n))
    case None => forall n: nat :: Stops(c, gap, minIndex, n) ==> n > ceiling + 1
  }

  /** The scan fails exactly when no gap fits under the maximum index; the command line's one counts the gaps that end
      at its minimum index or later. */
  lemma FailsWithoutGap(c: Chain, gap: nat, minIndex: nat, maximumIndex: nat)
    requires gap > 0
    ensures ChainAnswers(c, gap, maximumIndex, None)
            <==> forall j: nat :: j + gap <= maximumIndex + 1 ==> !Gap(c, gap, j)
    ensures BranchAnswers(c, gap, minIndex, maximumIndex, None)
            <==> forall j: nat :: minIndex <= j + gap <= maximumIndex + 1 ==> !Gap(c, gap, j)
  {
    NoneStops(c, gap, 0, maximumIndex);
    NoneStops(c, gap, minIndex, maximumIndex);
    hide Stops, Gap;
  }

  lemma NoneStops(c: Chain, gap: nat, minIndex: nat, maximumIndex: nat)
    requires gap > 0
    ensures (forall n: nat :: Stops(c, gap, minIndex, n) ==> n > maximumIndex + 1)
            <==> forall j: nat :: minIndex <= j + gap <= maximumIndex + 1 ==> !Gap(c, gap, j)
  {
    if j: nat :| minIndex <= j + gap <= maximumIndex + 1 && Gap(c, gap, j) {
      DoneBranch(c, gap, minIndex, j + gap);
      var m := FirstDone(c, gap, minIndex, j + gap);
      assert Stops(c, gap, minIndex, m) && m <= maximumIndex + 1;
    }
    if n: nat :| Stops(c, gap, minIndex, n) && n <= maximumIndex + 1 {
      DoneBranch(c, gap, minIndex, n);
      assert Gap(c, gap, n - gap) && minIndex <= (n - gap) + gap <= maximumIndex + 1;
    }
  }

  /** Without a minimum index, whatever the page sizes and the limits: where both programs answer, they list the
      same addresses and the same next unused index; and if their limits are equal, the command line answers
      wherever the extension does. */
  lemma ScansAgree(c: Chain, gap: nat, maximumIndex: nat, ceiling: nat, r: Option<ScanResult>,
                   q: Option<(seq<nat>, nat)>)
    requires ChainAnswers(c, gap, maximumIndex, r) && BranchAnswers(c, gap, 0, ceiling, q)
    ensures r.Some? && q.Some? ==> r.value.addresses == q.value.0 && r.value.nextUnused == q.value.1
    ensures r.Some? && maximumIndex <= ceiling ==> q.Some?
  {
    if r.Some? {
      var n: nat :| Stops(c, gap, 0, n) && n <= maximumIndex + 1 && r.value == ResultAt(c, n);
      if q.Some? {
        var m: nat :| Stops(c, gap, 0, m) && q.value == (FirstIndexes(m), NextUnused(c, m));
        StopsOnce(c, gap, 0, n, m);
      }
    }
    hide Stops;
  }

  lemma {:induction false} NothingUsed(c: Chain, n: nat)
    ensures NextUnused(c, n) <= n && forall t :: NextUnused(c, n) <= t < n ==> !c.used(t)
    ensures NextUnused(c, n) > 0 ==> c.used(NextUnused(c, n) - 1)
  {
    if n > 0 && !c.used(n - 1) { NothingUsed(c, n - 1); }
  }

  /** The next unused index is past every used index found, and its predecessor is used. */
  lemma NextIsFresh(c: Chain, gap: nat, n: nat)
    requires gap > 0 && Stops(c, gap, 0, n)
    ensures var next := NextUnused(c, n);
            next + gap == n && Gap(c, gap, next) && (next > 0 ==> c.used(next - 1))
  {
    NothingUsed(c, n);
    TrailingIs(c, n);
    DoneIsGap(c, gap, n);
    assert n > 0 && !Done(c, gap, 0, n - 1);
    assert Trailing(c, n) == Trailing(c, n - 1) + 1;
    hide Trailing, NextUnused;
  }

  lemma {:induction false} UtxosAre(c: Chain, n: nat, u: nat)
    ensures u in UtxosBelow(c, n) <==> exists i: nat :: i < n && u in c.utxos(i)
    ensures multiset(UtxosBelow(c, n + 1))[u] == multiset(UtxosBelow(c, n))[u] + multiset(c.utxos(n))[u]
  {
    if n > 0 { UtxosAre(c, n - 1, u); }
  }

  /** What the extension's scan hands out, field by field: the first addresses up to the end of the first gap, all
      their unspent outputs, and the used address just before the gap. */
  lemma ChainFound(c: Chain, gap: nat, maximumIndex: nat, r: ScanResult)
    requires gap > 0 && ChainAnswers(c, gap, maximumIndex, Some(r))
    ensures -1 <= r.lastScanned <= maximumIndex && r.addresses == seq(r.lastScanned + 1, i => i)
    ensures r.trailing == gap && r.nextUnused + gap == r.lastScanned + 1
    ensures forall t: nat :: r.nextUnused <= t <= r.lastScanned ==> !c.used(t)
    ensures forall j: nat :: j < r.nextUnused ==> !Gap(c, gap, j)
    ensures r.highestUsed == if r.nextUnused == 0 then None else Some(r.nextUnused - 1)
    ensures forall h: nat :: r.highestUsed == Some(h) ==> c.used(h)
    ensures forall u :: u in r.utxos <==> exists i: nat :: i <= r.lastScanned && u in c.utxos(i)
  {
    var n: nat :| Stops(c, gap, 0, n) && n <= maximumIndex + 1 && r == ResultAt(c, n);
    NextIsFresh(c, gap, n);
    forall j: nat | j < r.nextUnused ensures !Gap(c, gap, j) {
      DoneIsGap(c, gap, j + gap);
      assert !Done(c, gap, 0, j + gap);
    }
    forall u ensures u in r.utxos <==> exists i: nat :: i <= r.lastScanned && u in c.utxos(i) {
      UtxosAre(c, n, u);
    }
    TrailingIs(c, n);
  }

  /** The command line's scan, field by field: it lists the fewest addresses that reach the minimum index and end in a
      gap. */
  lemma BranchFound(c: Chain, gap: nat, minIndex: nat, ceiling: nat, addresses: seq<nat>, nextUnused: nat)
    requires gap > 0 && BranchAnswers(c, gap, minIndex, ceiling, Some((addresses, nextUnused)))
    ensures var n := |addresses|;
            && addresses == seq(n, i => i) && n >= minIndex && nextUnused + gap <= n
            && (forall t: nat :: nextUnused <= t < n ==> !c.used(t))
            && (nextUnused > 0 ==> c.used(nextUnused - 1))
            && (forall j: nat :: minIndex <= j + gap < n ==> !Gap(c, gap, j))
  {
    var n: nat :| Stops(c, gap, minIndex, n) && (addresses, nextUnused) == (FirstIndexes(n), NextUnused(c, n));
    NothingUsed(c, n);
    DoneBranch(c, gap, minIndex, n);
    forall j: nat | minIndex <= j + gap < n ensures !Gap(c, gap, j) {
      DoneBranch(c, gap, minIndex, j + gap);
      assert !Done(c, gap, minIndex, j + gap);
    }
  }
}
