/** Deterministic multi-asset coin selection of the wallet core. */
module Funding {
  import opened Common
  import opened Coins

  const MAX_FEE_RATE: nat := 1_000
  const POLICY_DUST_LIMIT: nat := 546

  const TX_OVERHEAD_BASE: nat := 4 + 1 + 3 + 3 + 4
  const INPUT_BASE: nat := 32 + 4 + 1 + 4
  const ISSUANCE_BASE: nat := 32 + 32 + 9 + 9
  const INPUT_WITNESS: nat := 1 + 1 + 1 + (1 + 73) + (1 + 33) + 1
  const OUTPUT_BASE: nat := 33 + 9 + 1 + 1
  const OUTPUT_WITNESS: nat := 1 + 1
  const P2WPKH_SCRIPT_LEN: nat := 22
  const BLINDED_OUTPUT_EXTRA_BASE: nat := (33 - 9) + (33 - 1)
  const SURJECTION_PROOF_MAX: nat := 2 + 32 + 32 * 4
  const RANGEPROOF_52_BIT_MAX: nat := 4_174
  const BLINDED_OUTPUT_EXTRA_WITNESS: nat := (3 + SURJECTION_PROOF_MAX) + (3 + RANGEPROOF_52_BIT_MAX)

  datatype Utxo = Utxo(outpoint: OutPoint, asset: Asset, value: nat, confidential: bool)

  /** The transaction around the wallet-funded part. */
  datatype Shape = Shape(foreignInputs: nat, hasIssuance: bool, fixedScripts: seq<nat>, blindedFixed: nat)

  datatype Funding = Funding(inputs: seq<Utxo>, changes: seq<Coin>, fee: nat)

  datatype FundError =
    | InvalidFeeRate
    | DuplicateUtxo(outpoint: OutPoint)
    | InsufficientFunds(asset: Asset, needed: nat, available: nat)
    | AmountOverflow

  // ---- Size and fee ------------------------------------------------------------------------

  /** Base bytes of outputs with these script lengths. */
  function OutputsBase(scripts: seq<nat>): nat {
    if scripts == [] then 0 else OutputsBase(scripts[..|scripts| - 1]) + OUTPUT_BASE + scripts[|scripts| - 1]
  }

  function InputsBase(inputs: nat, issuance: bool): nat {
    TX_OVERHEAD_BASE + inputs * INPUT_BASE + (if issuance then ISSUANCE_BASE else 0)
  }

  function BaseBytes(inputs: nat, issuance: bool, scripts: seq<nat>, blinded: nat): nat {
    InputsBase(inputs, issuance) + OutputsBase(scripts) + blinded * BLINDED_OUTPUT_EXTRA_BASE
  }

  function WitnessBytes(inputs: nat, outputs: nat, blinded: nat): nat {
    inputs * INPUT_WITNESS + outputs * OUTPUT_WITNESS + blinded * (BLINDED_OUTPUT_EXTRA_WITNESS - OUTPUT_WITNESS)
  }

  /** Upper bound on the weight of the transaction. */
  function Weight(inputs: nat, issuance: bool, scripts: seq<nat>, blinded: nat): nat {
    4 * BaseBytes(inputs, issuance, scripts, blinded) + WitnessBytes(inputs, |scripts|, blinded)
  }

  function Vsize(inputs: nat, issuance: bool, scripts: seq<nat>, blinded: nat): nat {
    (Weight(inputs, issuance, scripts, blinded) + 3) / 4
  }

  method EstimateVsize(inputs: nat, issuance: bool, scripts: seq<nat>, blinded: nat) returns (r: Result<nat, FundError>)
    ensures r.Ok? <==> Weight(inputs, issuance, scripts, blinded) <= MAX_U64
    ensures r.Ok? ==> r.value == Vsize(inputs, issuance, scripts, blinded)
    ensures r.Err? ==> r.error == AmountOverflow
  {
    var base := TX_OVERHEAD_BASE + inputs * INPUT_BASE;
    if base > MAX_U64 { return Err(AmountOverflow); }
    if issuance {
      base := base + ISSUANCE_BASE;
    }
    assert base == InputsBase(inputs, issuance);
    var witnessBytes := inputs * INPUT_WITNESS;
    if witnessBytes > MAX_U64 { return Err(AmountOverflow); }
    var ok;
    ok, base, witnessBytes := AddOutputs(base, witnessBytes, scripts);
    if !ok { return Err(AmountOverflow); }
    if blinded > 0 {
      base := base + blinded * BLINDED_OUTPUT_EXTRA_BASE;
      if base > MAX_U64 { return Err(AmountOverflow); }
      witnessBytes := witnessBytes + blinded * (BLINDED_OUTPUT_EXTRA_WITNESS - OUTPUT_WITNESS);
      if witnessBytes > MAX_U64 { return Err(AmountOverflow); }
    }
    var weight := base * 4 + witnessBytes;
    if weight > MAX_U64 { return Err(AmountOverflow); }
    r := Ok((weight + 3) / 4);
  }

  /** The loop over the outputs; `ok` is false on overflow. */
  method AddOutputs(base: nat, witnessBytes: nat, scripts: seq<nat>) returns (ok: bool, base': nat, witness': nat)
    ensures ok ==> base' == base + OutputsBase(scripts) && witness' == witnessBytes + |scripts| * OUTPUT_WITNESS
    ensures !ok ==> base + OutputsBase(scripts) > MAX_U64 || witnessBytes + |scripts| * OUTPUT_WITNESS > MAX_U64
  {
    base', witness' := base, witnessBytes;
    for i := 0 to |scripts|
      invariant base' == base + OutputsBase(scripts[..i]) && witness' == witnessBytes + i * OUTPUT_WITNESS
    {
      assert scripts[..i + 1][..i] == scripts[..i];
      ScriptsGrow(scripts, i + 1);
      base' := base' + OUTPUT_BASE + scripts[i];
      if base' > MAX_U64 { return false, base', witness'; }
      witness' := witness' + OUTPUT_WITNESS;
      if witness' > MAX_U64 { return false, base', witness'; }
    }
    assert scripts[..|scripts|] == scripts;
    ok := true;
  }

  lemma {:induction false} ScriptsGrow(scripts: seq<nat>, i: nat)
    requires i <= |scripts|
    ensures OutputsBase(scripts[..i]) <= OutputsBase(scripts)
  {
    if i < |scripts| {
      ScriptsGrow(scripts[..|scripts| - 1], i);
      assert scripts[..|scripts| - 1][..i] == scripts[..i];
    } else {
      assert scripts[..i] == scripts;
    }
  }

  // ---- Candidates of one asset, largest first ---------------------------------------------------

  function Of(utxos: seq<Utxo>, a: Asset): seq<Utxo> {
    if utxos == [] then []
    else
      var last := utxos[|utxos| - 1];
      Of(utxos[..|utxos| - 1], a) + (if last.asset == a then [last] else [])
  }

  function Sum(utxos: seq<Utxo>): nat {
    if utxos == [] then 0 else Sum(utxos[..|utxos| - 1]) + utxos[|utxos| - 1].value
  }

  predicate AnyConfidential(utxos: seq<Utxo>) {
    exists i :: 0 <= i < |utxos| && utxos[i].confidential
  }

  /** Larger value first, then smaller outpoint. */
  predicate Before(u: Utxo, v: Utxo) {
    u.value > v.value || (u.value == v.value &&
      (u.outpoint.txid < v.outpoint.txid || (u.outpoint.txid == v.outpoint.txid && u.outpoint.vout <= v.outpoint.vout)))
  }

  function Insert(u: Utxo, ranked: seq<Utxo>): seq<Utxo> {
    if ranked == [] || Before(u, ranked[0]) then [u] + ranked else [ranked[0]] + Insert(u, ranked[1..])
  }

  /** The library sort by `Before`. */
  function Rank(utxos: seq<Utxo>): seq<Utxo> {
    if utxos == [] then [] else Insert(utxos[|utxos| - 1], Rank(utxos[..|utxos| - 1]))
  }

  predicate Descending(ranked: seq<Utxo>) {
    forall i, j :: 0 <= i < j < |ranked| ==> ranked[i].value >= ranked[j].value
  }

  lemma {:induction false} InsertAdds(u: Utxo, ranked: seq<Utxo>)
    ensures multiset(Insert(u, ranked)) == multiset(ranked) + multiset{u}
  {
    if ranked != [] && !Before(u, ranked[0]) {
      InsertAdds(u, ranked[1..]);
      assert ranked == [ranked[0]] + ranked[1..];
    }
  }

  lemma {:induction false} InsertKeeps(u: Utxo, ranked: seq<Utxo>)
    requires Descending(ranked)
    ensures Descending(Insert(u, ranked))
  {
    if ranked != [] && !Before(u, ranked[0]) {
      InsertKeeps(u, ranked[1..]);
      InsertAdds(u, ranked[1..]);
      var rest := Insert(u, ranked[1..]);
      hide Insert;
      forall j | 0 <= j < |rest|
        ensures ranked[0].value >= rest[j].value
      {
        assert rest[j] in multiset(rest);
        assert rest[j] == u || rest[j] in ranked[1..];
      }
    }
  }

  lemma {:induction false} RankSorts(utxos: seq<Utxo>)
    ensures multiset(Rank(utxos)) == multiset(utxos) && Descending(Rank(utxos)) && |Rank(utxos)| == |utxos|
  {
    if utxos != [] {
      var front, last := utxos[..|utxos| - 1], utxos[|utxos| - 1];
      RankSorts(front);
      InsertAdds(last, Rank(front));
      InsertKeeps(last, Rank(front));
      assert utxos == front + [last];
    }
    assert |multiset(Rank(utxos))| == |Rank(utxos)| && |multiset(utxos)| == |utxos|;
  }

  lemma {:induction false} OfAppend(left: seq<Utxo>, right: seq<Utxo>, a: Asset)
    ensures Of(left + right, a) == Of(left, a) + Of(right, a)
  {
    if right == [] {
      assert left + right == left;
    } else {
      var front, last := right[..|right| - 1], right[|right| - 1];
      OfAppend(left, front, a);
      assert (left + right)[..|left + right| - 1] == left + front;
    }
  }

  lemma {:induction false} SumAppend(left: seq<Utxo>, right: seq<Utxo>)
    ensures Sum(left + right) == Sum(left) + Sum(right)
  {
    if right == [] {
      assert left + right == left;
    } else {
      SumAppend(left, right[..|right| - 1]);
      assert (left + right)[..|left + right| - 1] == left + right[..|right| - 1];
    }
  }

  lemma {:induction false} OfCounts(utxos: seq<Utxo>, a: Asset, u: Utxo)
    ensures multiset(Of(utxos, a))[u] == if u.asset == a then multiset(utxos)[u] else 0
  {
    if utxos != [] {
      var front, last := utxos[..|utxos| - 1], utxos[|utxos| - 1];
      OfCounts(front, a, u);
      assert utxos == front + [last];
    }
  }

  /** The pool of an asset in the order it is consumed. */
  function Pool(candidates: seq<Utxo>, a: Asset): seq<Utxo> {
    Rank(Of(candidates, a))
  }

  // ---- Sums of subsets ----------------------------------------------------------------------------

  lemma SumOfRemoved(utxos: seq<Utxo>, i: nat)
    requires i < |utxos|
    ensures Sum(utxos) == Sum(utxos[..i] + utxos[i + 1..]) + utxos[i].value
  {
    hide Sum;
    SumAppend(utxos[..i], utxos[i + 1..]);
    SumAppend(utxos[..i] + [utxos[i]], utxos[i + 1..]);
    SumSnoc(utxos[..i], utxos[i]);
    assert utxos == utxos[..i] + [utxos[i]] + utxos[i + 1..];
  }

  lemma SubsetSize(ranked: seq<Utxo>, subset: seq<Utxo>)
    requires multiset(subset) <= multiset(ranked)
    ensures |subset| <= |ranked|
  {
    assert |multiset(subset)| == |subset| && |multiset(ranked)| == |ranked|;
    MultisetSize(multiset(subset), multiset(ranked));
  }

  /** Take the largest coin out of the subset, or any coin if it is not in it. */
  lemma TakeOne(ranked: seq<Utxo>, subset: seq<Utxo>) returns (smaller: seq<Utxo>)
    requires Descending(ranked) && multiset(subset) <= multiset(ranked) && subset != [] && ranked != []
    ensures |smaller| == |subset| - 1 && multiset(smaller) <= multiset(ranked[1..])
    ensures Sum(subset) <= Sum(smaller) + ranked[0].value
  {
    hide Sum, Before;
    var first, rest := ranked[0], ranked[1..];
    var i := if first in subset then IndexOf(subset, first) else 0;
    smaller := subset[..i] + subset[i + 1..];
    assert subset == subset[..i] + [subset[i]] + subset[i + 1..];
    assert multiset(subset) == multiset(smaller) + multiset{subset[i]};
    assert ranked == [first] + rest;
    RemovedFits(multiset(subset), multiset(smaller), subset[i], first, multiset(rest));
    SumOfRemoved(subset, i);
    assert subset[i] in multiset(ranked);
    assert subset[i] in ranked;
  }

  /** No choice of `|subset|` coins is worth more than the first `|subset|` ranked ones. */
  lemma {:induction false} TopIsLargest(ranked: seq<Utxo>, subset: seq<Utxo>)
    requires Descending(ranked) && multiset(subset) <= multiset(ranked)
    ensures |subset| <= |ranked| && Sum(subset) <= Sum(ranked[..|subset|])
    decreases |ranked|
  {
    SubsetSize(ranked, subset);
    if subset != [] {
      var first, rest := ranked[0], ranked[1..];
      var smaller := TakeOne(ranked, subset);
      TopIsLargest(rest, smaller);
      SumHead(first, rest[..|smaller|]);
      assert ranked[..|subset|] == [first] + rest[..|smaller|];
    }
  }

  lemma SumHead(first: Utxo, rest: seq<Utxo>)
    ensures Sum([first] + rest) == first.value + Sum(rest)
  {
    SumAppend([first], rest);
    assert [first][..0] == [];
  }

  lemma RemovedFits(all: multiset<Utxo>, smaller: multiset<Utxo>, removed: Utxo, first: Utxo, rest: multiset<Utxo>)
    requires all <= multiset{first} + rest && all == smaller + multiset{removed}
    requires first in all ==> removed == first
    ensures smaller <= rest
  {
    forall u | u in smaller
      ensures smaller[u] <= rest[u]
    {
      assert all[u] <= (multiset{first} + rest)[u];
      assert first !in all ==> u != first;
    }
  }

  lemma MultisetSize(a: multiset<Utxo>, b: multiset<Utxo>)
    requires a <= b
    ensures |a| <= |b|
  {
    assert b == a + (b - a);
  }

  function IndexOf(utxos: seq<Utxo>, u: Utxo): (i: nat)
    requires u in utxos
    ensures i < |utxos| && utxos[i] == u
  {
    if utxos[0] == u then 0 else 1 + IndexOf(utxos[1..], u)
  }

  // ---- What funding must achieve --------------------------------------------------------------------

  datatype Request = Request(
    forced: seq<Utxo>, candidates: seq<Utxo>, needs: map<Asset, nat>, shape: Shape, feeRate: nat, policy: Asset)
  {
    function Need(a: Asset): nat { Get(needs, a) }

    function Have(a: Asset): nat { Sum(Of(forced, a)) }
  }

  /** Where the selection stands: coins taken per non-policy asset, their change, and
      the policy coins taken. */
  datatype Plan = Plan(selected: seq<Utxo>, base: seq<Coin>, picks: seq<Utxo>)

  /** The shortest prefix of the pool that covers the need. */
  predicate Covers(have: nat, need: nat, ranked: seq<Utxo>, k: nat) {
    && k <= |ranked| && have + Sum(ranked[..k]) >= need
    && (k > 0 ==> have + Sum(ranked[..k - 1]) < need)
  }

  /** The asset is covered by the shortest sufficient prefix of its pool. */
  predicate CoveredAt(req: Request, selected: seq<Utxo>, a: Asset) {
    var own := Of(selected, a);
    own == Prefix(Pool(req.candidates, a), |own|) && Covers(req.Have(a), req.Need(a), Pool(req.candidates, a), |own|)
  }

  /** The assets in `done` are covered from their pools, the others untouched. */
  ghost predicate Selected(req: Request, selected: seq<Utxo>, done: set<Asset>) {
    forall a :: if a in done then CoveredAt(req, selected, a) else Of(selected, a) == []
  }

  /** Coins grouped by asset, in ascending order of the assets. */
  predicate ByAsset(selected: seq<Utxo>) {
    forall i, j :: 0 <= i < j < |selected| ==> selected[i].asset <= selected[j].asset
  }

  function Prefix(s: seq<Utxo>, k: nat): seq<Utxo> {
    if k <= |s| then s[..k] else s
  }

  /** One change coin per asset, in ascending order. */
  predicate Ascending(base: seq<Coin>, done: set<Asset>) {
    && (forall i :: 0 <= i < |base| ==> base[i].asset in done && base[i].amount > 0)
    && (forall i, j :: 0 <= i < j < |base| ==> base[i].asset < base[j].asset)
  }

  /** What is spent of the asset is what is needed plus its change. */
  predicate Balanced(req: Request, selected: seq<Utxo>, base: seq<Coin>, a: Asset) {
    req.Have(a) + Sum(Of(selected, a)) == req.Need(a) + Total(base, a)
  }

  /** The change of the assets in `done` is exactly what is left over of them. */
  ghost predicate Changed(req: Request, selected: seq<Utxo>, base: seq<Coin>, done: set<Asset>) {
    Ascending(base, done) && forall a :: a in done ==> Balanced(req, selected, base, a)
  }

  function WalletInputs(req: Request, plan: Plan): seq<Utxo> {
    req.forced + plan.selected + plan.picks
  }

  function ChangeScripts(shape: Shape, changes: nat): seq<nat> {
    shape.fixedScripts + seq(changes, _ => P2WPKH_SCRIPT_LEN) + [0]
  }

  /** Size of the transaction with `changes` change outputs. */
  function SizeWith(req: Request, inputs: seq<Utxo>, changes: nat): nat {
    Vsize(req.shape.foreignInputs + |inputs|, req.shape.hasIssuance, ChangeScripts(req.shape, changes),
          req.shape.blindedFixed + (if AnyConfidential(inputs) then changes else 0))
  }

  function FeeFor(vsize: nat, feeRate: nat): nat {
    vsize * feeRate
  }

  /** The loop's fee: it always counts a policy change output. */
  function LoopFee(req: Request, plan: Plan): nat {
    FeeFor(SizeWith(req, WalletInputs(req, plan), |plan.base| + 1), req.feeRate)
  }

  function Reserve(req: Request, plan: Plan): nat {
    if AnyConfidential(WalletInputs(req, plan)) && req.shape.blindedFixed == 0 && plan.base == []
    then POLICY_DUST_LIMIT else 0
  }

  function Target(req: Request, plan: Plan): nat {
    req.Need(req.policy) + LoopFee(req, plan) + Reserve(req, plan)
  }

  function PolicySum(req: Request, plan: Plan): nat {
    req.Have(req.policy) + Sum(plan.picks)
  }

  /** When the policy loop stops. */
  predicate Enough(req: Request, plan: Plan) {
    PolicySum(req, plan) >= Target(req, plan) && |WalletInputs(req, plan)| > 0
  }

  function WithPicks(req: Request, plan: Plan, k: nat): Plan {
    plan.(picks := Prefix(Pool(req.candidates, req.policy), k))
  }

  /** Assets other than the policy asset that are needed or already spent. */
  function OtherAssets(req: Request): set<Asset> {
    (req.needs.Keys + set u | u in req.forced :: u.asset) - {req.policy}
  }

  /** The policy coins are the shortest sufficient prefix of their pool. */
  ghost predicate PicksEnough(req: Request, plan: Plan) {
    && |plan.picks| <= |Pool(req.candidates, req.policy)| && plan == WithPicks(req, plan, |plan.picks|)
    && Enough(req, plan)
    && forall k :: 0 <= k < |plan.picks| ==> !Enough(req, WithPicks(req, plan, k))
  }

  /** The result of a successful call. */
  ghost predicate Funded(req: Request, plan: Plan, f: Funding) {
    && OthersChosen(req, plan)
    && PicksEnough(req, plan)
    && f.inputs == WalletInputs(req, plan)
    && var left := PolicySum(req, plan) - req.Need(req.policy) - LoopFee(req, plan);
       if left >= POLICY_DUST_LIMIT
       then f.changes == plan.base + [Coin(req.policy, left)] && f.fee == LoopFee(req, plan)
       else f.changes == plan.base && f.fee == LoopFee(req, plan) + left
  }

  predicate Distinct(utxos: seq<Utxo>) {
    forall i, j :: 0 <= i < j < |utxos| ==> utxos[i].outpoint != utxos[j].outpoint
  }

  predicate Avoids(utxos: seq<Utxo>, excluded: set<OutPoint>) {
    forall i :: 0 <= i < |utxos| ==> utxos[i].outpoint !in excluded
  }

  // ---- The selection ----------------------------------------------------------------------------------

  method FindDuplicate(utxos: seq<Utxo>, excluded: set<OutPoint>) returns (duplicate: Option<OutPoint>)
    ensures duplicate.None? <==> Distinct(utxos) && Avoids(utxos, excluded)
  {
    var seen := excluded;
    for i := 0 to |utxos|
      invariant seen == excluded + set k | 0 <= k < i :: utxos[k].outpoint
      invariant Distinct(utxos[..i]) && Avoids(utxos[..i], excluded)
    {
      if utxos[i].outpoint in seen {
        return Some(utxos[i].outpoint);
      }
      seen := seen + {utxos[i].outpoint};
    }
    assert utxos[..|utxos|] == utxos;
    duplicate := None;
  }

  function Reversed(s: seq<Utxo>): (r: seq<Utxo>)
    ensures |r| == |s| && forall i :: 0 <= i < |s| ==> r[i] == s[|s| - 1 - i]
  {
    seq(|s|, i requires 0 <= i < |s| => s[|s| - 1 - i])
  }

  /** The pool stack of an asset: its next candidate is at the end. */
  function Stack(pools: map<Asset, seq<Utxo>>, a: Asset): seq<Utxo> {
    if a in pools then pools[a] else []
  }

  method BuildPools(candidates: seq<Utxo>) returns (pools: map<Asset, seq<Utxo>>)
    ensures forall a :: Stack(pools, a) == Reversed(Pool(candidates, a))
  {
    pools := map[];
    for i := 0 to |candidates|
      invariant forall a :: Stack(pools, a) == Of(candidates[..i], a)
    {
      var utxo := candidates[i];
      assert candidates[..i + 1][..i] == candidates[..i];
      pools := pools[utxo.asset := Stack(pools, utxo.asset) + [utxo]];
    }
    assert candidates[..|candidates|] == candidates;
    var todo := pools.Keys;
    ghost var unsorted := pools;
    while todo != {}
      invariant todo <= pools.Keys == unsorted.Keys
      invariant forall a :: a in pools ==> pools[a] == if a in todo then unsorted[a] else Reversed(Rank(unsorted[a]))
      decreases |todo|
    {
      var a :| a in todo;
      pools := pools[a := Reversed(Rank(pools[a]))];
      todo := todo - {a};
    }
  }

  /** The inner loop for one non-policy asset. */
  method Take(stack: seq<Utxo>, have: nat, asset: Asset, need: nat)
    returns (r: Result<nat, FundError>, taken: seq<Utxo>, left: seq<Utxo>)
    ensures r.Ok? ==> Covers(have, need, Reversed(stack), |taken|) && taken == Reversed(stack)[..|taken|]
                      && r.value == have + Sum(taken)
    ensures r.Err? ==> (r.error == AmountOverflow || r.error == InsufficientFunds(asset, need, have + Sum(stack)))
    ensures r == Err(AmountOverflow) ==> have + Sum(stack) > MAX_U64
    ensures r.Err? && r.error.InsufficientFunds? ==> have + Sum(stack) < need
  {
    ghost var ranked := Reversed(stack);
    var sum := have;
    taken, left := [], stack;
    DrawnStart(stack);
    hide Sum, Reversed, Drawn;
    while sum < need
      invariant Drawn(stack, taken, left) && sum == have + Sum(taken)
      invariant |taken| > 0 ==> |taken| - 1 <= |ranked| && have + Sum(ranked[..|taken| - 1]) < need
      decreases |left|
    {
      DrawnIs(stack, taken, left);
      SumReversed(stack);
      if left == [] { return Err(InsufficientFunds(asset, need, sum)), taken, left; }
      var next := left[|left| - 1];
      SumSnoc(taken, next);
      left := left[..|left| - 1];
      sum := sum + next.value;
      if sum > MAX_U64 {
        SumPrefix(ranked, |taken| + 1);
        return Err(AmountOverflow), taken, left;
      }
      taken := taken + [next];
    }
    DrawnIs(stack, taken, left);
    r := Ok(sum);
  }

  /** The coins taken so far are the last of the stack, in reverse. */
  predicate Drawn(stack: seq<Utxo>, taken: seq<Utxo>, left: seq<Utxo>) {
    |taken| <= |stack| && taken == Reversed(stack)[..|taken|] && left == stack[..|stack| - |taken|]
  }

  lemma DrawnStart(stack: seq<Utxo>)
    ensures Drawn(stack, [], stack) && Sum([]) == 0
  {
    assert stack[..|stack|] == stack;
  }

  lemma DrawnIs(stack: seq<Utxo>, taken: seq<Utxo>, left: seq<Utxo>)
    requires Drawn(stack, taken, left)
    ensures |taken| <= |Reversed(stack)| == |stack| && taken == Reversed(stack)[..|taken|]
    ensures left == [] ==> taken == Reversed(stack)
    ensures left != [] ==>
              && |taken| < |stack| && taken + [left[|left| - 1]] == Reversed(stack)[..|taken| + 1]
              && Drawn(stack, taken + [left[|left| - 1]], left[..|left| - 1])
  {}

  lemma SumPrefix(s: seq<Utxo>, k: nat)
    requires k <= |s|
    ensures Sum(s[..k]) <= Sum(s)
  {
    SumAppend(s[..k], s[k..]);
    assert s == s[..k] + s[k..];
  }

  lemma {:induction false} SumReversed(s: seq<Utxo>)
    ensures Sum(Reversed(s)) == Sum(s)
  {
    if s != [] {
      var front, last := s[..|s| - 1], s[|s| - 1];
      assert Reversed(s) == [last] + Reversed(front);
      SumHead(last, Reversed(front));
      SumReversed(front);
    }
  }

  /** `sums` totals the coins by asset. */
  ghost predicate Totals(sums: map<Asset, nat>, coins: seq<Utxo>) {
    && (forall a :: Get(sums, a) == Sum(Of(coins, a)))
    && sums.Keys == set u | u in coins :: u.asset
  }

  method SumForced(forced: seq<Utxo>) returns (ok: bool, sums: map<Asset, nat>)
    ensures ok ==> Totals(sums, forced)
    ensures !ok ==> exists a :: Sum(Of(forced, a)) > MAX_U64
  {
    sums := map[];
    assert Totals(sums, forced[..0]);
    for i := 0 to |forced|
      invariant Totals(sums, forced[..i])
    {
      var utxo := forced[i];
      var sum := Get(sums, utxo.asset) + utxo.value;
      TotalsSnoc(sums, forced[..i], utxo);
      assert forced[..i + 1] == forced[..i] + [utxo];
      if sum > MAX_U64 {
        TotalsTooLarge(sums[utxo.asset := sum], forced, i + 1, utxo.asset);
        return false, sums;
      }
      sums := sums[utxo.asset := sum];
    }
    assert forced[..|forced|] == forced;
    ok := true;
  }

  lemma TotalsTooLarge(sums: map<Asset, nat>, coins: seq<Utxo>, i: nat, a: Asset)
    requires i <= |coins| && Totals(sums, coins[..i]) && Get(sums, a) > MAX_U64
    ensures Sum(Of(coins, a)) > MAX_U64
  {
    assert coins == coins[..i] + coins[i..];
    OfAppend(coins[..i], coins[i..], a);
    SumAppend(Of(coins[..i], a), Of(coins[i..], a));
  }

  lemma TotalsSnoc(sums: map<Asset, nat>, coins: seq<Utxo>, u: Utxo)
    requires Totals(sums, coins)
    ensures Totals(sums[u.asset := Get(sums, u.asset) + u.value], coins + [u])
  {
    SumSnocAll(coins, u);
    hide Sum, Of;
    assert forall v :: v in coins + [u] <==> v in coins || v == u;
  }

  lemma SumSnocAll(utxos: seq<Utxo>, u: Utxo)
    ensures forall a :: Sum(Of(utxos + [u], a)) == Sum(Of(utxos, a)) + (if u.asset == a then u.value else 0)
  {
    assert (utxos + [u])[..|utxos|] == utxos;
    forall a
      ensures Sum(Of(utxos + [u], a)) == Sum(Of(utxos, a)) + (if u.asset == a then u.value else 0)
    {
      SumSnoc(Of(utxos, a), u);
      assert u.asset != a ==> Of(utxos + [u], a) == Of(utxos, a);
    }
  }

  lemma SumSnoc(utxos: seq<Utxo>, u: Utxo)
    ensures Sum(utxos + [u]) == Sum(utxos) + u.value
  {
    assert (utxos + [u])[..|utxos|] == utxos;
  }

  predicate Least(a: Asset, s: set<Asset>) {
    a in s && forall b :: b in s ==> a <= b
  }

  lemma {:induction false} LeastExists(s: set<Asset>)
    requires s != {}
    ensures exists a :: Least(a, s)
    decreases |s|
  {
    var a :| a in s;
    var rest := s - {a};
    assert forall b :: b in s ==> b == a || b in rest;
    if rest == {} {
      assert Least(a, s);
    } else {
      SmallerSet(rest, s);
      LeastExists(rest);
      var m :| Least(m, rest);
      assert Least(if a < m then a else m, s);
    }
  }

  lemma SmallerSet(a: set<Asset>, b: set<Asset>)
    requires a < b
    ensures |a| < |b|
  {
    assert b == a + (b - a);
    assert |b| == |a| + |b - a|;
  }

  /** The loop over the needed and forced assets, in ascending order. */
  method SelectOthers(req: Request, pools: map<Asset, seq<Utxo>>, sums: map<Asset, nat>)
    returns (r: Result<seq<Utxo>, FundError>, base: seq<Coin>)
    requires forall a :: Stack(pools, a) == Reversed(Pool(req.candidates, a))
    requires Totals(sums, req.forced)
    ensures r.Ok? ==> forall picks :: OthersChosen(req, Plan(r.value, base, picks))
    ensures r.Err? ==> Explained(req, r.error)
  {
    var selected: seq<Utxo> := [];
    base := [];
    var todo := req.needs.Keys + sums.Keys - {req.policy};
    ghost var done: set<Asset> := {};
    assert todo == OtherAssets(req);
    assert Progress(req, done, todo, selected, base);
    assert forall a :: Get(sums, a) == req.Have(a);
    hide *;
    while todo != {}
      invariant Progress(req, done, todo, selected, base)
      decreases |todo|
    {
      LeastExists(todo);
      var asset :| Least(asset, todo);
      var change, taken;
      change, taken := SelectOne(req, Stack(pools, asset), Get(sums, asset), asset);
      if change.Err? {
        ShortOther(req, done, todo, selected, base, asset, change.error);
        return Err(change.error), base;
      }
      ProgressStep(req, done, todo, selected, base, asset, taken, change.value);
      selected := selected + taken;
      base := base + change.value;
      done := done + {asset};
      todo := todo - {asset};
    }
    ProgressEnd(req, done, selected, base);
    r := Ok(selected);
  }

  /** The assets in `done` are dealt with, in ascending order. */
  ghost predicate Progress(req: Request, done: set<Asset>, todo: set<Asset>, selected: seq<Utxo>, base: seq<Coin>) {
    && done + todo == OtherAssets(req) && done !! todo
    && (forall a, b :: a in done && b in todo ==> a < b)
    && Selected(req, selected, done) && Changed(req, selected, base, done)
    && Grouped(selected, done)
  }

  ghost predicate Grouped(selected: seq<Utxo>, done: set<Asset>) {
    ByAsset(selected) && forall i :: 0 <= i < |selected| ==> selected[i].asset in done
  }

  /** Coins of a greater asset go last. */
  lemma GroupAppended(selected: seq<Utxo>, done: set<Asset>, asset: Asset, taken: seq<Utxo>)
    requires Grouped(selected, done) && forall a :: a in done ==> a < asset
    requires forall i :: 0 <= i < |taken| ==> taken[i].asset == asset
    ensures Grouped(selected + taken, done + {asset})
  {}

  lemma ProgressStep(req: Request, done: set<Asset>, todo: set<Asset>, selected: seq<Utxo>, base: seq<Coin>,
                     asset: Asset, taken: seq<Utxo>, change: seq<Coin>)
    requires Progress(req, done, todo, selected, base) && Least(asset, todo) && Leaves(req, asset, taken, change)
    ensures Progress(req, done + {asset}, todo - {asset}, selected + taken, base + change)
    ensures |todo - {asset}| < |todo|
  {
    LeavesOwn(req, asset, taken, change);
    StepSets(done, todo, asset);
    hide *;
    ProgressIs(req, done, todo, selected, base);
    TakeExtends(req, selected, base, done, asset, taken, change);
    GroupAppended(selected, done, asset, taken);
    ProgressIs(req, done + {asset}, todo - {asset}, selected + taken, base + change);
  }

  lemma ProgressIs(req: Request, done: set<Asset>, todo: set<Asset>, selected: seq<Utxo>, base: seq<Coin>)
    ensures Progress(req, done, todo, selected, base) <==>
            && done + todo == OtherAssets(req) && Split(done, todo)
            && Selected(req, selected, done) && Changed(req, selected, base, done) && Grouped(selected, done)
  {
    hide Selected, Changed, Grouped, OtherAssets;
  }

  ghost predicate Split(done: set<Asset>, todo: set<Asset>) {
    done !! todo && forall a, b :: a in done && b in todo ==> a < b
  }

  lemma StepSets(done: set<Asset>, todo: set<Asset>, asset: Asset)
    requires Least(asset, todo)
    ensures |todo - {asset}| < |todo| && (done + {asset}) + (todo - {asset}) == done + todo
    ensures Split(done, todo) ==>
              Split(done + {asset}, todo - {asset}) && asset !in done && forall a :: a in done ==> a < asset
  {
    SmallerSet(todo - {asset}, todo);
  }

  lemma LeavesOwn(req: Request, asset: Asset, taken: seq<Utxo>, change: seq<Coin>)
    requires Leaves(req, asset, taken, change)
    ensures forall i :: 0 <= i < |taken| ==> taken[i].asset == asset
  {
    PoolAssets(req.candidates, asset);
    hide Pool, Sum;
  }

  lemma ProgressEnd(req: Request, done: set<Asset>, selected: seq<Utxo>, base: seq<Coin>)
    requires Progress(req, done, {}, selected, base)
    ensures forall picks :: OthersChosen(req, Plan(selected, base, picks))
  {
    hide Selected, Changed, ByAsset;
    assert done == OtherAssets(req);
  }

  /** Everything available of the asset falls short of the need, or overflows. */
  ghost predicate FailsAt(req: Request, asset: Asset, error: FundError) {
    var all := req.Have(asset) + Sum(Pool(req.candidates, asset));
    || (error == AmountOverflow && all > MAX_U64)
    || (error == InsufficientFunds(asset, req.Need(asset), all) && all < req.Need(asset))
  }

  lemma ShortOther(req: Request, done: set<Asset>, todo: set<Asset>, selected: seq<Utxo>, base: seq<Coin>,
                   asset: Asset, error: FundError)
    requires Progress(req, done, todo, selected, base) && Least(asset, todo) && FailsAt(req, asset, error)
    ensures Explained(req, error)
  {
    hide Selected, Changed, Sum, Pool, Grouped;
    assert asset in OtherAssets(req);
  }

  /** `change` is what is left over of `asset` once `taken` is added to the forced coins. */
  ghost predicate Leaves(req: Request, asset: Asset, taken: seq<Utxo>, change: seq<Coin>) {
    var sum := req.Have(asset) + Sum(taken);
    && Covers(req.Have(asset), req.Need(asset), Pool(req.candidates, asset), |taken|)
    && taken == Prefix(Pool(req.candidates, asset), |taken|)
    && change == if sum > req.Need(asset) then [Coin(asset, sum - req.Need(asset))] else []
  }

  method SelectOne(req: Request, stack: seq<Utxo>, have: nat, asset: Asset)
    returns (change: Result<seq<Coin>, FundError>, taken: seq<Utxo>)
    requires stack == Reversed(Pool(req.candidates, asset)) && have == req.Have(asset)
    ensures change.Ok? ==> Leaves(req, asset, taken, change.value)
    ensures change.Err? ==> FailsAt(req, asset, change.error)
  {
    ReversedTwice(Pool(req.candidates, asset));
    SumReversed(Pool(req.candidates, asset));
    hide Sum, Reversed, Pool;
    var need := req.Need(asset);
    var sum, left;
    sum, taken, left := Take(stack, have, asset, need);
    if sum.Err? {
      return Err(sum.error), taken;
    }
    change := Ok(if sum.value > need then [Coin(asset, sum.value - need)] else []);
  }

  lemma ReversedTwice(s: seq<Utxo>)
    ensures Reversed(Reversed(s)) == s
  {}

  /** A shortage names the whole pool: nothing was left to select. */
  ghost predicate Short(req: Request, error: FundError)
    requires error.InsufficientFunds?
  {
    var pool := Sum(Pool(req.candidates, error.asset));
    && error.available == req.Have(error.asset) + pool && error.available < error.needed
    && if error.asset != req.policy then error.needed == req.Need(error.asset)
       else exists plan: Plan :: ShortAt(req, error.needed, plan)
  }

  /** With the whole policy pool taken, and at every earlier point, the target is missed. */
  ghost predicate ShortAt(req: Request, needed: nat, plan: Plan) {
    && OthersChosen(req, plan)
    && plan.picks == Pool(req.candidates, req.policy) && needed == Target(req, plan)
    && forall k :: 0 <= k <= |plan.picks| ==> !Enough(req, WithPicks(req, plan, k))
  }

  ghost predicate OthersChosen(req: Request, plan: Plan) {
    && Selected(req, plan.selected, OtherAssets(req)) && Changed(req, plan.selected, plan.base, OtherAssets(req))
    && ByAsset(plan.selected)
  }

  /** The weight, the fee or the target of the plan does not fit 64 bits. */
  predicate TargetTooLarge(req: Request, plan: Plan) {
    || Weight(req.shape.foreignInputs + |WalletInputs(req, plan)|, req.shape.hasIssuance,
        ChangeScripts(req.shape, |plan.base| + 1),
              req.shape.blindedFixed + (if AnyConfidential(WalletInputs(req, plan)) then |plan.base| + 1
                  else 0)) > MAX_U64
    || Target(req, plan) > MAX_U64
  }

  /** Some total that the selection can reach does not fit 64 bits. */
  ghost predicate Overflows(req: Request) {
    || (exists a :: req.Have(a) + Sum(Pool(req.candidates, a)) > MAX_U64)
    || (exists plan: Plan ::
        OthersChosen(req, plan) && plan == WithPicks(req, plan, |plan.picks|) && TargetTooLarge(req, plan))
  }

  /** Every failure of the selection has its cause in the request. */
  ghost predicate Explained(req: Request, error: FundError) {
    || (error == AmountOverflow && Overflows(req))
    || (error.InsufficientFunds? && Short(req, error))
  }

  lemma TakeExtends(req: Request, selected: seq<Utxo>, base: seq<Coin>, done: set<Asset>, asset: Asset,
                    taken: seq<Utxo>, change: seq<Coin>)
    requires Selected(req, selected, done) && Changed(req, selected, base, done)
    requires asset !in done && forall a :: a in done ==> a < asset
    requires Leaves(req, asset, taken, change)
    ensures Selected(req, selected + taken, done + {asset})
        && Changed(req, selected + taken, base + change, done + {asset})
  {
    hide *;
    TakeAt(req, selected, done, asset, taken, change);
    SelectedExtends(req, selected, done, asset, taken);
    ChangedExtends(req, selected, base, done, asset, taken, change);
  }

  lemma TakeAt(req: Request, selected: seq<Utxo>, done: set<Asset>, asset: Asset, taken: seq<Utxo>, change: seq<Coin>)
    requires Selected(req, selected, done) && asset !in done && Leaves(req, asset, taken, change)
    ensures forall a :: a != asset ==> Of(selected + taken, a) == Of(selected, a)
    ensures Of(selected + taken, asset) == taken && CoveredAt(req, selected + taken, asset)
  {
    PoolOnly(req.candidates, asset, |taken|);
    hide Pool, Sum, Of;
    forall a
      ensures Of(selected + taken, a) == Of(selected, a) + (if a == asset then taken else [])
    {
      OfAppend(selected, taken, a);
    }
    assert Of(selected, asset) == [];
  }

  lemma SelectedExtends(req: Request, selected: seq<Utxo>, done: set<Asset>, asset: Asset, taken: seq<Utxo>)
    requires Selected(req, selected, done) && CoveredAt(req, selected + taken, asset)
    requires forall a :: a != asset ==> Of(selected + taken, a) == Of(selected, a)
    ensures Selected(req, selected + taken, done + {asset})
  {
    forall a | a in done && a != asset
      ensures CoveredAt(req, selected + taken, a)
    {
      assert CoveredAt(req, selected, a);
      hide Pool, Sum, Of, Covers, Prefix;
    }
    hide Of, CoveredAt;
  }

  lemma ChangedExtends(req: Request, selected: seq<Utxo>, base: seq<Coin>, done: set<Asset>, asset: Asset,
                       taken: seq<Utxo>, change: seq<Coin>)
    requires Changed(req, selected, base, done) && Leaves(req, asset, taken, change)
    requires asset !in done && forall a :: a in done ==> a < asset
    requires Of(selected + taken, asset) == taken
    requires forall a :: a != asset ==> Of(selected + taken, a) == Of(selected, a)
    ensures Changed(req, selected + taken, base + change, done + {asset})
  {
    LeftOver(req, asset, taken, change);
    AscendingExtends(base, done, asset, change);
    ChangeTotals(base, change, asset, done);
    hide Sum, Of, Total, Ascending, Leaves, Balanced;
    OwnBalance(req, selected + taken, base + change, asset, taken, change);
    forall a | a in done
      ensures Balanced(req, selected + taken, base + change, a)
    {
      KeptBalance(req, selected, selected + taken, base, base + change, a);
    }
  }

  lemma LeftOver(req: Request, asset: Asset, taken: seq<Utxo>, change: seq<Coin>)
    requires Leaves(req, asset, taken, change)
    ensures change == [] || (|change| == 1 && change[0].asset == asset && change[0].amount > 0)
    ensures req.Have(asset) + Sum(taken) == req.Need(asset) + (if change == [] then 0 else change[0].amount)
  {
    hide Sum, Pool;
    assert taken == Prefix(Pool(req.candidates, asset), |taken|);
  }

  lemma OwnBalance(req: Request, selected: seq<Utxo>, base: seq<Coin>, a: Asset, taken: seq<Utxo>, change: seq<Coin>)
    requires Of(selected, a) == taken && Total(base, a) == if change == [] then 0 else change[0].amount
    requires req.Have(a) + Sum(taken) == req.Need(a) + (if change == [] then 0 else change[0].amount)
    ensures Balanced(req, selected, base, a)
  {
    hide Sum, Of, Total;
  }

  lemma KeptBalance(req: Request, selected: seq<Utxo>, more: seq<Utxo>, base: seq<Coin>, longer: seq<Coin>, a: Asset)
    requires Balanced(req, selected, base, a) && Of(more, a) == Of(selected, a) && Total(longer, a) == Total(base, a)
    ensures Balanced(req, more, longer, a)
  {
    hide Sum, Of, Total;
  }

  lemma AscendingExtends(base: seq<Coin>, done: set<Asset>, asset: Asset, change: seq<Coin>)
    requires Ascending(base, done) && asset !in done && forall a :: a in done ==> a < asset
    requires change == [] || (|change| == 1 && change[0].asset == asset && change[0].amount > 0)
    ensures Ascending(base + change, done + {asset})
  {}

  lemma ChangeTotals(base: seq<Coin>, change: seq<Coin>, asset: Asset, done: set<Asset>)
    requires forall i :: 0 <= i < |base| ==> base[i].asset in done
    requires asset !in done && (change == [] || (|change| == 1 && change[0].asset == asset))
    ensures forall a :: a in done ==> Total(base + change, a) == Total(base, a)
    ensures Total(base + change, asset) == if change == [] then 0 else change[0].amount
  {
    forall a | a in done + {asset}
      ensures Total(base + change, a) == Total(base, a) + (if change == [] then 0 else AmountOf(change[0], a))
    {
      if change == [] {
        assert base + change == base;
      } else {
        TotalSnoc(base, change[0], a);
        assert base + change == base + [change[0]];
      }
    }
    NotHeld(base, asset);
  }

  lemma {:induction false} NotHeld(coins: seq<Coin>, a: Asset)
    requires forall i :: 0 <= i < |coins| ==> coins[i].asset != a
    ensures Total(coins, a) == 0
  {
    if coins != [] {
      NotHeld(coins[..|coins| - 1], a);
    }
  }

  lemma {:induction false} OfOwn(utxos: seq<Utxo>, a: Asset)
    requires forall i :: 0 <= i < |utxos| ==> utxos[i].asset == a
    ensures Of(utxos, a) == utxos && forall b :: b != a ==> Of(utxos, b) == []
  {
    if utxos != [] {
      OfOwn(utxos[..|utxos| - 1], a);
    }
  }

  lemma PoolAssets(candidates: seq<Utxo>, a: Asset)
    ensures forall i :: 0 <= i < |Pool(candidates, a)| ==> Pool(candidates, a)[i].asset == a
  {
    var ranked := Pool(candidates, a);
    RankSorts(Of(candidates, a));
    forall i | 0 <= i < |ranked|
      ensures ranked[i].asset == a
    {
      assert ranked[i] in multiset(ranked);
      OfCounts(candidates, a, ranked[i]);
    }
  }

  /** Coins taken from a pool are all of its asset. */
  lemma PoolOnly(candidates: seq<Utxo>, a: Asset, k: nat)
    requires k <= |Pool(candidates, a)|
    ensures Of(Pool(candidates, a)[..k], a) == Pool(candidates, a)[..k]
    ensures forall b :: b != a ==> Of(Pool(candidates, a)[..k], b) == []
  {
    PoolAssets(candidates, a);
    OfOwn(Pool(candidates, a)[..k], a);
  }

  /** One evaluation of the loop's stopping test. */
  method PolicyTarget(req: Request, plan: Plan) returns (fee: nat, target: Result<nat, FundError>)
    ensures target.Ok? ==> fee == LoopFee(req, plan) && target.value == Target(req, plan)
    ensures target.Err? ==> target.error == AmountOverflow && TargetTooLarge(req, plan)
  {
    fee := 0;
    var walletInputs := |req.forced| + |plan.selected| + |plan.picks|;
    var anyConfidential := AnyConfidential(req.forced + plan.selected + plan.picks);
    var scripts := req.shape.fixedScripts + seq(|plan.base| + 1, _ => P2WPKH_SCRIPT_LEN) + [0];
    var blindedChanges := if anyConfidential then |plan.base| + 1 else 0;
    assert scripts == ChangeScripts(req.shape, |plan.base| + 1);
    hide Vsize, Weight, FeeFor, AnyConfidential;
    var vsize := EstimateVsize(req.shape.foreignInputs + walletInputs, req.shape.hasIssuance, scripts,
                               req.shape.blindedFixed + blindedChanges);
    if vsize.Err? { return fee, vsize; }
    fee := FeeFor(vsize.value, req.feeRate);
    if fee > MAX_U64 { return fee, Err(AmountOverflow); }
    var reserve := if anyConfidential && req.shape.blindedFixed == 0 && plan.base == [] then POLICY_DUST_LIMIT else 0;
    var total := req.Need(req.policy) + fee;
    if total > MAX_U64 { return fee, Err(AmountOverflow); }
    total := total + reserve;
    if total > MAX_U64 { return fee, Err(AmountOverflow); }
    target := Ok(total);
  }

  /** The policy loop: take coins until the fee of what is taken so far is covered. */
  method SelectPolicy(req: Request, selected: seq<Utxo>, base: seq<Coin>, stack: seq<Utxo>)
    returns (r: Result<nat, FundError>, picks: seq<Utxo>)
    requires stack == Reversed(Pool(req.candidates, req.policy)) && req.feeRate >= 1
    ensures r.Ok? ==>
        PicksEnough(req, Plan(selected, base, picks)) && r.value == LoopFee(req, Plan(selected, base, picks))
    ensures r.Err? ==> PolicyFails(req, Plan(selected, base, picks), r.error)
  {
    picks := [];
    var left := stack;
    var sum: nat := req.Have(req.policy);
    TakingStart(req, selected, base, left);
    hide *;
    while true
      invariant Taking(req, Plan(selected, base, picks), left, sum)
      decreases |left|
    {
      var plan := Plan(selected, base, picks);
      var fee, target := PolicyTarget(req, plan);
      TakingFacts(req, plan, left, sum);
      if target.Err? { return Err(target.error), picks; }
      if sum >= target.value && |req.forced| + |selected| + |picks| > 0 {
        return Ok(fee), picks;
      }
      if left == [] {
        return Err(InsufficientFunds(req.policy, target.value, sum)), picks;
      }
      TakingStep(req, plan, left, sum);
      var next := left[|left| - 1];
      left := left[..|left| - 1];
      sum := sum + next.value;
      picks := picks + [next];
      if sum > MAX_U64 {
        TakingTooMuch(req, plan.(picks := picks), left, sum);
        return Err(AmountOverflow), picks;
      }
    }
  }

  /** Why the policy loop gives up with the coins of `plan` taken. */
  ghost predicate PolicyFails(req: Request, plan: Plan, error: FundError) {
    var pool := Pool(req.candidates, req.policy);
    || (error == AmountOverflow && req.Have(req.policy) + Sum(pool) > MAX_U64)
    || (error == AmountOverflow && plan == WithPicks(req, plan, |plan.picks|) && TargetTooLarge(req, plan))
    || (error == InsufficientFunds(req.policy, Target(req, plan), PolicySum(req, plan))
        && plan.picks == pool && PolicySum(req, plan) < Target(req, plan)
        && forall k :: 0 <= k <= |pool| ==> !Enough(req, WithPicks(req, plan, k)))
  }

  lemma TakingTooMuch(req: Request, plan: Plan, left: seq<Utxo>, sum: nat)
    requires Taking(req, plan, left, sum) && sum > MAX_U64
    ensures PolicyFails(req, plan, AmountOverflow)
  {
    SumPrefix(Pool(req.candidates, req.policy), |plan.picks|);
    hide Enough, Pool, Sum;
  }

  /** The policy loop before a test: a prefix of the pool is taken, no shorter one was enough. */
  ghost predicate Taking(req: Request, plan: Plan, left: seq<Utxo>, sum: nat) {
    var pool := Pool(req.candidates, req.policy);
    && |plan.picks| <= |pool| && plan.picks == pool[..|plan.picks|] && left == Reversed(pool[|plan.picks|..])
    && sum == PolicySum(req, plan)
    && forall k :: 0 <= k < |plan.picks| ==> !Enough(req, WithPicks(req, plan, k))
  }

  lemma TakingStart(req: Request, selected: seq<Utxo>, base: seq<Coin>, left: seq<Utxo>)
    requires left == Reversed(Pool(req.candidates, req.policy))
    ensures Taking(req, Plan(selected, base, []), left, req.Have(req.policy))
  {
    var pool := Pool(req.candidates, req.policy);
    assert pool[0..] == pool;
  }

  lemma TakingFacts(req: Request, plan: Plan, left: seq<Utxo>, sum: nat)
    requires Taking(req, plan, left, sum) && req.feeRate >= 1
    ensures sum >= Target(req, plan) && |req.forced| + |plan.selected| + |plan.picks| > 0 ==> PicksEnough(req, plan)
    ensures !(sum >= Target(req, plan) && |req.forced| + |plan.selected| + |plan.picks| > 0) ==>
              && !Enough(req, plan)
              && (left == [] ==> PolicyFails(req, plan, InsufficientFunds(req.policy, Target(req, plan), sum)))
    ensures TargetTooLarge(req, plan) ==> PolicyFails(req, plan, AmountOverflow)
  {
    EnoughIs(req, plan);
    PositiveFee(req, plan);
    assert WithPicks(req, plan, |plan.picks|) == plan;
    hide Enough, Target, Pool, TargetTooLarge;
  }

  lemma TakingStep(req: Request, plan: Plan, left: seq<Utxo>, sum: nat)
    requires Taking(req, plan, left, sum) && !Enough(req, plan) && left != []
    ensures var next := left[|left| - 1];
            Taking(req, plan.(picks := plan.picks + [next]), left[..|left| - 1], sum + next.value)
  {
    hide Enough, Pool, Sum;
    var pool, next := Pool(req.candidates, req.policy), left[|left| - 1];
    var more := plan.(picks := plan.picks + [next]);
    SumSnoc(plan.picks, next);
    assert next == pool[|plan.picks|];
    assert more.picks == pool[..|more.picks|];
    assert left[..|left| - 1] == Reversed(pool[|more.picks|..]);
    StepKeepsEarlier(req, plan, more);
  }

  lemma StepKeepsEarlier(req: Request, plan: Plan, more: Plan)
    requires !Enough(req, plan) && plan.picks == Prefix(Pool(req.candidates, req.policy), |plan.picks|)
    requires forall k :: 0 <= k < |plan.picks| ==> !Enough(req, WithPicks(req, plan, k))
    requires more.selected == plan.selected && more.base == plan.base && |more.picks| == |plan.picks| + 1
    ensures forall k :: 0 <= k < |more.picks| ==> !Enough(req, WithPicks(req, more, k))
  {
    hide Enough, Pool, Prefix;
    forall k | 0 <= k < |more.picks|
      ensures !Enough(req, WithPicks(req, more, k))
    {
      assert WithPicks(req, more, k) == WithPicks(req, plan, k);
      assert WithPicks(req, plan, |plan.picks|) == plan;
    }
  }

  lemma EnoughIs(req: Request, plan: Plan)
    ensures Enough(req, plan) <==>
        PolicySum(req, plan) >= Target(req, plan) && |req.forced| + |plan.selected| + |plan.picks| > 0
  {}

  lemma PositiveVsize(inputs: nat, issuance: bool, scripts: seq<nat>, blinded: nat)
    ensures Vsize(inputs, issuance, scripts, blinded) >= TX_OVERHEAD_BASE
  {}

  /** Without any coin the target is out of reach, so the test for inputs is implied. */
  lemma PositiveFee(req: Request, plan: Plan)
    requires req.feeRate >= 1
    ensures LoopFee(req, plan) >= 1 && Target(req, plan) >= 1
    ensures |req.forced| + |plan.selected| + |plan.picks| == 0 ==> PolicySum(req, plan) == 0
  {
    hide Vsize;
    var vsize := SizeWith(req, WalletInputs(req, plan), |plan.base| + 1);
    PositiveVsize(req.shape.foreignInputs + |WalletInputs(req, plan)|, req.shape.hasIssuance,
        ChangeScripts(req.shape, |plan.base| + 1),
                  req.shape.blindedFixed + (if AnyConfidential(WalletInputs(req, plan)) then |plan.base| + 1 else 0));
    assert FeeFor(vsize, req.feeRate) >= vsize;
  }

  /** The cause of a failed call. */
  ghost predicate Unfunded(req: Request, excluded: set<OutPoint>, error: FundError) {
    match error
    case InvalidFeeRate => req.feeRate == 0 || req.feeRate > MAX_FEE_RATE
    case DuplicateUtxo(_) => !(Distinct(req.forced + req.candidates) && Avoids(req.forced + req.candidates, excluded))
    case InsufficientFunds(_, _, _) => Explained(req, error)
    case AmountOverflow => Explained(req, error)
  }

  method Fund(req: Request, excluded: set<OutPoint>) returns (r: Result<Funding, FundError>, ghost plan: Plan)
    ensures r.Ok? ==> 1 <= req.feeRate <= 1_000
    ensures r.Ok? ==> Distinct(req.forced + req.candidates) && Avoids(req.forced + req.candidates, excluded)
    ensures r.Ok? ==> Funded(req, plan, r.value)
    ensures r == Err(InvalidFeeRate) <==> req.feeRate == 0 || req.feeRate > 1_000
    ensures (r.Err? && r.error.DuplicateUtxo?) <==> (1 <= req.feeRate <= MAX_FEE_RATE &&
              !(Distinct(req.forced + req.candidates) && Avoids(req.forced + req.candidates, excluded)))
    ensures r.Err? ==> Unfunded(req, excluded, r.error)
  {
    plan := Plan([], [], []);
    if req.feeRate == 0 || req.feeRate > MAX_FEE_RATE { return Err(InvalidFeeRate), plan; }
    hide *;
    UnfundedIs(req, excluded);
    var duplicate := FindDuplicate(req.forced + req.candidates, excluded);
    if duplicate.Some? { return Err(DuplicateUtxo(duplicate.value)), plan; }
    var pools := BuildPools(req.candidates);
    var ok, sums := SumForced(req.forced);
    if !ok {
      ForcedTooLarge(req);
      return Err(AmountOverflow), plan;
    }
    var selected, changes := SelectOthers(req, pools, sums);
    if selected.Err? { return Err(selected.error), plan; }
    var fee, picks := SelectPolicy(req, selected.value, changes, Stack(pools, req.policy));
    plan := Plan(selected.value, changes, picks);
    if fee.Err? {
      ShortPolicy(req, plan, fee.error);
      return Err(fee.error), plan;
    }
    ChangeLeft(req, plan);
    var totalFee := fee.value;
    var policyChange := req.Have(req.policy) + Sum(picks) - req.Need(req.policy) - totalFee;
    if policyChange >= POLICY_DUST_LIMIT {
      changes := changes + [Coin(req.policy, policyChange)];
    } else {
      totalFee := totalFee + policyChange;
    }
    r := Ok(Funding(req.forced + selected.value + picks, changes, totalFee));
    FundedIs(req, plan, r.value);
  }

  lemma UnfundedIs(req: Request, excluded: set<OutPoint>)
    ensures forall o :: Unfunded(req, excluded, DuplicateUtxo(o)) <==>
                          !(Distinct(req.forced + req.candidates) && Avoids(req.forced + req.candidates, excluded))
    ensures forall e :: Explained(req, e) ==> Unfunded(req, excluded, e)
  {}

  lemma ForcedTooLarge(req: Request)
    requires exists a :: Sum(Of(req.forced, a)) > MAX_U64
    ensures Explained(req, AmountOverflow)
  {
    var a :| Sum(Of(req.forced, a)) > MAX_U64;
    assert req.Have(a) + Sum(Pool(req.candidates, a)) > MAX_U64;
  }

  lemma ShortPolicy(req: Request, plan: Plan, error: FundError)
    requires OthersChosen(req, plan) && PolicyFails(req, plan, error)
    ensures Explained(req, error)
  {
    hide Selected, Changed, Enough, Target, TargetTooLarge, Pool;
    if error != AmountOverflow {
      assert ShortAt(req, error.needed, plan);
    }
  }

  lemma ChangeLeft(req: Request, plan: Plan)
    requires PicksEnough(req, plan)
    ensures req.Have(req.policy) + Sum(plan.picks) >= req.Need(req.policy) + LoopFee(req, plan) + Reserve(req, plan)
    ensures PolicySum(req, plan) == req.Have(req.policy) + Sum(plan.picks)
    ensures WalletInputs(req, plan) == req.forced + plan.selected + plan.picks
  {}

  lemma FundedIs(req: Request, plan: Plan, f: Funding)
    requires OthersChosen(req, plan)
    requires PicksEnough(req, plan) && f.inputs == WalletInputs(req, plan)
    requires var left := PolicySum(req, plan) - req.Need(req.policy) - LoopFee(req, plan);
             if left >= POLICY_DUST_LIMIT
             then f.changes == plan.base + [Coin(req.policy, left)] && f.fee == LoopFee(req, plan)
             else f.changes == plan.base && f.fee == LoopFee(req, plan) + left
    ensures Funded(req, plan, f)
  {}
}
