/** What every successful funding guarantees. */
module FundingTheorems {
  import opened Common
  import opened Coins
  import opened Funding

  // ---- Conservation -----------------------------------------------------------------------------

  lemma OthersUntouched(req: Request, plan: Plan)
    requires Selected(req, plan.selected, OtherAssets(req)) && PicksEnough(req, plan)
    ensures Of(plan.selected, req.policy) == [] && Of(plan.picks, req.policy) == plan.picks
    ensures forall a :: a != req.policy ==> Of(plan.picks, a) == []
  {
    PoolOnly(req.candidates, req.policy, |plan.picks|);
    assert plan.picks == Prefix(Pool(req.candidates, req.policy), |plan.picks|);
    hide Of, Pool, CoveredAt;
  }

  lemma SpentOf(req: Request, plan: Plan, a: Asset)
    requires Selected(req, plan.selected, OtherAssets(req)) && PicksEnough(req, plan)
    ensures Sum(Of(WalletInputs(req, plan), a))
         == req.Have(a) + (if a == req.policy then Sum(plan.picks) else Sum(Of(plan.selected, a)))
  {
    OthersUntouched(req, plan);
    hide Of, Sum, PicksEnough, Selected;
    OfAppend(req.forced, plan.selected, a);
    OfAppend(req.forced + plan.selected, plan.picks, a);
    SumAppend(Of(req.forced, a), Of(plan.selected, a));
    SumAppend(Of(req.forced, a) + Of(plan.selected, a), Of(plan.picks, a));
    EmptySum();
  }

  lemma EmptySum()
    ensures Sum([]) == 0
  {}

  lemma {:induction false} ForeignAsset(utxos: seq<Utxo>, a: Asset)
    requires forall u :: u in utxos ==> u.asset != a
    ensures Of(utxos, a) == []
  {
    if utxos != [] {
      ForeignAsset(utxos[..|utxos| - 1], a);
    }
  }

  /** Per asset, what the selected inputs hold is what is needed, plus the change, plus
      (policy asset only) the fee. */
  lemma Conservation(req: Request, plan: Plan, f: Funding, a: Asset)
    requires Funded(req, plan, f)
    ensures Sum(Of(f.inputs, a)) == req.Need(a) + Total(f.changes, a) + (if a == req.policy then f.fee else 0)
  {
    SpentOf(req, plan, a);
    var left := PolicySum(req, plan) - req.Need(req.policy) - LoopFee(req, plan);
    TotalSnoc(plan.base, Coin(req.policy, if left >= 0 then left else 0), a);
    if a == req.policy {
      NotHeld(plan.base, a);
    } else if a in OtherAssets(req) {
      assert Balanced(req, plan.selected, plan.base, a);
    } else {
      NotHeld(plan.base, a);
      ForeignAsset(req.forced, a);
      assert Of(plan.selected, a) == [];
    }
  }

  // ---- Fee and change -------------------------------------------------------------------------------

  lemma {:induction false} OutputsAppend(left: seq<nat>, right: seq<nat>)
    ensures OutputsBase(left + right) == OutputsBase(left) + OutputsBase(right)
  {
    if right == [] {
      assert left + right == left;
    } else {
      OutputsAppend(left, right[..|right| - 1]);
      assert (left + right)[..|left + right| - 1] == left + right[..|right| - 1];
    }
  }

  /** One more change output never makes the transaction smaller. */
  lemma SizeGrows(req: Request, inputs: seq<Utxo>, changes: nat)
    ensures SizeWith(req, inputs, changes) <= SizeWith(req, inputs, changes + 1)
  {
    ScriptsOf(req.shape, changes);
    ScriptsOf(req.shape, changes + 1);
    hide OutputsBase, AnyConfidential, ChangeScripts, InputsBase;
  }

  lemma ScriptsOf(shape: Shape, changes: nat)
    ensures |ChangeScripts(shape, changes)| == |shape.fixedScripts| + changes + 1
    ensures OutputsBase(ChangeScripts(shape, changes))
         == OutputsBase(shape.fixedScripts) + changes * (OUTPUT_BASE + P2WPKH_SCRIPT_LEN) + OUTPUT_BASE
  {
    var same := seq(changes, _ => P2WPKH_SCRIPT_LEN);
    OutputsAppend(shape.fixedScripts + same, [0]);
    OutputsAppend(shape.fixedScripts, same);
    SameOutputs(same);
    assert [0][..0] == [];
    hide OutputsBase;
  }

  lemma {:induction false} SameOutputs(scripts: seq<nat>)
    requires forall i :: 0 <= i < |scripts| ==> scripts[i] == P2WPKH_SCRIPT_LEN
    ensures OutputsBase(scripts) == |scripts| * (OUTPUT_BASE + P2WPKH_SCRIPT_LEN)
  {
    if scripts != [] {
      SameOutputs(scripts[..|scripts| - 1]);
    }
  }

  lemma FeeMono(small: nat, large: nat, feeRate: nat)
    requires small <= large
    ensures FeeFor(small, feeRate) <= FeeFor(large, feeRate)
  {}

  /** The fee pays the requested rate for the final shape, and at most 545 more than the
      loop's estimate; with a policy change output it is exactly the estimate. */
  lemma FeePaysRate(req: Request, plan: Plan, f: Funding)
    requires Funded(req, plan, f)
    ensures f.fee >= FeeFor(SizeWith(req, f.inputs, |f.changes|), req.feeRate)
    ensures LoopFee(req, plan) <= f.fee <= LoopFee(req, plan) + 545
    ensures |f.changes| == |plan.base| + 1 ==> f.fee == FeeFor(SizeWith(req, f.inputs, |f.changes|), req.feeRate)
  {
    SizeGrows(req, f.inputs, |plan.base|);
    FeeMono(SizeWith(req, f.inputs, |plan.base|), SizeWith(req, f.inputs, |plan.base| + 1), req.feeRate);
    hide SizeWith, FeeFor;
  }

  /** At most one change coin per asset, none of them empty, and no policy dust. */
  lemma ChangeIsSound(req: Request, plan: Plan, f: Funding)
    requires Funded(req, plan, f)
    ensures forall i :: 0 <= i < |f.changes| ==> f.changes[i].amount > 0
    ensures forall i ::
        0 <= i < |f.changes| && f.changes[i].asset == req.policy ==> f.changes[i].amount >= 546
    ensures forall i, j :: 0 <= i < j < |f.changes| ==> f.changes[i].asset != f.changes[j].asset
  {
    hide LoopFee, PolicySum, Balanced;
  }

  /** A confidential input never leaves the transaction without a blinded output. */
  lemma BlindedOutputExists(req: Request, plan: Plan, f: Funding)
    requires Funded(req, plan, f) && AnyConfidential(f.inputs)
    ensures req.shape.blindedFixed > 0 || f.changes != []
  {
    hide LoopFee, PolicySum;
  }

  // ---- The inputs -------------------------------------------------------------------------------------

  lemma {:induction false} CountInTail(utxos: seq<Utxo>, i: nat, j: nat)
    requires i < j < |utxos| && utxos[i] == utxos[j]
    ensures multiset(utxos)[utxos[i]] >= 2
  {
    assert utxos == utxos[..i] + [utxos[i]] + utxos[i + 1..j] + [utxos[j]] + utxos[j + 1..];
  }

  lemma {:induction false} CountTwice(utxos: seq<Utxo>, u: Utxo)
    requires multiset(utxos)[u] >= 2
    ensures exists i, j :: 0 <= i < j < |utxos| && utxos[i] == u && utxos[j] == u
  {
    assert u in multiset(utxos);
    var i :| 0 <= i < |utxos| && utxos[i] == u;
    var others := utxos[..i] + utxos[i + 1..];
    assert utxos == utxos[..i] + [u] + utxos[i + 1..];
    assert u in multiset(others);
    var k :| 0 <= k < |others| && others[k] == u;
    var j := if k < i then k else k + 1;
    assert utxos[j] == u;
    assert if i < j then utxos[i] == u && utxos[j] == u else utxos[j] == u && utxos[i] == u;
  }

  lemma DistinctSubset(some: seq<Utxo>, all: seq<Utxo>)
    requires multiset(some) <= multiset(all) && Distinct(all)
    ensures Distinct(some)
  {
    forall i, j | 0 <= i < j < |some|
      ensures some[i].outpoint != some[j].outpoint
    {
      if some[i].outpoint == some[j].outpoint {
        assert some[i] in multiset(all) && some[j] in multiset(all);
        var k :| 0 <= k < |all| && all[k] == some[i];
        var l :| 0 <= l < |all| && all[l] == some[j];
        assert k == l;
        CountInTail(some, i, j);
        assert multiset(all)[some[i]] >= 2;
        CountTwice(all, some[i]);
        assert false;
      }
    }
  }

  lemma PrefixCounts(s: seq<Utxo>, k: nat, u: Utxo)
    ensures multiset(Prefix(s, k))[u] <= multiset(s)[u]
  {
    if k <= |s| {
      assert s == s[..k] + s[k..];
    }
  }

  lemma TakenCounts(req: Request, plan: Plan, u: Utxo)
    requires Selected(req, plan.selected, OtherAssets(req)) && PicksEnough(req, plan)
    ensures multiset(plan.selected + plan.picks)[u] <= multiset(req.candidates)[u]
  {
    OthersUntouched(req, plan);
    var a := u.asset;
    OfCounts(plan.selected, a, u);
    OfCounts(plan.picks, a, u);
    OfCounts(req.candidates, a, u);
    RankSorts(Of(req.candidates, a));
    var pool := Pool(req.candidates, a);
    PrefixCounts(pool, |Of(plan.selected, a)|, u);
    PrefixCounts(pool, |plan.picks|, u);
    assert a in OtherAssets(req) ==> CoveredAt(req, plan.selected, a);
  }

  /** The selected inputs start with the forced ones, are pairwise different and were
      all supplied; none is excluded. */
  lemma InputsAreSound(req: Request, plan: Plan, f: Funding, excluded: set<OutPoint>)
    requires Funded(req, plan, f)
    requires Distinct(req.forced + req.candidates) && Avoids(req.forced + req.candidates, excluded)
    ensures f.inputs != [] && req.forced <= f.inputs
    ensures Distinct(f.inputs) && Avoids(f.inputs, excluded)
    ensures multiset(f.inputs) <= multiset(req.forced + req.candidates)
  {
    forall u
      ensures multiset(plan.selected + plan.picks)[u] <= multiset(req.candidates)[u]
    {
      TakenCounts(req, plan, u);
    }
    assert f.inputs == req.forced + (plan.selected + plan.picks);
    hide Funded;
    assert multiset(f.inputs) <= multiset(req.forced + req.candidates);
    DistinctSubset(f.inputs, req.forced + req.candidates);
    forall i | 0 <= i < |f.inputs|
      ensures f.inputs[i].outpoint !in excluded
    {
      assert f.inputs[i] in multiset(req.forced + req.candidates);
      var k :| 0 <= k < |req.forced + req.candidates| && (req.forced + req.candidates)[k] == f.inputs[i];
    }
  }

  // ---- Fewest inputs ------------------------------------------------------------------------------------

  /** No smaller choice among the candidates of a non-policy asset covers its need. */
  lemma FewestOthers(req: Request, plan: Plan, f: Funding, a: Asset, choice: seq<Utxo>)
    requires Funded(req, plan, f) && a in OtherAssets(req)
    requires multiset(choice) <= multiset(Of(req.candidates, a)) && req.Have(a) + Sum(choice) >= req.Need(a)
    ensures |choice| >= |Of(plan.selected, a)|
  {
    CoveredWhere(req, plan, f, a);
    RankSorts(Of(req.candidates, a));
    PoolIs(req.candidates, a);
    hide *;
    CoversWithFewest(req.Have(a), req.Need(a), Pool(req.candidates, a), |Of(plan.selected, a)|, choice);
  }

  lemma CoveredWhere(req: Request, plan: Plan, f: Funding, a: Asset)
    requires Funded(req, plan, f) && a in OtherAssets(req)
    ensures Covers(req.Have(a), req.Need(a), Pool(req.candidates, a), |Of(plan.selected, a)|)
  {
    assert CoveredAt(req, plan.selected, a);
  }

  lemma PoolIs(candidates: seq<Utxo>, a: Asset)
    ensures Pool(candidates, a) == Rank(Of(candidates, a))
  {}

  lemma CoversWithFewest(have: nat, need: nat, pool: seq<Utxo>, k: nat, choice: seq<Utxo>)
    requires Covers(have, need, pool, k) && Descending(pool) && multiset(choice) <= multiset(pool)
    requires have + Sum(choice) >= need
    ensures |choice| >= k
  {
    hide Sum, Descending;
    TopIsLargest(pool, choice);
    if |choice| < k {
      PrefixesGrow(pool, |choice|, k - 1);
    }
  }

  lemma PrefixesGrow(pool: seq<Utxo>, i: nat, j: nat)
    requires i <= j <= |pool|
    ensures Sum(pool[..i]) <= Sum(pool[..j])
  {
    SumPrefix(pool[..j], i);
    assert pool[..j][..i] == pool[..i];
  }

  lemma WeightBlinded(inputs: nat, issuance: bool, scripts: seq<nat>, few: nat, many: nat)
    requires few <= many
    ensures Vsize(inputs, issuance, scripts, few) <= Vsize(inputs, issuance, scripts, many)
  {
    hide OutputsBase, InputsBase;
  }

  /** With as many coins, and confidential ones only where the other has them too, the
      target is no higher. */
  lemma TargetMono(req: Request, low: Plan, high: Plan)
    requires low.selected == high.selected && low.base == high.base && |low.picks| == |high.picks|
    requires AnyConfidential(WalletInputs(req, low)) ==> AnyConfidential(WalletInputs(req, high))
    ensures Target(req, low) <= Target(req, high)
  {
    var inputs, changes := req.shape.foreignInputs + |WalletInputs(req, low)|, |low.base| + 1;
    WeightBlinded(inputs, req.shape.hasIssuance, ChangeScripts(req.shape, changes), req.shape.blindedFixed,
        req.shape.blindedFixed + changes);
    hide Vsize, AnyConfidential;
    FeeMono(SizeWith(req, WalletInputs(req, low), changes), SizeWith(req, WalletInputs(req, high), changes),
        req.feeRate);
    hide FeeFor;
  }

  /** A smaller sufficient choice of policy coins exists only if it avoids confidential
      coins where the largest ones would not. */
  lemma FewestPolicy(req: Request, plan: Plan, f: Funding, choice: seq<Utxo>)
    requires Funded(req, plan, f) && multiset(choice) <= multiset(Of(req.candidates, req.policy))
    requires Enough(req, plan.(picks := choice)) && |choice| < |plan.picks|
    ensures AnyConfidential(WalletInputs(req, WithPicks(req, plan, |choice|)))
    ensures !AnyConfidential(WalletInputs(req, plan.(picks := choice)))
  {
    var pool := Pool(req.candidates, req.policy);
    RankSorts(Of(req.candidates, req.policy));
    TopIsLargest(pool, choice);
    var top, own := WithPicks(req, plan, |choice|), plan.(picks := choice);
    assert !Enough(req, top);
    hide Pool, Target, Sum, AnyConfidential;
    if AnyConfidential(WalletInputs(req, top)) ==> AnyConfidential(WalletInputs(req, own)) {
      TargetMono(req, top, own);
    }
  }

  /** So with no confidential policy candidate, or with a confidential coin spent
      anyway, no smaller choice of policy coins pays for the need and its own fee. */
  lemma FewestPolicyUniform(req: Request, plan: Plan, f: Funding, choice: seq<Utxo>)
    requires Funded(req, plan, f) && multiset(choice) <= multiset(Of(req.candidates, req.policy))
    requires Enough(req, plan.(picks := choice))
    requires !AnyConfidential(Of(req.candidates, req.policy)) || AnyConfidential(req.forced + plan.selected)
    ensures |choice| >= |plan.picks|
  {
    if |choice| < |plan.picks| {
      FewestPolicy(req, plan, f, choice);
      var spent, pool := req.forced + plan.selected, Pool(req.candidates, req.policy);
      AnyConfidentialSplit(spent, Prefix(pool, |choice|));
      AnyConfidentialSplit(spent, choice);
      RankSorts(Of(req.candidates, req.policy));
      forall u
        ensures multiset(Prefix(pool, |choice|))[u] <= multiset(Of(req.candidates, req.policy))[u]
      {
        PrefixCounts(pool, |choice|, u);
      }
      ConfidentialSource(Prefix(pool, |choice|), Of(req.candidates, req.policy));
    }
  }

  // ---- Exactly when fewer policy coins would do -----------------------------------------------------------

  function Explicit(utxos: seq<Utxo>): seq<Utxo> {
    if utxos == [] then []
    else
      var last := utxos[|utxos| - 1];
      Explicit(utxos[..|utxos| - 1]) + (if last.confidential then [] else [last])
  }

  /** The explicit policy candidates, largest first. */
  function ExplicitPool(req: Request): seq<Utxo> {
    Rank(Explicit(Of(req.candidates, req.policy)))
  }

  /** Fewer policy coins than the plan picks would pay for the need and their own fee. */
  ghost predicate FewerWouldDo(req: Request, plan: Plan) {
    exists choice: seq<Utxo> ::
      && multiset(choice) <= multiset(Of(req.candidates, req.policy)) && |choice| < |plan.picks|
      && Enough(req, plan.(picks := choice))
  }

  function ExplicitPicks(req: Request, plan: Plan, k: nat): Plan {
    plan.(picks := Prefix(ExplicitPool(req), k))
  }

  /** The `k` largest explicit coins suffice where no `k` or fewer largest coins do. */
  ghost predicate ExplicitFirst(req: Request, plan: Plan, k: nat) {
    && k <= |ExplicitPool(req)| && Enough(req, ExplicitPicks(req, plan, k))
    && forall j :: 0 <= j <= k ==> !Enough(req, WithPicks(req, plan, j))
  }

  lemma {:induction false} ExplicitCounts(utxos: seq<Utxo>, u: Utxo)
    ensures multiset(Explicit(utxos))[u] == if u.confidential then 0 else multiset(utxos)[u]
  {
    if utxos != [] {
      var front, last := utxos[..|utxos| - 1], utxos[|utxos| - 1];
      ExplicitCounts(front, u);
      assert utxos == front + [last];
    }
  }

  lemma ExplicitPoolIs(req: Request)
    ensures Descending(ExplicitPool(req)) && !AnyConfidential(ExplicitPool(req))
    ensures forall u ::
        multiset(ExplicitPool(req))[u] == if u.confidential then 0 else multiset(Of(req.candidates, req.policy))[u]
  {
    var own := Of(req.candidates, req.policy);
    RankSorts(Explicit(own));
    hide Of;
    forall u
      ensures multiset(ExplicitPool(req))[u] == if u.confidential then 0 else multiset(own)[u]
    {
      ExplicitCounts(own, u);
    }
    var pool := ExplicitPool(req);
    forall i | 0 <= i < |pool|
      ensures !pool[i].confidential
    {
      assert pool[i] in multiset(pool);
    }
  }

  /** Coins that are all explicit are among the explicit ones. */
  lemma PlainChoice(req: Request, choice: seq<Utxo>)
    requires multiset(choice) <= multiset(Of(req.candidates, req.policy)) && !AnyConfidential(choice)
    ensures multiset(choice) <= multiset(ExplicitPool(req))
  {
    ExplicitPoolIs(req);
    hide Of, Rank, ExplicitPool;
    forall u
      ensures multiset(choice)[u] <= multiset(ExplicitPool(req))[u]
    {
      if u in multiset(choice) {
        var i :| 0 <= i < |choice| && choice[i] == u;
        assert !u.confidential;
      }
    }
  }

  /** As many of the largest explicit coins do whatever a choice of explicit coins does. */
  lemma LargestExplicitDo(req: Request, plan: Plan, choice: seq<Utxo>)
    requires multiset(choice) <= multiset(Of(req.candidates, req.policy)) && !AnyConfidential(choice)
    requires Enough(req, plan.(picks := choice))
    ensures |choice| <= |ExplicitPool(req)| && Enough(req, ExplicitPicks(req, plan, |choice|))
  {
    var pool := ExplicitPool(req);
    PlainChoice(req, choice);
    ExplicitPoolIs(req);
    hide Of, Rank, ExplicitPool, Descending;
    TopIsLargest(pool, choice);
    var low, high := ExplicitPicks(req, plan, |choice|), plan.(picks := choice);
    PlainPrefix(pool, |choice|);
    AnyConfidentialSplit(req.forced + plan.selected, low.picks);
    AnyConfidentialSplit(req.forced + plan.selected, choice);
    hide Target, Sum, AnyConfidential;
    TargetMono(req, low, high);
  }

  lemma PlainPrefix(pool: seq<Utxo>, k: nat)
    requires !AnyConfidential(pool)
    ensures !AnyConfidential(Prefix(pool, k))
  {}

  lemma FewerAreExplicit(req: Request, plan: Plan, f: Funding, choice: seq<Utxo>)
    requires Funded(req, plan, f) && multiset(choice) <= multiset(Of(req.candidates, req.policy))
    requires Enough(req, plan.(picks := choice)) && |choice| < |plan.picks|
    ensures ExplicitFirst(req, plan, |choice|)
  {
    FewestPolicy(req, plan, f, choice);
    assert forall j :: 0 <= j <= |choice| ==> !Enough(req, WithPicks(req, plan, j));
    AnyConfidentialSplit(req.forced + plan.selected, choice);
    hide *;
    LargestExplicitDo(req, plan, choice);
    ExplicitFirstIs(req, plan, |choice|);
  }

  lemma ExplicitFirstIs(req: Request, plan: Plan, k: nat)
    ensures ExplicitFirst(req, plan, k) <==>
              && k <= |ExplicitPool(req)| && Enough(req, ExplicitPicks(req, plan, k))
              && forall j :: 0 <= j <= k ==> !Enough(req, WithPicks(req, plan, j))
  {
    hide ExplicitPool, Enough, WithPicks;
  }

  lemma ExplicitWouldDo(req: Request, plan: Plan, f: Funding, k: nat)
    requires Funded(req, plan, f) && ExplicitFirst(req, plan, k)
    ensures FewerWouldDo(req, plan)
  {
    var pool := ExplicitPool(req);
    var choice := Prefix(pool, k);
    assert Enough(req, plan) && plan == WithPicks(req, plan, |plan.picks|);
    assert |choice| == k && |choice| < |plan.picks|;
    ExplicitPoolIs(req);
    hide Funded, Of, ExplicitPool, Enough, Pool;
    forall u
      ensures multiset(choice)[u] <= multiset(Of(req.candidates, req.policy))[u]
    {
      PrefixCounts(pool, k, u);
    }
    assert plan.(picks := choice) == ExplicitPicks(req, plan, k);
  }

  /** Largest-first spends more policy coins than necessary exactly when, for some count, that many of the
      largest explicit coins pay for the need and their own fee, while no such many largest coins or fewer do. */
  lemma FewerWouldDoIff(req: Request, plan: Plan, f: Funding)
    requires Funded(req, plan, f)
    ensures FewerWouldDo(req, plan) <==> exists k: nat :: ExplicitFirst(req, plan, k)
  {
    if FewerWouldDo(req, plan) {
      var choice: seq<Utxo> :|
        && multiset(choice) <= multiset(Of(req.candidates, req.policy)) && |choice| < |plan.picks|
        && Enough(req, plan.(picks := choice));
      hide Funded, ExplicitFirst, FewerWouldDo, Of, Enough;
      FewerAreExplicit(req, plan, f, choice);
    }
    if k: nat :| ExplicitFirst(req, plan, k) {
      hide *;
      ExplicitWouldDo(req, plan, f, k);
    }
  }

  lemma AnyConfidentialSplit(left: seq<Utxo>, right: seq<Utxo>)
    ensures AnyConfidential(left + right) <==> AnyConfidential(left) || AnyConfidential(right)
  {
    forall i | 0 <= i < |left|
      ensures (left + right)[i] == left[i]
    {}
    forall i | 0 <= i < |right|
      ensures (left + right)[|left| + i] == right[i]
    {}
  }

  lemma ConfidentialSource(some: seq<Utxo>, all: seq<Utxo>)
    requires forall u :: multiset(some)[u] <= multiset(all)[u]
    ensures AnyConfidential(some) ==> AnyConfidential(all)
  {
    if i :| 0 <= i < |some| && some[i].confidential {
      assert some[i] in multiset(all);
    }
  }

  // ---- When largest-first is not fewest -------------------------------------------------------------------

  const LARGE_HIDDEN := Utxo(OutPoint(1, 0), 0, 10_000, true)
  const SMALL_PLAIN := Utxo(OutPoint(2, 0), 0, 9_000, false)
  const MIXED := Request([], [LARGE_HIDDEN, SMALL_PLAIN], map[0 := 8_700], Shape(0, false, [22], 0), 1, 0)

  lemma MixedSize(inputs: nat, blinded: nat)
    ensures Vsize(inputs, false, ChangeScripts(MIXED.shape, 1), blinded)
        == (276 * inputs + 770 + 4564 * blinded + 3) / 4
  {
    var scripts := ChangeScripts(MIXED.shape, 1);
    assert scripts == [22, 22, 0];
    assert [22, 22, 0][..2] == [22, 22];
    assert [22, 22][..1] == [22];
    assert [22][..0] == [];
    assert OutputsBase(scripts) == 176;
  }

  lemma MixedTarget(picks: seq<Utxo>, hidden: bool)
    requires hidden == AnyConfidential(picks)
    ensures Target(MIXED, Plan([], [], picks))
         == 8_700 + (276 * |picks| + 770 + (if hidden then 4564 else 0) + 3) / 4 + (if hidden then 546 else 0)
  {
    assert WalletInputs(MIXED, Plan([], [], picks)) == picks;
    MixedSize(|picks|, if hidden then 1 else 0);
    hide Vsize, AnyConfidential;
  }

  lemma MixedPool()
    ensures Pool(MIXED.candidates, 0) == [LARGE_HIDDEN, SMALL_PLAIN]
    ensures Sum([LARGE_HIDDEN]) == 10_000 && Sum([SMALL_PLAIN]) == 9_000 && Sum([LARGE_HIDDEN, SMALL_PLAIN]) == 19_000
  {
    var all := [LARGE_HIDDEN, SMALL_PLAIN];
    assert all[..1] == [LARGE_HIDDEN] && [LARGE_HIDDEN][..0] == [];
    assert Of([LARGE_HIDDEN], 0) == [LARGE_HIDDEN];
    assert Of(all, 0) == Of(all[..1], 0) + [SMALL_PLAIN];
    assert MIXED.candidates == all;
    assert Rank([LARGE_HIDDEN]) == [LARGE_HIDDEN];
    assert Rank(all) == Insert(SMALL_PLAIN, [LARGE_HIDDEN]);
    assert [LARGE_HIDDEN][1..] == [];
    SumHead(SMALL_PLAIN, []);
    assert [SMALL_PLAIN] == [SMALL_PLAIN] + [];
  }

  /** The exception is real: the largest coin is confidential and makes its own fee too
      high, so two coins are spent where the explicit one alone would do. */
  lemma LargestFirstCanSpendMore()
    ensures var both := Plan([], [], [LARGE_HIDDEN, SMALL_PLAIN]);
            && (exists f :: Funded(MIXED, both, f)) && FewerWouldDo(MIXED, both)
            && Enough(MIXED, both.(picks := [SMALL_PLAIN]))
  {
    var both := Plan([], [], [LARGE_HIDDEN, SMALL_PLAIN]);
    MixedBoth();
    MixedChoice();
    hide *;
    FundedFrom(MIXED, both);
  }

  lemma MixedChoice()
    ensures var both := Plan([], [], [LARGE_HIDDEN, SMALL_PLAIN]);
            Enough(MIXED, both.(picks := [SMALL_PLAIN])) ==> FewerWouldDo(MIXED, both)
  {
    var both := Plan([], [], [LARGE_HIDDEN, SMALL_PLAIN]);
    OfCounts(MIXED.candidates, MIXED.policy, SMALL_PLAIN);
    assert MIXED.candidates[1] == SMALL_PLAIN && SMALL_PLAIN in multiset(MIXED.candidates);
    assert |[SMALL_PLAIN]| < |both.picks|;
    hide Enough, Of;
    assert multiset([SMALL_PLAIN]) <= multiset(Of(MIXED.candidates, MIXED.policy));
  }

  /** A completed selection has a result. */
  lemma FundedFrom(req: Request, plan: Plan)
    requires OthersChosen(req, plan) && PicksEnough(req, plan)
    ensures exists f :: Funded(req, plan, f)
  {
    LeftEnough(req, plan);
    hide OthersChosen, PicksEnough, LoopFee, PolicySum;
    var left := PolicySum(req, plan) - req.Need(req.policy) - LoopFee(req, plan);
    var f := if left >= POLICY_DUST_LIMIT
             then Funding(WalletInputs(req, plan), plan.base + [Coin(req.policy, left)], LoopFee(req, plan))
             else Funding(WalletInputs(req, plan), plan.base, LoopFee(req, plan) + left);
    assert Funded(req, plan, f);
  }

  lemma LeftEnough(req: Request, plan: Plan)
    requires PicksEnough(req, plan)
    ensures PolicySum(req, plan) >= req.Need(req.policy) + LoopFee(req, plan)
  {
    hide PolicySum, LoopFee;
  }

  lemma MixedBoth()
    ensures var both := Plan([], [], [LARGE_HIDDEN, SMALL_PLAIN]);
            && OthersChosen(MIXED, both) && PicksEnough(MIXED, both)
            && Enough(MIXED, both.(picks := [SMALL_PLAIN]))
  {
    var all := [LARGE_HIDDEN, SMALL_PLAIN];
    var both := Plan([], [], all);
    MixedPool();
    assert all[0].confidential && [LARGE_HIDDEN][0].confidential;
    MixedTarget(all, true);
    MixedTarget([LARGE_HIDDEN], true);
    MixedTarget([SMALL_PLAIN], false);
    hide Pool, Target, Sum;
    assert MIXED.Have(0) == 0 by { EmptySum(); }
    assert WithPicks(MIXED, both, 0) == Plan([], [], []);
    assert WithPicks(MIXED, both, 1).picks == [LARGE_HIDDEN];
    assert WalletInputs(MIXED, Plan([], [], [])) == [];
    assert OtherAssets(MIXED) == {};
  }

  // ---- Overflow is unreachable ------------------------------------------------------------------------------

  /** The limits every caller of the selection enforces first. */
  ghost predicate WithinLimits(req: Request) {
    && |req.forced| <= 1 && |req.candidates| <= 500 && |req.needs| <= 500
    && (forall u :: u in req.forced + req.candidates ==> u.value <= MAX_MONEY)
    && (forall a :: a in req.needs ==> req.needs[a] <= MAX_MONEY)
    && req.shape.foreignInputs <= 500 && |req.shape.fixedScripts| <= 1_000 && req.shape.blindedFixed <= 1_000
    && (forall i :: 0 <= i < |req.shape.fixedScripts| ==> req.shape.fixedScripts[i] <= 10_000)
    && req.feeRate <= MAX_FEE_RATE
  }

  /** An upper bound on the value of `count` coins. */
  function Cap(count: nat): nat {
    count * 2_100_000_000_000_000
  }

  lemma {:induction false} SumBounded(utxos: seq<Utxo>, a: Asset)
    requires forall u :: u in utxos ==> u.value <= MAX_MONEY
    ensures |Of(utxos, a)| <= |utxos| && Sum(Of(utxos, a)) <= Cap(|utxos|)
  {
    if utxos != [] {
      var front, last := utxos[..|utxos| - 1], utxos[|utxos| - 1];
      SumBounded(front, a);
      SumSnoc(Of(front, a), last);
      assert last in utxos;
      assert Of(utxos, a) == if last.asset == a then Of(front, a) + [last] else Of(front, a);
    }
  }

  lemma {:induction false} SumOfMultiset(left: seq<Utxo>, right: seq<Utxo>)
    requires multiset(left) == multiset(right)
    ensures Sum(left) == Sum(right)
  {
    if left == [] {
      assert |multiset(right)| == |right|;
      assert |multiset(left)| == 0;
    } else {
      var first, rest := left[0], left[1..];
      assert left == [first] + rest;
      assert first in multiset(right);
      var i := IndexOf(right, first);
      var others := right[..i] + right[i + 1..];
      assert right == right[..i] + [first] + right[i + 1..];
      assert multiset(left) == multiset{first} + multiset(rest);
      assert multiset(right) == multiset{first} + multiset(others);
      assert multiset(rest) == multiset(left) - multiset{first};
      assert multiset(others) == multiset(right) - multiset{first};
      SumOfMultiset(rest, others);
      SumHead(first, rest);
      SumOfRemoved(right, i);
    }
  }

  lemma {:induction false} AscendingIsShort(base: seq<Coin>, done: set<Asset>)
    requires Ascending(base, done)
    ensures |base| <= |done|
  {
    if base != [] {
      var n := |base| - 1;
      var rest := done - {base[n].asset};
      forall i | 0 <= i < n
        ensures base[i].asset in rest
      {
        assert base[i].asset < base[n].asset;
      }
      AscendingIsShort(base[..n], rest);
      assert done == rest + {base[n].asset};
    }
  }

  lemma {:induction false} AssetsFew(utxos: seq<Utxo>)
    ensures |set u | u in utxos :: u.asset| <= |utxos|
  {
    if utxos != [] {
      var front, last := utxos[..|utxos| - 1], utxos[|utxos| - 1];
      AssetsFew(front);
      assert utxos == front + [last];
      assert (set u | u in utxos :: u.asset) == (set u | u in front :: u.asset) + {last.asset};
    }
  }

  lemma {:induction false} OutputsBounded(scripts: seq<nat>)
    requires forall i :: 0 <= i < |scripts| ==> scripts[i] <= 10_000
    ensures OutputsBase(scripts) <= |scripts| * 10_044
  {
    if scripts != [] {
      OutputsBounded(scripts[..|scripts| - 1]);
    }
  }

  lemma SelectedCounts(req: Request, plan: Plan)
    requires OthersChosen(req, plan)
    ensures |plan.selected| <= |req.candidates|
  {
    forall u
      ensures multiset(plan.selected)[u] <= multiset(req.candidates)[u]
    {
      OfCounts(plan.selected, u.asset, u);
      OfCounts(req.candidates, u.asset, u);
      RankSorts(Of(req.candidates, u.asset));
      PrefixCounts(Pool(req.candidates, u.asset), |Of(plan.selected, u.asset)|, u);
      assert u.asset in OtherAssets(req) ==> CoveredAt(req, plan.selected, u.asset);
    }
    SubsetSize(req.candidates, plan.selected);
  }

  lemma OtherAssetsFew(req: Request)
    requires WithinLimits(req)
    ensures |OtherAssets(req)| <= 501
  {
    var forced := set u | u in req.forced :: u.asset;
    AssetsFew(req.forced);
    UnionSize(req.needs.Keys, forced);
    UnionSize(OtherAssets(req), req.needs.Keys + forced);
    assert OtherAssets(req) + (req.needs.Keys + forced) == req.needs.Keys + forced;
    assert |req.needs.Keys| == |req.needs|;
  }

  /** How many coins and changes a plan can have. */
  lemma PlanIsSmall(req: Request, plan: Plan)
    requires WithinLimits(req) && OthersChosen(req, plan) && plan == WithPicks(req, plan, |plan.picks|)
    ensures |WalletInputs(req, plan)| <= 1_001 && |plan.base| <= 501
  {
    SelectedCounts(req, plan);
    RankSorts(Of(req.candidates, req.policy));
    SumBounded(req.candidates, req.policy);
    OtherAssetsFew(req);
    AscendingIsShort(plan.base, OtherAssets(req));
    hide Of, Rank, OtherAssets, Selected, Ascending, Sum;
  }

  lemma UnionSize(a: set<Asset>, b: set<Asset>)
    ensures |a + b| <= |a| + |b| && |a| <= |a + b|
  {
    assert a + b == a + (b - a) && b == (b - a) + (b * a);
    assert |a + b| == |a| + |b - a|;
    assert |b| == |b - a| + |b * a|;
  }

  /** Within the callers' limits no total overflows, so a call fails only for a bad fee
      rate, a duplicate or a shortage. */
  lemma NeverOverflows(req: Request)
    requires WithinLimits(req)
    ensures !Overflows(req)
  {
    forall a
      ensures req.Have(a) + Sum(Pool(req.candidates, a)) <= MAX_U64
    {
      SupplyIsSmall(req, a);
    }
    hide WithinLimits, OthersChosen, TargetTooLarge, Pool, Sum, WithPicks;
    forall plan: Plan | OthersChosen(req, plan) && plan == WithPicks(req, plan, |plan.picks|)
      ensures !TargetTooLarge(req, plan)
    {
      PlanIsSmall(req, plan);
      TargetIsSmall(req, plan);
    }
  }

  lemma SupplyIsSmall(req: Request, a: Asset)
    requires WithinLimits(req)
    ensures req.Have(a) + Sum(Pool(req.candidates, a)) <= MAX_U64
  {
    SumBounded(req.forced, a);
    SumBounded(req.candidates, a);
    RankSorts(Of(req.candidates, a));
    SumOfMultiset(Pool(req.candidates, a), Of(req.candidates, a));
    hide Sum, Rank, Of;
  }

  lemma WeightIsSmall(inputs: nat, issuance: bool, scripts: seq<nat>, blinded: nat)
    requires inputs <= 1_501 && |scripts| <= 1_503 && OutputsBase(scripts) <= 11_000_000 && blinded <= 1_502
    ensures Weight(inputs, issuance, scripts, blinded) <= 100_000_000
  {
    hide OutputsBase;
  }

  lemma TargetIsSmall(req: Request, plan: Plan)
    requires WithinLimits(req) && |WalletInputs(req, plan)| <= 1_001 && |plan.base| <= 501
    ensures !TargetTooLarge(req, plan)
  {
    var changes := |plan.base| + 1;
    ScriptsOf(req.shape, changes);
    OutputsBounded(req.shape.fixedScripts);
    hide OutputsBase, ChangeScripts, AnyConfidential;
    WeightIsSmall(req.shape.foreignInputs + |WalletInputs(req, plan)|, req.shape.hasIssuance,
        ChangeScripts(req.shape, changes),
                  req.shape.blindedFixed + (if AnyConfidential(WalletInputs(req, plan)) then changes else 0));
    hide Weight;
    FeeMono(SizeWith(req, WalletInputs(req, plan), changes), 100_000_000, req.feeRate);
    hide SizeWith;
    assert FeeFor(100_000_000, req.feeRate) <= 100_000_000_000;
  }
}
