/** The selection is deterministic: what a request receives is unique, whatever the order of the candidates. */
module FundingUnique {
  import opened Coins
  import opened Funding
  import FundingTheorems

  // ---- What is selected and changed is unique --------------------------------------------------------

  lemma OfLast(utxos: seq<Utxo>)
    requires utxos != []
    ensures var front, last := utxos[..|utxos| - 1], utxos[|utxos| - 1];
            && Of(utxos, last.asset) == Of(front, last.asset) + [last]
            && forall a :: a != last.asset ==> Of(utxos, a) == Of(front, a)
  {}

  lemma {:induction false} OfSome(utxos: seq<Utxo>, a: Asset)
    requires Of(utxos, a) != []
    ensures exists i :: 0 <= i < |utxos| && utxos[i].asset == a
  {
    var front, last := utxos[..|utxos| - 1], utxos[|utxos| - 1];
    if last.asset == a {
      assert utxos[|utxos| - 1].asset == a;
    } else {
      OfSome(front, a);
      var i :| 0 <= i < |front| && front[i].asset == a;
      assert utxos[i].asset == a;
    }
  }

  /** The last asset of grouped coins is the greatest. */
  lemma LastAsset(s: seq<Utxo>, t: seq<Utxo>)
    requires ByAsset(s) && s != [] && t != [] && forall a :: Of(s, a) == Of(t, a)
    ensures t[|t| - 1].asset <= s[|s| - 1].asset
  {
    OfLast(t);
    hide Of;
    OfSome(s, t[|t| - 1].asset);
  }

  /** Coins grouped by asset are determined by the groups. */
  lemma {:induction false} GroupsDetermine(s: seq<Utxo>, t: seq<Utxo>)
    requires ByAsset(s) && ByAsset(t) && forall a :: Of(s, a) == Of(t, a)
    ensures s == t
  {
    if s == [] || t == [] {
      if s != [] { OfLast(s); } else if t != [] { OfLast(t); }
    } else {
      var n, m := |s| - 1, |t| - 1;
      OfLast(s);
      OfLast(t);
      LastAsset(s, t);
      LastAsset(t, s);
      hide Of;
      var a := s[n].asset;
      assert Of(s, a)[|Of(s, a)| - 1] == s[n] && Of(t, a)[|Of(t, a)| - 1] == t[m];
      assert Of(s[..n], a) == Of(s, a)[..|Of(s, a)| - 1] && Of(t[..m], a) == Of(t, a)[..|Of(t, a)| - 1];
      GroupsDetermine(s[..n], t[..m]);
      assert s == s[..n] + [s[n]] && t == t[..m] + [t[m]];
    }
  }

  /** The shortest sufficient prefix has one length. */
  lemma CoversOnce(have: nat, need: nat, pool: seq<Utxo>, j: nat, k: nat)
    requires Covers(have, need, pool, j) && Covers(have, need, pool, k)
    ensures j == k
  {
    hide Sum;
    if j < k {
      FundingTheorems.PrefixesGrow(pool, j, k - 1);
    } else if k < j {
      FundingTheorems.PrefixesGrow(pool, k, j - 1);
    }
  }

  lemma CoveredOnce(req: Request, s: seq<Utxo>, t: seq<Utxo>, a: Asset)
    requires CoveredAt(req, s, a) && CoveredAt(req, t, a)
    ensures Of(s, a) == Of(t, a)
  {
    CoversOnce(req.Have(a), req.Need(a), Pool(req.candidates, a), |Of(s, a)|, |Of(t, a)|);
    hide Of, Pool, Covers;
  }

  lemma SelectedOnce(req: Request, s: seq<Utxo>, t: seq<Utxo>, done: set<Asset>)
    requires Selected(req, s, done) && Selected(req, t, done) && ByAsset(s) && ByAsset(t)
    ensures s == t
  {
    forall a
      ensures Of(s, a) == Of(t, a)
    {
      if a in done { CoveredOnce(req, s, t, a); }
    }
    hide Selected, Of, ByAsset;
    GroupsDetermine(s, t);
  }

  lemma TotalPositive(base: seq<Coin>, i: nat, a: Asset)
    requires i < |base| && base[i].asset == a && base[i].amount > 0
    ensures Total(base, a) > 0
  {
    TotalAppend(base[..i], base[i..], a);
    TotalAppend([base[i]], base[i + 1..], a);
    assert base == base[..i] + base[i..] && base[i..] == [base[i]] + base[i + 1..];
    TotalSnoc([], base[i], a);
    assert [] + [base[i]] == [base[i]];
  }

  lemma LastChange(base: seq<Coin>, done: set<Asset>)
    requires Ascending(base, done) && base != []
    ensures var front, last := base[..|base| - 1], base[|base| - 1];
            && Ascending(front, done) && Total(base, last.asset) == last.amount
            && forall a :: Total(front, a) == if a == last.asset then 0 else Total(base, a)
  {
    var front, last := base[..|base| - 1], base[|base| - 1];
    NotHeld(front, last.asset);
    assert forall a :: Total(base, a) == Total(front, a) + AmountOf(last, a);
  }

  lemma ChangeAt(base: seq<Coin>, done: set<Asset>, a: Asset)
    requires Ascending(base, done) && base != [] && Total(base, a) > 0
    ensures a <= base[|base| - 1].asset
  {
    if a > base[|base| - 1].asset {
      NotHeld(base, a);
    }
  }

  /** Ascending change is determined by its totals. */
  lemma {:induction false} TotalsDetermine(b: seq<Coin>, c: seq<Coin>, done: set<Asset>)
    requires Ascending(b, done) && Ascending(c, done) && forall a :: Total(b, a) == Total(c, a)
    ensures b == c
  {
    if b == [] || c == [] {
      if b != [] { TotalPositive(b, 0, b[0].asset); } else if c != [] { TotalPositive(c, 0, c[0].asset); }
    } else {
      var n, m := |b| - 1, |c| - 1;
      LastChange(b, done);
      LastChange(c, done);
      assert b[n].amount > 0 && c[m].amount > 0;
      hide Total, Ascending;
      ChangeAt(b, done, c[m].asset);
      ChangeAt(c, done, b[n].asset);
      assert b[n] == c[m];
      TotalsDetermine(b[..n], c[..m], done);
      assert b == b[..n] + [b[n]] && c == c[..m] + [c[m]];
    }
  }

  lemma ChangedOnce(req: Request, selected: seq<Utxo>, b: seq<Coin>, c: seq<Coin>, done: set<Asset>)
    requires Changed(req, selected, b, done) && Changed(req, selected, c, done)
    ensures b == c
  {
    forall a
      ensures Total(b, a) == Total(c, a)
    {
      if a in done {
        assert Balanced(req, selected, b, a) && Balanced(req, selected, c, a);
      } else {
        NotHeld(b, a);
        NotHeld(c, a);
      }
    }
    hide Total, Balanced;
    TotalsDetermine(b, c, done);
  }

  lemma OthersOnce(req: Request, p: Plan, q: Plan)
    requires OthersChosen(req, p) && OthersChosen(req, q)
    ensures p.selected == q.selected && p.base == q.base
  {
    hide Selected, Changed, ByAsset, OtherAssets;
    SelectedOnce(req, p.selected, q.selected, OtherAssets(req));
    ChangedOnce(req, p.selected, p.base, q.base, OtherAssets(req));
  }

  // ---- The result is unique -------------------------------------------------------------------------------

  lemma PicksOnce(req: Request, p: Plan, q: Plan)
    requires PicksEnough(req, p) && PicksEnough(req, q) && p.selected == q.selected && p.base == q.base
    ensures p == q
  {
    hide Enough, Pool;
    assert p == WithPicks(req, q, |p.picks|) && q == WithPicks(req, p, |q.picks|);
  }

  /** A request has one result at most. */
  lemma FundingIsUnique(req: Request, p: Plan, f: Funding, q: Plan, g: Funding)
    requires Funded(req, p, f) && Funded(req, q, g)
    ensures p == q && f == g
  {
    hide OthersChosen, PicksEnough, LoopFee, PolicySum;
    OthersOnce(req, p, q);
    PicksOnce(req, p, q);
  }

  /** A reported shortage is real: nothing funds the request. */
  lemma ShortageIsReal(req: Request, error: FundError, p: Plan, f: Funding)
    requires error.InsufficientFunds? && Explained(req, error)
    ensures !Funded(req, p, f)
  {
    if OthersChosen(req, p) {
      if error.asset == req.policy {
        hide OthersChosen, PicksEnough, ShortAt;
        PolicyShort(req, error.needed, p);
      } else {
        OtherCovered(req, p, error.asset);
        hide OthersChosen, PicksEnough, Pool, Sum;
      }
    }
  }

  lemma PolicyShort(req: Request, needed: nat, p: Plan)
    requires OthersChosen(req, p) && exists q: Plan :: ShortAt(req, needed, q)
    ensures !PicksEnough(req, p)
  {
    var q: Plan :| ShortAt(req, needed, q);
    hide OthersChosen, Enough, Pool;
    OthersOnce(req, p, q);
    assert WithPicks(req, p, |p.picks|) == WithPicks(req, q, |p.picks|);
  }

  lemma OtherCovered(req: Request, p: Plan, a: Asset)
    requires OthersChosen(req, p) && a != req.policy
    ensures req.Have(a) + Sum(Pool(req.candidates, a)) >= req.Need(a)
  {
    var pool := Pool(req.candidates, a);
    if a in OtherAssets(req) {
      assert CoveredAt(req, p.selected, a);
      FundingTheorems.PrefixesGrow(pool, |Of(p.selected, a)|, |pool|);
      assert pool[..|pool|] == pool;
      hide OthersChosen, Sum, Of;
    }
  }

  /** A request that has a result. */
  ghost predicate Fundable(req: Request, excluded: set<OutPoint>) {
    && 1 <= req.feeRate <= MAX_FEE_RATE
    && Distinct(req.forced + req.candidates) && Avoids(req.forced + req.candidates, excluded)
    && exists plan: Plan, f: Funding :: Funded(req, plan, f)
  }

  /** Within the callers' limits, a call fails only where there is no result. */
  lemma FailureIsReal(req: Request, excluded: set<OutPoint>, error: FundError)
    requires Unfunded(req, excluded, error)
    requires req.feeRate <= MAX_FEE_RATE ==> FundingTheorems.WithinLimits(req)
    ensures !Fundable(req, excluded)
  {
    if Fundable(req, excluded) {
      if error.InsufficientFunds? {
        var plan, f :| Funded(req, plan, f);
        hide *;
        ShortageFails(req, excluded, error, plan, f);
      } else if error.AmountOverflow? {
        FundingTheorems.NeverOverflows(req);
        hide FundingTheorems.WithinLimits, Funded, Overflows;
      }
    }
  }

  lemma ShortageFails(req: Request, excluded: set<OutPoint>, error: FundError, plan: Plan, f: Funding)
    requires error.InsufficientFunds? && Unfunded(req, excluded, error)
    ensures !Funded(req, plan, f)
  {
    ShortageIsReal(req, error, plan, f);
    hide Funded;
  }

  // ---- The order of the candidates does not matter ------------------------------------------------------------

  predicate Ordered(ranked: seq<Utxo>) {
    forall i, j :: 0 <= i < j < |ranked| ==> Before(ranked[i], ranked[j])
  }

  lemma {:induction false} InsertOrders(u: Utxo, ranked: seq<Utxo>)
    requires Ordered(ranked)
    ensures Ordered(Insert(u, ranked))
  {
    if ranked != [] && !Before(u, ranked[0]) {
      InsertOrders(u, ranked[1..]);
      InsertAdds(u, ranked[1..]);
      var rest := Insert(u, ranked[1..]);
      hide Insert;
      forall j | 0 <= j < |rest|
        ensures Before(ranked[0], rest[j])
      {
        assert rest[j] in multiset(rest);
        assert rest[j] == u || rest[j] in ranked[1..];
      }
    }
  }

  lemma {:induction false} RankOrders(utxos: seq<Utxo>)
    ensures Ordered(Rank(utxos)) && multiset(Rank(utxos)) == multiset(utxos)
  {
    RankSorts(utxos);
    if utxos != [] {
      RankOrders(utxos[..|utxos| - 1]);
      InsertOrders(utxos[|utxos| - 1], Rank(utxos[..|utxos| - 1]));
    }
  }

  /** Every outpoint belongs to one coin. */
  predicate OneCoinEach(utxos: multiset<Utxo>) {
    forall u, v :: u in utxos && v in utxos && u.outpoint == v.outpoint ==> u == v
  }

  /** A ranked list is determined by its coins. */
  lemma {:induction false} RankedOnce(s: seq<Utxo>, t: seq<Utxo>)
    requires Ordered(s) && Ordered(t) && multiset(s) == multiset(t) && OneCoinEach(multiset(s))
    ensures s == t
  {
    assert |multiset(s)| == |s| && |multiset(t)| == |t|;
    if s != [] {
      hide Before;
      SameHead(s, t);
      SameRest(s, t);
      RankedOnce(s[1..], t[1..]);
      assert s == [s[0]] + s[1..] && t == [t[0]] + t[1..];
    }
  }

  lemma SameRest(s: seq<Utxo>, t: seq<Utxo>)
    requires multiset(s) == multiset(t) && s != [] && t != [] && s[0] == t[0] && OneCoinEach(multiset(s))
    ensures multiset(s[1..]) == multiset(t[1..]) && OneCoinEach(multiset(s[1..]))
  {
    RestOf(s);
    RestOf(t);
    hide OneCoinEach;
    FewerCoins(multiset(s), multiset(s[1..]));
  }

  lemma RestOf(s: seq<Utxo>)
    requires s != []
    ensures multiset(s[1..]) == multiset(s) - multiset{s[0]} && multiset(s[1..]) <= multiset(s)
  {
    assert s == [s[0]] + s[1..];
  }

  lemma FewerCoins(all: multiset<Utxo>, some: multiset<Utxo>)
    requires OneCoinEach(all) && some <= all
    ensures OneCoinEach(some)
  {}

  lemma BothBefore(u: Utxo, v: Utxo)
    requires Before(u, v) && Before(v, u)
    ensures u.outpoint == v.outpoint
  {}

  lemma SameHead(s: seq<Utxo>, t: seq<Utxo>)
    requires Ordered(s) && Ordered(t) && s != [] && t != [] && multiset(s) == multiset(t)
    requires OneCoinEach(multiset(s))
    ensures s[0] == t[0]
  {
    assert s[0] in multiset(t) && t[0] in multiset(s);
    var i :| 0 <= i < |t| && t[i] == s[0];
    var j :| 0 <= j < |s| && s[j] == t[0];
    hide Before;
    if i > 0 && j > 0 { BothBefore(s[0], t[0]); }
  }

  lemma DistinctCoins(utxos: seq<Utxo>)
    requires Distinct(utxos)
    ensures OneCoinEach(multiset(utxos))
  {
    forall u, v | u in multiset(utxos) && v in multiset(utxos) && u.outpoint == v.outpoint
      ensures u == v
    {
      var i :| 0 <= i < |utxos| && utxos[i] == u;
      var j :| 0 <= j < |utxos| && utxos[j] == v;
    }
  }

  lemma SamePool(candidates: seq<Utxo>, other: seq<Utxo>, a: Asset)
    requires multiset(candidates) == multiset(other) && Distinct(candidates)
    ensures Pool(candidates, a) == Pool(other, a)
  {
    var mine, others := Of(candidates, a), Of(other, a);
    forall u
      ensures multiset(mine)[u] == multiset(others)[u] && multiset(mine)[u] <= multiset(candidates)[u]
    {
      OfCounts(candidates, a, u);
      OfCounts(other, a, u);
    }
    DistinctCoins(candidates);
    RankOrders(mine);
    RankOrders(others);
    hide Rank, Of, Ordered, Distinct;
    assert multiset(mine) == multiset(others);
    assert forall u :: u in multiset(mine) ==> u in multiset(candidates);
    RankedOnce(Rank(mine), Rank(others));
  }

  lemma SameSelected(req: Request, other: Request, plan: Plan)
    requires other == req.(candidates := other.candidates)
    requires forall a :: Pool(req.candidates, a) == Pool(other.candidates, a)
    ensures OthersChosen(req, plan) <==> OthersChosen(other, plan)
  {
    assert forall a :: CoveredAt(req, plan.selected, a) == CoveredAt(other, plan.selected, a) by {
      hide Pool, Of, Covers;
    }
    assert forall a :: Balanced(req, plan.selected, plan.base, a) == Balanced(other, plan.selected, plan.base, a) by {
      hide Of, Sum, Total;
    }
    hide CoveredAt, Balanced, Of, Ascending, ByAsset;
  }

  lemma SamePicks(req: Request, other: Request, plan: Plan)
    requires other == req.(candidates := other.candidates)
    requires Pool(req.candidates, req.policy) == Pool(other.candidates, req.policy)
    ensures PicksEnough(req, plan) <==> PicksEnough(other, plan)
  {
    assert forall k :: WithPicks(req, plan, k) == WithPicks(other, plan, k) by {
      hide Pool;
    }
    forall p: Plan
      ensures Enough(req, p) == Enough(other, p)
    {
      SamePlan(req, other, p);
      hide LoopFee, PolicySum, WalletInputs;
    }
    hide Pool, WithPicks, Enough;
  }

  /** The same coins listed in another order are selected, spent and changed alike. */
  lemma OrderIrrelevant(req: Request, other: Request, plan: Plan, f: Funding)
    requires other == req.(candidates := other.candidates)
    requires multiset(req.candidates) == multiset(other.candidates) && Distinct(req.candidates)
    ensures Funded(req, plan, f) <==> Funded(other, plan, f)
  {
    forall a
      ensures Pool(req.candidates, a) == Pool(other.candidates, a)
    {
      SamePool(req.candidates, other.candidates, a);
    }
    SameSelected(req, other, plan);
    SamePicks(req, other, plan);
    SamePlan(req, other, plan);
    hide OthersChosen, PicksEnough, LoopFee, PolicySum, WalletInputs, Distinct, Pool;
  }

  lemma SamePlan(req: Request, other: Request, plan: Plan)
    requires other == req.(candidates := other.candidates)
    ensures WalletInputs(req, plan) == WalletInputs(other, plan) && LoopFee(req, plan) == LoopFee(other, plan)
    ensures PolicySum(req, plan) == PolicySum(other, plan)
  {}
}
