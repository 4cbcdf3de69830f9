/** The signing policy: what an approval spends, what was spent lately, and whether it may be signed. */
module SpendPolicy {
  import opened Common
  import opened Coins
  import opened Pset
  import Operations

  const WINDOW_SECS: nat := 24 * 60 * 60

  datatype Mode = Confirm | Auto

  datatype Limit = Limit(perTx: Option<nat>, per24h: Option<nat>)

  /** `recipients` are scripts of segwit addresses. */
  datatype Policy = Policy(mode: Mode, recipients: Option<set<Script>>, dexUrls: Option<set<nat>>, limits: map<Asset,
      Limit>)

  datatype SpendRecord = SpendRecord(time: nat, spend: map<Asset, nat>)

  datatype Request = Request(reviews: seq<TxReview>, policyAsset: Asset, genesis: nat, dexUrl: Option<nat>)

  datatype Decision = Decision(
    allowed: bool, requiresConfirmation: bool, spend: map<Asset, nat>, spent24h: map<Asset, nat>, violations: nat)

  // ---- What an approval spends -------------------------------------------------------------------

  function Loss(changes: map<Asset, int>, a: Asset): nat {
    if a in changes && changes[a] < 0 then -changes[a] else 0
  }

  /** What one transaction takes out of the wallet: its negative change, and the fee. */
  function Spent(review: TxReview, policyAsset: Asset, a: Asset): nat {
    Loss(review.changes, a) + (if a == policyAsset then review.fee else 0)
  }

  function TotalSpent(reviews: seq<TxReview>, policyAsset: Asset, a: Asset): nat {
    if reviews == [] then 0
    else TotalSpent(reviews[..|reviews| - 1], policyAsset, a) + Spent(reviews[|reviews| - 1], policyAsset, a)
  }

  ghost predicate Countable(reviews: seq<TxReview>, policyAsset: Asset) {
    forall a :: TotalSpent(reviews, policyAsset, a) <= MAX_U64
  }

  /** `spend` is the spend of the reviews, with no zero entries. */
  ghost predicate IsSpend(spend: map<Asset, nat>, reviews: seq<TxReview>, policyAsset: Asset) {
    && (forall a :: Get(spend, a) == TotalSpent(reviews, policyAsset, a))
    && (forall a :: a in spend ==> spend[a] > 0)
  }

  lemma SpentSnoc(reviews: seq<TxReview>, i: nat, policyAsset: Asset)
    requires i < |reviews|
    ensures forall a :: TotalSpent(reviews[..i + 1], policyAsset, a)
                     == TotalSpent(reviews[..i], policyAsset, a) + Spent(reviews[i], policyAsset, a)
  {
    assert reviews[..i + 1][..i] == reviews[..i];
  }

  lemma {:induction false} SpentGrows(reviews: seq<TxReview>, i: nat, policyAsset: Asset, a: Asset)
    requires i <= |reviews|
    ensures TotalSpent(reviews[..i], policyAsset, a) <= TotalSpent(reviews, policyAsset, a)
  {
    if i < |reviews| {
      assert reviews[..|reviews| - 1][..i] == reviews[..i];
      SpentGrows(reviews[..|reviews| - 1], i, policyAsset, a);
    } else {
      assert reviews[..i] == reviews;
    }
  }

  /** Adds the losses of one review. */
  method AddLosses(spend: map<Asset, nat>, changes: map<Asset, int>) returns (ok: bool, next: map<Asset, nat>)
    requires forall a :: Get(spend, a) <= MAX_U64
    ensures ok ==> forall a :: Get(next, a) == Get(spend, a) + Loss(changes, a) <= MAX_U64
    ensures !ok ==> exists a :: Get(spend, a) + Loss(changes, a) > MAX_U64
  {
    next := spend;
    var left := changes.Keys;
    while left != {}
      invariant left <= changes.Keys
      invariant forall a :: Get(next, a) == Get(spend, a) + (if a in left then 0 else Loss(changes, a)) <= MAX_U64
    {
      var a :| a in left;
      if changes[a] < 0 {
        if Get(next, a) - changes[a] > MAX_U64 {
          assert Get(spend, a) + Loss(changes, a) > MAX_U64;
          return false, next;
        }
        next := next[a := Get(next, a) - changes[a]];
      }
      left := left - {a};
    }
    ok := true;
  }

  lemma SpendTooLarge(spend: map<Asset, nat>, reviews: seq<TxReview>, i: nat, policyAsset: Asset, a: Asset, amount: nat)
    requires i < |reviews| && Get(spend, a) == TotalSpent(reviews[..i], policyAsset, a)
    requires amount <= Spent(reviews[i], policyAsset, a) && Get(spend, a) + amount > MAX_U64
    ensures !Countable(reviews, policyAsset)
  {
    SpentSnoc(reviews, i, policyAsset);
    SpentGrows(reviews, i + 1, policyAsset, a);
    assert TotalSpent(reviews, policyAsset, a) > MAX_U64;
  }

  /** Per-asset spend of a set of reviews. */
  method SpendOf(reviews: seq<TxReview>, policyAsset: Asset) returns (r: Option<map<Asset, nat>>)
    ensures r.Some? <==> Countable(reviews, policyAsset)
    ensures r.Some? ==> IsSpend(r.value, reviews, policyAsset)
  {
    var spend: map<Asset, nat> := map[];
    assert reviews[..0] == [] && reviews[..|reviews|] == reviews;
    for i := 0 to |reviews|
      invariant forall a :: Get(spend, a) == TotalSpent(reviews[..i], policyAsset, a) <= MAX_U64
    {
      SpentSnoc(reviews, i, policyAsset);
      hide TotalSpent;
      var ok, next := AddLosses(spend, reviews[i].changes);
      if !ok {
        ghost var a :| Get(spend, a) + Loss(reviews[i].changes, a) > MAX_U64;
        SpendTooLarge(spend, reviews, i, policyAsset, a, Loss(reviews[i].changes, a));
        return None;
      }
      if reviews[i].fee > 0 {
        if Get(next, policyAsset) + reviews[i].fee > MAX_U64 {
          SpendTooLarge(spend, reviews, i, policyAsset, policyAsset, Spent(reviews[i], policyAsset, policyAsset));
          return None;
        }
        next := next[policyAsset := Get(next, policyAsset) + reviews[i].fee];
      }
      spend := next;
    }
    r := Some(map a | a in spend && spend[a] > 0 :: spend[a]);
  }

  // ---- What was spent within the window ---------------------------------------------------------------

  function Min(x: nat, y: nat): nat {
    if x <= y then x else y
  }

  /** Everything recorded after `now - 24h`. */
  function Recent(history: seq<SpendRecord>, now: nat, a: Asset): nat {
    if history == [] then 0
    else
      var last := history[|history| - 1];
      Recent(history[..|history| - 1], now, a) + (if last.time + WINDOW_SECS > now then Get(last.spend, a) else 0)
  }

  method AddSaturating(total: map<Asset, nat>, spend: map<Asset, nat>) returns (next: map<Asset, nat>)
    ensures forall a :: Get(next, a) == if a in spend then Min(MAX_U64, Get(total, a) + spend[a]) else Get(total, a)
  {
    next := total;
    var left := spend.Keys;
    while left != {}
      invariant left <= spend.Keys
      invariant forall a :: Get(next, a) == if a in spend && a !in left then Min(MAX_U64, Get(total, a) + spend[a])
          else Get(total, a)
    {
      var a :| a in left;
      next := next[a := Min(MAX_U64, Get(next, a) + spend[a])];
      left := left - {a};
    }
  }

  method WindowSpend(history: seq<SpendRecord>, now: nat) returns (total: map<Asset, nat>)
    ensures forall a :: Get(total, a) == Min(MAX_U64, Recent(history, now, a))
  {
    total := map[];
    assert history[..0] == [] && history[..|history|] == history;
    for i := 0 to |history|
      invariant forall a :: Get(total, a) == Min(MAX_U64, Recent(history[..i], now, a))
    {
      RecentSnoc(history, i, now);
      hide Recent;
      if history[i].time + WINDOW_SECS > now {
        total := AddSaturating(total, history[i].spend);
      }
    }
  }

  lemma RecentSnoc(history: seq<SpendRecord>, i: nat, now: nat)
    requires i < |history|
    ensures forall a :: Recent(history[..i + 1], now, a)
                     == Recent(history[..i], now, a)
                         + (if history[i].time + WINDOW_SECS > now then Get(history[i].spend, a) else 0)
  {
    assert history[..i + 1][..i] == history[..i];
  }

  // ---- The decision ---------------------------------------------------------------------------------------

  /** The limits of one asset, given what the approval spends of it and what was spent before. */
  predicate LimitOk(policy: Policy, a: Asset, amount: nat, before: nat) {
    if a !in policy.limits then policy.mode.Confirm?
    else
      var limit := policy.limits[a];
      && (policy.mode.Auto? ==> limit.perTx.Some? || limit.per24h.Some?)
      && (limit.perTx.Some? ==> amount <= limit.perTx.value)
      && (limit.per24h.Some? ==> Min(MAX_U64, before + amount) <= limit.per24h.value)
  }

  predicate RecipientOk(allowed: set<Script>, output: ExternalOutput) {
    output.address.blinder.None? && output.address.script in allowed
  }

  predicate ReviewRecipientsOk(policy: Policy, review: TxReview, dex: bool) {
    policy.recipients.Some? && !(review.kind.SwapTake? && dex) ==>
      forall i :: 0 <= i < |review.external| ==> RecipientOk(policy.recipients.value, review.external[i])
  }

  predicate DexOk(policy: Policy, dexUrl: Option<nat>) {
    dexUrl.Some? ==>
      if policy.dexUrls.Some? && policy.dexUrls.value != {} then dexUrl.value in policy.dexUrls.value
          else policy.mode.Confirm?
  }

  /** What the approval spends of the asset keeps to its limits. */
  predicate WithinLimits(policy: Policy, history: seq<SpendRecord>, request: Request, now: nat, a: Asset) {
    var amount := TotalSpent(request.reviews, request.policyAsset, a);
    amount > 0 ==> LimitOk(policy, a, amount, Min(MAX_U64, Recent(history, now, a)))
  }

  predicate EntryOk(policy: Policy, spend: map<Asset, nat>, spent24h: map<Asset, nat>, a: Asset) {
    a in spend ==> LimitOk(policy, a, spend[a], Get(spent24h, a))
  }

  /** Every rule holds. */
  ghost predicate Allowed(policy: Policy, history: seq<SpendRecord>, request: Request, now: nat) {
    && request.reviews != []
    && (forall i :: 0 <= i < |request.reviews| ==> request.reviews[i].genesis == request.genesis)
    && Countable(request.reviews, request.policyAsset)
    && (forall a :: WithinLimits(policy, history, request, now, a))
    && (forall i :: 0 <= i < |request.reviews| ==> ReviewRecipientsOk(policy, request.reviews[i], request.dexUrl.Some?))
    && DexOk(policy, request.dexUrl)
  }

  method CountLimits(policy: Policy, spend: map<Asset, nat>, spent24h: map<Asset, nat>) returns (violations: nat)
    ensures violations == 0 <==> forall a :: EntryOk(policy, spend, spent24h, a)
  {
    violations := 0;
    var left := spend.Keys;
    while left != {}
      invariant left <= spend.Keys
      invariant violations == 0 <==> forall a :: a !in left ==> EntryOk(policy, spend, spent24h, a)
    {
      var a :| a in left;
      var amount := spend[a];
      ghost var previously := violations;
      if a !in policy.limits {
        if policy.mode.Auto? { violations := violations + 1; }
      } else {
        var limit := policy.limits[a];
        if policy.mode.Auto? && limit.perTx.None? && limit.per24h.None? { violations := violations + 1; }
        if limit.perTx.Some? && amount > limit.perTx.value { violations := violations + 1; }
        if limit.per24h.Some? && Min(MAX_U64,
            Get(spent24h, a) + amount) > limit.per24h.value { violations := violations + 1; }
      }
      assert violations >= previously;
      assert violations == previously <==> LimitOk(policy, a, amount, Get(spent24h, a));
      hide LimitOk;
      left := left - {a};
    }
  }

  method CountRecipients(policy: Policy, reviews: seq<TxReview>, dex: bool) returns (violations: nat)
    ensures violations == 0 <==> forall i :: 0 <= i < |reviews| ==> ReviewRecipientsOk(policy, reviews[i], dex)
  {
    violations := 0;
    if policy.recipients.None? { return; }
    for i := 0 to |reviews|
      invariant violations == 0 <==> forall j :: 0 <= j < i ==> ReviewRecipientsOk(policy, reviews[j], dex)
    {
      if reviews[i].kind.SwapTake? && dex { continue; }
      var external, found := reviews[i].external, 0;
      for e := 0 to |external|
        invariant found == 0 <==> forall j :: 0 <= j < e ==> RecipientOk(policy.recipients.value, external[j])
      {
        if !RecipientOk(policy.recipients.value, external[e]) { found := found + 1; }
      }
      violations := violations + found;
    }
  }

  method CountGenesis(reviews: seq<TxReview>, genesis: nat) returns (violations: nat)
    ensures violations == 0 <==> forall i :: 0 <= i < |reviews| ==> reviews[i].genesis == genesis
  {
    violations := 0;
    for i := 0 to |reviews|
      invariant violations == 0 <==> forall j :: 0 <= j < i ==> reviews[j].genesis == genesis
    {
      if reviews[i].genesis != genesis { violations := violations + 1; }
    }
  }

  /** The policy decision. */
  method Evaluate(policy: Policy, history: seq<SpendRecord>, request: Request, now: nat) returns (d: Decision)
    ensures d.allowed <==> Allowed(policy, history, request, now)
    ensures d.requiresConfirmation <==> d.allowed && policy.mode.Confirm?
    ensures d.allowed ==> IsSpend(d.spend, request.reviews, request.policyAsset)
    ensures forall a :: Get(d.spent24h, a) == Min(MAX_U64, Recent(history, now, a))
  {
    hide TotalSpent, Recent, Spent, ReviewRecipientsOk, LimitOk;
    var violations := if request.reviews == [] then 1 else 0;
    var more := CountGenesis(request.reviews, request.genesis);
    violations := violations + more;
    var computed := SpendOf(request.reviews, request.policyAsset);
    var spend := if computed.Some? then computed.value else map[];
    if computed.None? { violations := violations + 1; }
    var spent24h := WindowSpend(history, now);
    more := CountLimits(policy, spend, spent24h);
    violations := violations + more;
    if computed.Some? { LimitsAgree(policy, history, request, now, spend, spent24h); }
    more := CountRecipients(policy, request.reviews, request.dexUrl.Some?);
    violations := violations + more;
    if !DexOk(policy, request.dexUrl) { violations := violations + 1; }
    d := Decision(violations == 0, violations == 0 && policy.mode.Confirm?, spend, spent24h, violations);
  }

  lemma LimitsAgree(policy: Policy, history: seq<SpendRecord>, request: Request, now: nat,
                    spend: map<Asset, nat>, spent24h: map<Asset, nat>)
    requires IsSpend(spend, request.reviews, request.policyAsset)
    requires forall a :: Get(spent24h, a) == Min(MAX_U64, Recent(history, now, a))
    ensures (forall a :: EntryOk(policy, spend, spent24h, a))
        <==> (forall a :: WithinLimits(policy, history, request, now, a))
  {
    hide TotalSpent, Recent, LimitOk, Min;
    forall a
      ensures EntryOk(policy, spend, spent24h, a) <==> WithinLimits(policy, history, request, now, a)
    {
      assert Get(spend, a) == TotalSpent(request.reviews, request.policyAsset, a);
      assert Get(spent24h, a) == Min(MAX_U64, Recent(history, now, a));
    }
    hide EntryOk, WithinLimits;
  }

  // ---- What the rules mean ------------------------------------------------------------------------------------

  /** The decision in terms of the policy file: every review is for this network; each asset spent stays, all
      steps together, within its per-transaction limit and, with what the last day spent, within its daily limit;
      in auto mode each asset spent has a limit; outside DEX takes every payee is a listed script, in the clear; a
      DEX is a listed one, and need not be listed only where someone confirms. */
  lemma AllowedMeans(policy: Policy, history: seq<SpendRecord>, request: Request, now: nat)
    ensures Allowed(policy, history, request, now) <==>
            && |request.reviews| >= 1
            && (forall review :: review in request.reviews ==> review.genesis == request.genesis)
            && (forall a :: TotalSpent(request.reviews, request.policyAsset, a) < 0x1_0000_0000_0000_0000)
            && (forall a :: a in policy.limits && policy.limits[a].perTx.Some? ==>
                  TotalSpent(request.reviews, request.policyAsset, a) <= policy.limits[a].perTx.value)
            && (forall a :: a in policy.limits && policy.limits[a].per24h.Some? ==>
                  || TotalSpent(request.reviews, request.policyAsset, a) == 0
                  || policy.limits[a].per24h.value >= 0xFFFF_FFFF_FFFF_FFFF
                  || (Recent(history, now, a) + TotalSpent(request.reviews, request.policyAsset, a)
                      <= policy.limits[a].per24h.value))
            && (forall a :: policy.mode.Auto? && TotalSpent(request.reviews, request.policyAsset, a) > 0 ==>
                  a in policy.limits && (policy.limits[a].perTx.Some? || policy.limits[a].per24h.Some?))
            && (forall review, output :: review in request.reviews && output in review.external ==>
                  || policy.recipients.None? || (review.kind.SwapTake? && request.dexUrl.Some?)
                  || (output.address.blinder.None? && output.address.script in policy.recipients.value))
            && (request.dexUrl.Some? ==>
                  if policy.dexUrls.GetOr({}) == {} then policy.mode.Confirm?
                  else request.dexUrl.value in policy.dexUrls.value)
  {
    LimitsMean(policy, history, request, now);
    RecipientsMean(policy, request);
    hide TotalSpent, Recent, WithinLimits, ReviewRecipientsOk;
    CountableMeans(request);
    assert (forall i :: 0 <= i < |request.reviews| ==> request.reviews[i].genesis == request.genesis)
      <==> forall review :: review in request.reviews ==> review.genesis == request.genesis;
  }

  lemma CountableMeans(request: Request)
    ensures Countable(request.reviews, request.policyAsset) <==>
            forall a :: TotalSpent(request.reviews, request.policyAsset, a) < 0x1_0000_0000_0000_0000
  {
    var reviews, policyAsset := request.reviews, request.policyAsset;
    if Countable(reviews, policyAsset) {
      forall a: Asset
        ensures TotalSpent(reviews, policyAsset, a) < 0x1_0000_0000_0000_0000
      {
        assert TotalSpent(reviews, policyAsset, a) <= MAX_U64;
      }
    } else {
      var a: Asset :| TotalSpent(reviews, policyAsset, a) > MAX_U64;
      assert TotalSpent(reviews, policyAsset, a) >= 0x1_0000_0000_0000_0000;
    }
  }

  lemma LimitsMean(policy: Policy, history: seq<SpendRecord>, request: Request, now: nat)
    ensures (forall a :: WithinLimits(policy, history, request, now, a)) <==>
            && (forall a :: a in policy.limits && policy.limits[a].perTx.Some? ==>
                  TotalSpent(request.reviews, request.policyAsset, a) <= policy.limits[a].perTx.value)
            && (forall a :: a in policy.limits && policy.limits[a].per24h.Some? ==>
                  || TotalSpent(request.reviews, request.policyAsset, a) == 0
                  || policy.limits[a].per24h.value >= 0xFFFF_FFFF_FFFF_FFFF
                  || (Recent(history, now, a) + TotalSpent(request.reviews, request.policyAsset, a)
                      <= policy.limits[a].per24h.value))
            && (forall a :: policy.mode.Auto? && TotalSpent(request.reviews, request.policyAsset, a) > 0 ==>
                  a in policy.limits && (policy.limits[a].perTx.Some? || policy.limits[a].per24h.Some?))
  {
    forall a
      ensures WithinLimits(policy, history, request, now, a) <==>
              && (a in policy.limits && policy.limits[a].perTx.Some? ==>
                    TotalSpent(request.reviews, request.policyAsset, a) <= policy.limits[a].perTx.value)
              && (a in policy.limits && policy.limits[a].per24h.Some? ==>
                    || TotalSpent(request.reviews, request.policyAsset, a) == 0
                    || policy.limits[a].per24h.value >= 0xFFFF_FFFF_FFFF_FFFF
                    || (Recent(history, now, a) + TotalSpent(request.reviews, request.policyAsset, a)
                        <= policy.limits[a].per24h.value))
              && (policy.mode.Auto? && TotalSpent(request.reviews, request.policyAsset, a) > 0 ==>
                    a in policy.limits && (policy.limits[a].perTx.Some? || policy.limits[a].per24h.Some?))
    {
      hide TotalSpent, Recent;
    }
    hide TotalSpent, Recent, WithinLimits;
  }

  lemma RecipientsMean(policy: Policy, request: Request)
    ensures (forall i :: 0 <= i < |request.reviews| ==>
               ReviewRecipientsOk(policy, request.reviews[i], request.dexUrl.Some?))
      <==> (forall review, output :: review in request.reviews && output in review.external ==>
              || policy.recipients.None? || (review.kind.SwapTake? && request.dexUrl.Some?)
              || (output.address.blinder.None? && output.address.script in policy.recipients.value))
  {
    forall review | review in request.reviews
      ensures ReviewRecipientsOk(policy, review, request.dexUrl.Some?) <==>
              forall output :: output in review.external ==>
                || policy.recipients.None? || (review.kind.SwapTake? && request.dexUrl.Some?)
                || (output.address.blinder.None? && output.address.script in policy.recipients.value)
    {}
    hide ReviewRecipientsOk;
  }
}
