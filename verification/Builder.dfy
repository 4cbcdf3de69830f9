/** Building every supported transaction from a request: fund it, assemble it, review it. */
module Builder {
  import opened Common
  import opened Coins
  import opened Funding
  import FundingTheorems
  import FundingUnique
  import opened Pset
  import opened Operations
  import opened Drafts
  import Review
  import ReviewTheorems

  const MAX_REQUEST_ITEMS: nat := 500

  const NO_PLAN := Plan([], [], [])

  const NO_FUNDING := Funding([], [], 0)

  datatype BuildError =
    | ZeroAmount
    | AmountTooLarge
    | TooManyItems
    | InvalidUtxo
    | InvalidRequest
    | ConfidentialCoins
    | NothingLeft
    | NotFunded(error: FundError)
    | NotReviewed

  datatype Prepared = Prepared(tx: Transaction, review: TxReview)

  // ---- Request checks --------------------------------------------------------------------------

  predicate InMoneyRange(amount: nat) {
    0 < amount <= MAX_MONEY
  }

  method ValidateAmount(amount: nat) returns (error: Option<BuildError>)
    ensures error.None? <==> InMoneyRange(amount)
    ensures error.Some? ==> error.value == if amount == 0 then ZeroAmount else AmountTooLarge
  {
    if amount == 0 { return Some(ZeroAmount); }
    error := if amount > MAX_MONEY then Some(AmountTooLarge) else None;
  }

  predicate UtxosOk(utxos: seq<Utxo>) {
    |utxos| <= 500 && forall i :: 0 <= i < |utxos| ==> InMoneyRange(utxos[i].value)
  }

  method ParseUtxos(utxos: seq<Utxo>) returns (error: Option<BuildError>)
    ensures error.None? <==> UtxosOk(utxos)
    ensures error.Some? ==> error.value == if |utxos| > 500 then TooManyItems else InvalidUtxo
  {
    if |utxos| > MAX_REQUEST_ITEMS { return Some(TooManyItems); }
    for i := 0 to |utxos|
      invariant forall j :: 0 <= j < i ==> InMoneyRange(utxos[j].value)
    {
      if !InMoneyRange(utxos[i].value) { return Some(InvalidUtxo); }
    }
    error := None;
  }

  // ---- Assembly ------------------------------------------------------------------------------------

  /** Makers' inputs first, then the wallet's, the first of which carries the issuance. */
  method AddInputs(k: Keys, d: Draft) returns (inputs: seq<Input>)
    ensures inputs == Inputs(k, d)
  {
    inputs := [];
    hide MakerInput, WalletInput;
    for i := 0 to |d.offers|
      invariant inputs == MakerInputs(d.offers)[..i]
    {
      inputs := inputs + [MakerInput(d.offers[i])];
    }
    ghost var makers := inputs;
    for i := 0 to |d.utxos|
      invariant inputs == makers + CoinInputs(k, d.utxos, d.issue)[..i]
    {
      inputs := inputs + [WalletInput(k, d.utxos[i], All, if i == 0 then d.issue else None)];
    }
  }

  method AddWalletOutputs(k: Keys, outputs: seq<Output>, coins: seq<Coin>, change: bool, index: nat, blinded: bool)
    returns (more: seq<Output>)
    ensures more == outputs + WalletOutputs(k, coins, change, index, blinded)
  {
    more := outputs;
    hide WalletOutput;
    for i := 0 to |coins|
      invariant more == outputs + WalletOutputs(k, coins, change, index, blinded)[..i]
    {
      more := more + [WalletOutput(k, coins[i], change, index, blinded)];
    }
  }

  /** Makers' outputs at their inputs' positions, the outside payment, own outputs, change, and the fee last. */
  method AddOutputs(k: Keys, d: Draft) returns (outputs: seq<Output>)
    ensures outputs == Outputs(k, d)
  {
    outputs := [];
    hide MakerOutput, PayeeOutput, WalletOutputs, FeeOutput;
    for i := 0 to |d.offers|
      invariant outputs == MakerOutputs(d.offers)[..i]
    {
      outputs := outputs + [MakerOutput(d.offers[i])];
    }
    if d.payee.Some? { outputs := outputs + [PayeeOutput(d.payee.value)]; }
    assert outputs == MakerOutputs(d.offers) + PayeeOutputs(d.payee);
    ghost var paid := outputs;
    outputs := AddWalletOutputs(k, outputs, d.own, false, d.receiveIndex, false);
    outputs := AddWalletOutputs(k, outputs, d.changes, true, d.changeIndex, AnyConfidential(d.utxos));
    assert outputs == paid + OwnOutputs(k, d);
    outputs := outputs + [FeeOutput(k, d.fee)];
  }

  /** Assembles, blinds and reviews; nothing but the review's limits can refuse a sound draft. */
  method Finish(k: Keys, d: Draft, kind: Kind) returns (r: Result<Prepared, BuildError>)
    requires Sound(k, d, kind)
    ensures r.Ok? ==>
        r.value.tx == Tx(k, d) && Accepts(k.w, Tx(k, d), kind) && Describes(k.w, Tx(k, d), kind, r.value.review)
    ensures r.Ok? <==> Within(k, d)
    ensures r.Err? ==> r.error == NotReviewed
  {
    var inputs := AddInputs(k, d);
    var outputs := AddOutputs(k, d);
    var tx := Transaction(true, Some(k.w.genesis), true, inputs, outputs, AnyConfidential(d.utxos)
        ==> HasBlinded(outputs));
    assert tx == Tx(k, d);
    DraftAccepted(k, d, kind);
    hide *;
    var review := Review.Analyze(k.w, tx, kind);
    if review.Err? { return Err(NotReviewed); }
    r := Ok(Prepared(tx, review.value));
  }

  // ---- From funding to a sound draft ------------------------------------------------------------------

  /** The draft spends exactly what was funded. */
  predicate Spends(d: Draft, f: Funding) {
    d.utxos == f.inputs && d.changes == f.changes && d.fee == f.fee
  }

  /** The funded request is shaped like the draft. */
  predicate Shaped(d: Draft, req: Request) {
    && req.shape.foreignInputs == |d.offers|
    && |req.shape.fixedScripts| == |d.offers| + (if d.payee.Some? then 1 else 0) + |d.own|
    && (forall i :: 0 <= i < |req.shape.fixedScripts| ==> req.shape.fixedScripts[i] <= 42)
    && req.shape.blindedFixed == (if d.payee.Some? && d.payee.value.blinder.Some? then 1 else 0)
    && (|req.forced| + |req.needs| <= 1 || !AnyConfidential(req.forced + req.candidates))
  }

  ghost predicate FundedFor(k: Keys, req: Request, plan: Plan, f: Funding, d: Draft) {
    && req.policy == k.w.policy && 1 <= req.feeRate && Funded(req, plan, f) && Spends(d, f) && Shaped(d, req)
    && Distinct(req.forced + req.candidates)
    && (forall u :: u in req.forced + req.candidates ==> InMoneyRange(u.value))
  }

  lemma InputsInRange(req: Request, plan: Plan, f: Funding)
    requires Funded(req, plan, f) && Distinct(req.forced + req.candidates)
    requires forall u :: u in req.forced + req.candidates ==> InMoneyRange(u.value)
    ensures f.inputs != [] && Distinct(f.inputs)
    ensures forall i ::
        0 <= i < |f.inputs| ==> InMoneyRange(f.inputs[i].value) && f.inputs[i] in req.forced + req.candidates
  {
    FundingTheorems.InputsAreSound(req, plan, f, {});
    hide *;
    forall i | 0 <= i < |f.inputs|
      ensures f.inputs[i] in req.forced + req.candidates
    {
      assert f.inputs[i] in multiset(f.inputs);
      assert f.inputs[i] in multiset(req.forced + req.candidates);
    }
  }

  /** Coins, change and fee of a funded draft are sound. */
  lemma FundedCoins(k: Keys, req: Request, plan: Plan, f: Funding, d: Draft)
    requires FundedFor(k, req, plan, f, d)
    requires forall i :: 0 <= i < |d.own| ==> d.own[i].amount > 0
    requires d.payee.Some? ==> d.payee.value.coin.amount > 0
    ensures CoinsSound(d)
    ensures forall i :: 0 <= i < |d.utxos| ==> d.utxos[i] in req.forced + req.candidates
  {
    InputsInRange(req, plan, f);
    FundingTheorems.FeePaysRate(req, plan, f);
    FundingTheorems.ChangeIsSound(req, plan, f);
    PositiveFee(req, plan);
    if AnyConfidential(f.inputs) { FundingTheorems.BlindedOutputExists(req, plan, f); }
    hide Funded, AnyConfidential, Distinct, LoopFee;
  }

  lemma FundedBalance(k: Keys, req: Request, plan: Plan, f: Funding, d: Draft, a: Asset)
    requires FundedFor(k, req, plan, f, d)
    requires req.Need(a) + Total(GiveCoins(d.offers), a) + Total(IssueCoins(k, d), a)
          == Total(WantCoins(d.offers), a) + Total(PayeeCoins(d.payee), a) + Total(d.own, a)
    ensures BalancedAt(k, d, a)
  {
    FundingTheorems.Conservation(req, plan, f, a);
    hide Funded, Distinct, Shaped, Total, Of, Sum;
  }

  // ---- The fee the review will tolerate ----------------------------------------------------------------

  lemma {:induction false} ScriptsBounded(scripts: seq<nat>)
    requires forall i :: 0 <= i < |scripts| ==> scripts[i] <= 42
    ensures OutputsBase(scripts) <= |scripts| * 86
  {
    if scripts != [] { ScriptsBounded(scripts[..|scripts| - 1]); }
  }

  lemma SizeBounded(inputs: nat, issuance: bool, scripts: seq<nat>, blinded: nat)
    requires inputs <= 256 && |scripts| <= 257 && (forall i :: 0 <= i < |scripts| ==> scripts[i] <= 42) && blinded <= 3
    ensures Vsize(inputs, issuance, scripts, blinded) <= 60_000
  {
    ScriptsBounded(scripts);
    hide OutputsBase;
  }

  lemma OthersFew(req: Request)
    ensures |OtherAssets(req)| <= |req.forced| + |req.needs|
  {
    var forced := set u | u in req.forced :: u.asset;
    FundingTheorems.AssetsFew(req.forced);
    FundingTheorems.UnionSize(req.needs.Keys, forced);
    FundingTheorems.UnionSize(OtherAssets(req), req.needs.Keys + forced);
    assert OtherAssets(req) + (req.needs.Keys + forced) == req.needs.Keys + forced;
    assert |req.needs.Keys| == |req.needs|;
  }

  lemma BaseFew(req: Request, plan: Plan, f: Funding)
    requires Funded(req, plan, f)
    ensures |plan.base| <= |OtherAssets(req)| && |plan.base| <= |f.changes| && f.inputs == WalletInputs(req, plan)
  {
    FundingTheorems.AscendingIsShort(plan.base, OtherAssets(req));
    hide Selected, PicksEnough, Ascending, OtherAssets;
  }

  lemma ConfidentialSource(inputs: seq<Utxo>, source: seq<Utxo>)
    requires forall i :: 0 <= i < |inputs| ==> inputs[i] in source
    ensures AnyConfidential(inputs) ==> AnyConfidential(source)
  {
    if AnyConfidential(inputs) {
      var i :| 0 <= i < |inputs| && inputs[i].confidential;
      var j :| 0 <= j < |source| && source[j] == inputs[i];
      assert source[j].confidential;
    }
  }

  /** How many outputs the fee estimate counts as blinded. */
  function BlindedCount(req: Request, plan: Plan, inputs: seq<Utxo>): nat {
    req.shape.blindedFixed + (if AnyConfidential(inputs) then |plan.base| + 1 else 0)
  }

  lemma FewBlinded(req: Request, plan: Plan, f: Funding, d: Draft)
    requires Funded(req, plan, f) && Shaped(d, req)
    requires forall i :: 0 <= i < |f.inputs| ==> f.inputs[i] in req.forced + req.candidates
    ensures BlindedCount(req, plan, f.inputs) <= 3
  {
    ConfidentialSource(f.inputs, req.forced + req.candidates);
    OthersFew(req);
    BaseFew(req, plan, f);
    hide Funded, AnyConfidential, OtherAssets;
  }

  lemma OutputCount(k: Keys, d: Draft)
    ensures |Outputs(k, d)| == |d.offers| + (if d.payee.Some? then 1 else 0) + |d.own| + |d.changes| + 1
  {}

  lemma ScriptsSmall(req: Request, d: Draft, changes: nat)
    requires Shaped(d, req)
    ensures var scripts := ChangeScripts(req.shape, changes);
            && |scripts| == |d.offers| + (if d.payee.Some? then 1 else 0) + |d.own| + changes + 1
            && forall i :: 0 <= i < |scripts| ==> scripts[i] <= 42
  {}

  lemma SizeIs(req: Request, plan: Plan, inputs: seq<Utxo>)
    ensures SizeWith(req, inputs, |plan.base| + 1)
         == Vsize(req.shape.foreignInputs + |inputs|, req.shape.hasIssuance, ChangeScripts(req.shape, |plan.base| + 1),
                  BlindedCount(req, plan, inputs))
  {
    hide Vsize, AnyConfidential, ChangeScripts;
  }

  /** The fee of a draft within the review's limits is at most the request's bound. */
  lemma FeeTolerated(k: Keys, req: Request, plan: Plan, f: Funding, d: Draft)
    requires FundedFor(k, req, plan, f, d) && Within(k, d)
    ensures d.fee <= req.feeRate * MAX_FEE_VBYTES
  {
    FundedParts(k, req, plan, f, d);
    assert |d.offers| + |d.utxos| <= 256 && |Outputs(k, d)| <= 256;
    hide *;
    FundingTheorems.FeePaysRate(req, plan, f);
    InputsInRange(req, plan, f);
    FewBlinded(req, plan, f, d);
    BaseFew(req, plan, f);
    OutputCount(k, d);
    ScriptsSmall(req, d, |plan.base| + 1);
    SizeIs(req, plan, f.inputs);
    var scripts := ChangeScripts(req.shape, |plan.base| + 1);
    SizeBounded(|d.offers| + |d.utxos|, req.shape.hasIssuance, scripts, BlindedCount(req, plan, f.inputs));
    FundingTheorems.FeeMono(SizeWith(req, f.inputs, |plan.base| + 1), 60_000, req.feeRate);
    LoopFeeIs(req, plan);
    RateBound(req.feeRate);
  }

  lemma FundedParts(k: Keys, req: Request, plan: Plan, f: Funding, d: Draft)
    requires FundedFor(k, req, plan, f, d)
    ensures Funded(req, plan, f) && Shaped(d, req) && Distinct(req.forced + req.candidates) && 1 <= req.feeRate
    ensures forall u :: u in req.forced + req.candidates ==> InMoneyRange(u.value)
    ensures d.utxos == f.inputs && d.changes == f.changes && d.fee == f.fee && req.shape.foreignInputs == |d.offers|
  {}

  lemma LoopFeeIs(req: Request, plan: Plan)
    ensures LoopFee(req, plan) == FeeFor(SizeWith(req, WalletInputs(req, plan), |plan.base| + 1), req.feeRate)
  {}

  lemma RateBound(rate: nat)
    requires 1 <= rate
    ensures FeeFor(60_000, rate) + POLICY_DUST_LIMIT - 1 <= rate * MAX_FEE_VBYTES
  {}

  // ---- The six requests -----------------------------------------------------------------------------------

  predicate FromList(d: Draft, utxos: seq<Utxo>) {
    forall i :: 0 <= i < |d.utxos| ==> d.utxos[i] in utxos
  }

  /** Assembles and reviews a funded draft for the operation that asked for it. */
  method Complete(k: Keys, d: Draft, kind: Kind, op: Operation, offered: Offered, decoded: seq<DecodedOffer>,
                  ghost spent: OutPoint, ghost req: Request, ghost plan: Plan, ghost f: Funding)
    returns (r: Result<Prepared, BuildError>)
    requires IdsDiffer(k.w) && Sound(k, d, kind) && FundedFor(k, req, plan, f, d) && op.feeRate == req.feeRate
    requires forall review :: Requested(d, kind, op, PreparedPlan(review, offered, decoded), spent)
    ensures r.Ok? ==>
        && r.value.tx == Tx(k, d)
        && ReviewTheorems.Approved(k.w, r.value.tx, op, PreparedPlan(r.value.review, offered, decoded))
    ensures r.Ok? <==> Within(k, d)
    ensures r.Err? ==> r.error == NotReviewed
  {
    hide *;
    r := Finish(k, d, kind);
    if r.Ok? {
      var prepared := PreparedPlan(r.value.review, offered, decoded);
      FeeTolerated(k, req, plan, f, d);
      DraftMatches(k, d, kind, op, prepared, spent);
      ApprovedIs(k, d, kind, op, prepared);
    }
  }

  lemma ApprovedIs(k: Keys, d: Draft, kind: Kind, op: Operation, plan: PreparedPlan)
    requires Accepts(k.w, Tx(k, d), kind) && Describes(k.w, Tx(k, d), kind, plan.review)
        && Matches(op, plan, k.w.genesis)
    ensures ReviewTheorems.Approved(k.w, Tx(k, d), op, plan)
  {
    hide Accepts, Matches, Tx, ListsDeltas;
  }

  /** What a request builds, besides the selected inputs, their change and the fee. */
  datatype Job =
    | Transfers(payee: Payee)
    | Splits(coin: Coin, receiveIndex: nat)
    | Issues(issue: Issue, receiveIndex: nat)
    | Cancels
    | Takes(offers: seq<Offer>, own: seq<Coin>, receiveIndex: nat)

  /** The issued coins, as own outputs. */
  function IssuedTo(k: Keys, issuer: OutPoint, issue: Issue): seq<Coin> {
    var (asset, token) := k.w.ids(issuer, issue.contract);
    [Coin(asset, issue.amount)] + (if issue.tokens > 0 then [Coin(token, issue.tokens)] else [])
  }

  /** The draft of a funded job. */
  function DraftFor(k: Keys, job: Job, changeIndex: nat, f: Funding): Draft {
    match job
    case Transfers(payee) => Draft([], f.inputs, None, Some(payee), [], 0, f.changes, changeIndex, f.fee)
    case Splits(coin, receive) => Draft([], f.inputs, None, None, [coin], receive, f.changes, changeIndex, f.fee)
    case Issues(issue, receive) =>
      var own := if f.inputs == [] then [] else IssuedTo(k, f.inputs[0].outpoint, issue);
      Draft([], f.inputs, Some(issue), None, own, receive, f.changes, changeIndex, f.fee)
    case Cancels => Draft([], f.inputs, None, None, [], 0, f.changes, changeIndex, f.fee)
    case Takes(offers, own, receive) =>
      Draft(offers, f.inputs, None, None, own, receive, f.changes, changeIndex, f.fee)
  }

  /** The request can be funded, by a draft within the review's limits. */
  ghost predicate Feasible(k: Keys, job: Job, changeIndex: nat, req: Request, excluded: set<OutPoint>) {
    && 1 <= req.feeRate <= MAX_FEE_RATE
    && Distinct(req.forced + req.candidates) && Avoids(req.forced + req.candidates, excluded)
    && exists plan: Plan, f: Funding :: Funded(req, plan, f) && Within(k, DraftFor(k, job, changeIndex, f))
  }

  lemma NotFeasible(k: Keys, job: Job, changeIndex: nat, req: Request, excluded: set<OutPoint>, error: FundError)
    requires Unfunded(req, excluded, error)
    requires req.feeRate <= MAX_FEE_RATE ==> FundingTheorems.WithinLimits(req)
    ensures !Feasible(k, job, changeIndex, req, excluded)
  {
    FundingUnique.FailureIsReal(req, excluded, error);
    hide Unfunded, FundingTheorems.WithinLimits, Funded, Within, DraftFor, Distinct, Avoids;
  }

  /** The result of the selection being unique, its draft decides. */
  lemma FeasibleIff(k: Keys, job: Job, changeIndex: nat, req: Request, excluded: set<OutPoint>, plan: Plan, f: Funding)
    requires Funded(req, plan, f) && 1 <= req.feeRate <= MAX_FEE_RATE
    requires Distinct(req.forced + req.candidates) && Avoids(req.forced + req.candidates, excluded)
    ensures Feasible(k, job, changeIndex, req, excluded) <==> Within(k, DraftFor(k, job, changeIndex, f))
  {
    hide Funded, Within, DraftFor, Distinct, Avoids;
    forall p, g | Funded(req, p, g)
      ensures g == f
    {
      FundingUnique.FundingIsUnique(req, plan, f, p, g);
    }
  }

  function PaymentRequest(k: Keys, coin: Coin, blinded: bool, feeRate: nat, utxos: seq<Utxo>): Request {
    Request([], utxos, map[coin.asset := coin.amount], Shape(0, false, [P2WPKH_SCRIPT_LEN], if blinded then 1 else 0),
        feeRate, k.w.policy)
  }

  lemma FundedForIs(k: Keys, req: Request, plan: Plan, f: Funding, d: Draft)
    requires req.policy == k.w.policy && 1 <= req.feeRate && Funded(req, plan, f) && Spends(d, f) && Shaped(d, req)
    requires Distinct(req.forced + req.candidates) && |req.forced| <= 1
    requires UtxosOk(req.candidates) && (req.forced != [] ==> InMoneyRange(req.forced[0].value))
    ensures FundedFor(k, req, plan, f, d)
  {
    hide Funded, Shaped, Distinct;
  }

  /** Payment of one coin, to an outside payee or to the wallet itself. */
  lemma PaymentSound(k: Keys, req: Request, plan: Plan, f: Funding, d: Draft, coin: Coin, blinded: bool, kind: Kind)
    requires FundedFor(k, req, plan, f, d) && req == PaymentRequest(k, coin, blinded, req.feeRate, req.candidates)
    requires InMoneyRange(coin.amount) && d.offers == [] && d.issue.None?
    requires if kind.Transfer? then d.payee.Some? && d.payee.value.coin == coin && d.own == []
             else kind.OfferSplit? && d.payee.None? && d.own == [coin]
    ensures Sound(k, d, kind) && FromList(d, req.candidates)
  {
    FundedCoins(k, req, plan, f, d);
    assert req.forced + req.candidates == req.candidates;
    forall a
      ensures BalancedAt(k, d, a)
    {
      OneCoin(coin, a);
      NoCoins(a);
      assert IssueCoins(k, d) == [];
      assert GiveCoins(d.offers) == [] && WantCoins(d.offers) == [];
      FundedBalance(k, req, plan, f, d, a);
    }
    hide FundedFor, BalancedAt, CoinsSound;
  }

  lemma PaymentLimits(k: Keys, coin: Coin, blinded: bool, feeRate: nat, utxos: seq<Utxo>)
    requires InMoneyRange(coin.amount) && UtxosOk(utxos) && feeRate <= MAX_FEE_RATE
    ensures FundingTheorems.WithinLimits(PaymentRequest(k, coin, blinded, feeRate, utxos))
  {
    assert [] + utxos == utxos;
  }

  /** Send any asset to a recipient. */
  method PrepareTransfer(k: Keys, payee: Payee, feeRate: nat, utxos: seq<Utxo>, changeIndex: nat)
    returns (r: Result<Prepared, BuildError>, ghost plan: Plan, ghost f: Funding)
    requires IdsDiffer(k.w)
    ensures var req := PaymentRequest(k, payee.coin, payee.blinder.Some?, feeRate, utxos);
            && (r.Ok? <==> InMoneyRange(payee.coin.amount) && UtxosOk(utxos)
                           && Feasible(k, Transfers(payee), changeIndex, req, {}))
            && (r.Ok? ==> Funded(req, plan, f)
                          && r.value.tx == Tx(k, DraftFor(k, Transfers(payee), changeIndex, f)))
            && (r.Err? && r.error.NotFunded? ==> Unfunded(req, {}, r.error.error))
    ensures r.Ok? ==>
              ReviewTheorems.Approved(
                k.w, r.value.tx, TransferOp(payee.coin.asset, Address(P2wpkh(payee.key), payee.blinder),
                    payee.coin.amount, feeRate),
                PreparedPlan(r.value.review, Unset, []))
  {
    plan, f := NO_PLAN, NO_FUNDING;
    var error := ValidateAmount(payee.coin.amount);
    if error.Some? { return Err(error.value), plan, f; }
    error := ParseUtxos(utxos);
    if error.Some? { return Err(error.value), plan, f; }
    var job, req := Transfers(payee), PaymentRequest(k, payee.coin, payee.blinder.Some?, feeRate, utxos);
    assert req.forced == [] && req.candidates == utxos && req.feeRate == feeRate && req.policy == k.w.policy;
    hide *;
    var funded;
    funded, plan := Fund(req, {});
    if feeRate <= MAX_FEE_RATE { PaymentLimits(k, payee.coin, payee.blinder.Some?, feeRate, utxos); }
    if funded.Err? {
      NotFeasible(k, job, changeIndex, req, {}, funded.error);
      return Err(NotFunded(funded.error)), plan, f;
    }
    var funding := funded.value;
    f := funding;
    FeasibleIff(k, job, changeIndex, req, {}, plan, f);
    var draft := DraftFor(k, job, changeIndex, funding);
    TransferDraft(k, payee, changeIndex, f);
    PaymentShaped(k, req, draft, payee.coin, payee.blinder.Some?);
    FundedForIs(k, req, plan, f, draft);
    PaymentSound(k, req, plan, f, draft, payee.coin, payee.blinder.Some?, Transfer);
    var op := TransferOp(payee.coin.asset, Address(P2wpkh(payee.key), payee.blinder), payee.coin.amount, feeRate);
    TransferRequested(draft, op, payee);
    r := Complete(k, draft, Transfer, op, Unset, [], OutPoint(0, 0), req, plan, f);
  }

  lemma TransferDraft(k: Keys, payee: Payee, changeIndex: nat, f: Funding)
    ensures var d := DraftFor(k, Transfers(payee), changeIndex, f);
            d.offers == [] && d.issue.None? && d.payee == Some(payee) && d.own == [] && Spends(d, f)
  {}

  lemma PaymentShaped(k: Keys, req: Request, d: Draft, coin: Coin, blinded: bool)
    requires req == PaymentRequest(k, coin, blinded, req.feeRate, req.candidates) && d.offers == []
    requires if d.payee.Some? then d.own == [] && blinded == d.payee.value.blinder.Some? else |d.own| == 1 && !blinded
    ensures Shaped(d, req)
  {}

  lemma TransferRequested(d: Draft, op: Operation, payee: Payee)
    requires d.payee == Some(payee)
    requires op == TransferOp(payee.coin.asset, Address(P2wpkh(payee.key), payee.blinder), payee.coin.amount,
        op.feeRate)
    ensures forall review, spent :: Requested(d, Transfer, op, PreparedPlan(review, Unset, []), spent)
  {}

  /** Self-send creating an output of exactly the given coin so it can be offered. */
  method PrepareOfferSplit(k: Keys, coin: Coin, want: Coin, feeRate: nat, utxos: seq<Utxo>, changeIndex: nat,
      receiveIndex: nat)
    returns (r: Result<Prepared, BuildError>, ghost plan: Plan, ghost f: Funding)
    requires IdsDiffer(k.w)
    ensures var req := PaymentRequest(k, coin, false, feeRate, utxos);
            && (r.Ok? <==> InMoneyRange(coin.amount) && UtxosOk(utxos)
                           && Feasible(k, Splits(coin, receiveIndex), changeIndex, req, {}))
            && (r.Ok? ==> Funded(req, plan, f)
                          && r.value.tx == Tx(k, DraftFor(k, Splits(coin, receiveIndex), changeIndex, f)))
            && (r.Err? && r.error.NotFunded? ==> Unfunded(req, {}, r.error.error))
    ensures r.Ok? ==>
              ReviewTheorems.Approved(
                k.w, r.value.tx, SwapOfferOp(coin.asset, coin.amount, want.asset, want.amount, feeRate),
                PreparedPlan(r.value.review, SplitFirst, []))
  {
    plan, f := NO_PLAN, NO_FUNDING;
    var error := ValidateAmount(coin.amount);
    if error.Some? { return Err(error.value), plan, f; }
    error := ParseUtxos(utxos);
    if error.Some? { return Err(error.value), plan, f; }
    var job, req := Splits(coin, receiveIndex), PaymentRequest(k, coin, false, feeRate, utxos);
    assert req.forced == [] && req.candidates == utxos && req.feeRate == feeRate && req.policy == k.w.policy;
    hide *;
    var funded;
    funded, plan := Fund(req, {});
    if feeRate <= MAX_FEE_RATE { PaymentLimits(k, coin, false, feeRate, utxos); }
    if funded.Err? {
      NotFeasible(k, job, changeIndex, req, {}, funded.error);
      return Err(NotFunded(funded.error)), plan, f;
    }
    var funding := funded.value;
    f := funding;
    FeasibleIff(k, job, changeIndex, req, {}, plan, f);
    var draft := DraftFor(k, job, changeIndex, funding);
    SplitDraft(k, coin, receiveIndex, changeIndex, f);
    PaymentShaped(k, req, draft, coin, false);
    FundedForIs(k, req, plan, f, draft);
    PaymentSound(k, req, plan, f, draft, coin, false, OfferSplit);
    var op := SwapOfferOp(coin.asset, coin.amount, want.asset, want.amount, feeRate);
    SplitRequested(draft, op);
    r := Complete(k, draft, OfferSplit, op, SplitFirst, [], OutPoint(0, 0), req, plan, f);
  }

  lemma SplitDraft(k: Keys, coin: Coin, receiveIndex: nat, changeIndex: nat, f: Funding)
    ensures var d := DraftFor(k, Splits(coin, receiveIndex), changeIndex, f);
            d.offers == [] && d.issue.None? && d.payee.None? && d.own == [coin] && Spends(d, f)
  {}

  lemma SplitRequested(d: Draft, op: Operation)
    requires op.SwapOfferOp?
    ensures forall review, spent :: Requested(d, OfferSplit, op, PreparedPlan(review, SplitFirst, []), spent)
  {}

  // ---- Issuance -------------------------------------------------------------------------------------------

  function IssuanceRequest(k: Keys, tokens: nat, feeRate: nat, utxos: seq<Utxo>): Request {
    Request([], utxos, map[], Shape(0, true, if tokens > 0 then [P2WPKH_SCRIPT_LEN, P2WPKH_SCRIPT_LEN]
        else [P2WPKH_SCRIPT_LEN], 0),
            feeRate, k.w.policy)
  }

  lemma NoneSelected(selected: seq<Utxo>)
    ensures selected != [] ==> Of(selected, selected[|selected| - 1].asset) != []
  {}

  lemma {:induction false} OfAssets(utxos: seq<Utxo>, a: Asset)
    ensures forall i :: 0 <= i < |Of(utxos, a)| ==> Of(utxos, a)[i].asset == a
  {
    if utxos != [] { OfAssets(utxos[..|utxos| - 1], a); }
  }

  /** Nothing but policy coins is selected for an issuance, so the issuer is a policy coin. */
  lemma IssuerIsPolicy(req: Request, plan: Plan, f: Funding)
    requires Funded(req, plan, f) && req.forced == [] && req.needs == map[]
    ensures f.inputs != [] && forall i :: 0 <= i < |f.inputs| ==> f.inputs[i].asset == req.policy
  {
    FundingTheorems.OthersUntouched(req, plan);
    assert OtherAssets(req) == {};
    assert forall a :: Of(plan.selected, a) == [] by {
      hide PicksEnough, Of;
    }
    NoneSelected(plan.selected);
    OfAssets(plan.picks, req.policy);
    assert f.inputs == [] + [] + plan.picks == plan.picks;
    hide OthersChosen, Of;
  }

  lemma IssuanceSound(k: Keys, req: Request, plan: Plan, f: Funding, d: Draft, issue: Issue)
    requires FundedFor(k, req, plan, f, d) && req == IssuanceRequest(k, issue.tokens, req.feeRate, req.candidates)
    requires InMoneyRange(issue.amount) && issue.tokens <= MAX_MONEY
    requires d.offers == [] && d.issue == Some(issue) && d.payee.None?
    requires f.inputs != [] && d.own == IssuedTo(k, f.inputs[0].outpoint, issue)
    ensures Sound(k, d, Issuance) && FromList(d, req.candidates)
  {
    FundedCoins(k, req, plan, f, d);
    assert req.forced + req.candidates == req.candidates;
    assert IssueCoins(k, d) == d.own;
    forall a
      ensures BalancedAt(k, d, a)
    {
      NoCoins(a);
      assert GiveCoins(d.offers) == [] && WantCoins(d.offers) == [];
      FundedBalance(k, req, plan, f, d, a);
    }
    hide FundedFor, BalancedAt, CoinsSound, IssueCoins;
  }

  lemma IssuanceShaped(k: Keys, req: Request, d: Draft, issuer: OutPoint, issue: Issue)
    requires req == IssuanceRequest(k, issue.tokens, req.feeRate, req.candidates)
    requires d.offers == [] && d.payee.None? && d.own == IssuedTo(k, issuer, issue)
    ensures Shaped(d, req)
  {}

  lemma IssuanceRequested(d: Draft, issue: Issue, feeRate: nat)
    requires d.issue == Some(issue)
    ensures forall review, spent ::
              Requested(d, Issuance, IssuanceOp(issue.amount, issue.tokens, feeRate), PreparedPlan(review, Unset, []),
                  spent)
  {}

  lemma IssuanceLimits(k: Keys, tokens: nat, feeRate: nat, utxos: seq<Utxo>)
    requires UtxosOk(utxos) && feeRate <= MAX_FEE_RATE
    ensures FundingTheorems.WithinLimits(IssuanceRequest(k, tokens, feeRate, utxos))
  {
    assert [] + utxos == utxos;
  }

  /** Issue a new asset, and optionally its reissuance token, to this wallet. */
  method PrepareIssuance(k: Keys, issue: Issue, feeRate: nat, utxos: seq<Utxo>, changeIndex: nat, receiveIndex: nat)
    returns (r: Result<Prepared, BuildError>, ghost plan: Plan, ghost f: Funding)
    requires IdsDiffer(k.w)
    ensures var req := IssuanceRequest(k, issue.tokens, feeRate, utxos);
            && (r.Ok? <==> InMoneyRange(issue.amount) && issue.tokens <= MAX_MONEY && UtxosOk(utxos)
                           && Feasible(k, Issues(issue, receiveIndex), changeIndex, req, {}))
            && (r.Ok? ==> Funded(req, plan, f) && f.inputs != [] && f.inputs[0].asset == k.w.policy
                          && r.value.tx == Tx(k, DraftFor(k, Issues(issue, receiveIndex), changeIndex, f)))
            && (r.Err? && r.error.NotFunded? ==> Unfunded(req, {}, r.error.error))
    ensures r.Ok? ==>
              ReviewTheorems.Approved(
                k.w, r.value.tx, IssuanceOp(issue.amount, issue.tokens, feeRate),
                PreparedPlan(r.value.review, Unset, []))
  {
    plan, f := NO_PLAN, NO_FUNDING;
    var error := ValidateAmount(issue.amount);
    if error.Some? { return Err(error.value), plan, f; }
    if issue.tokens > MAX_MONEY { return Err(AmountTooLarge), plan, f; }
    error := ParseUtxos(utxos);
    if error.Some? { return Err(error.value), plan, f; }
    var job, req := Issues(issue, receiveIndex), IssuanceRequest(k, issue.tokens, feeRate, utxos);
    assert req.forced == [] && req.candidates == utxos && req.feeRate == feeRate && req.policy == k.w.policy
        && req.needs == map[];
    hide *;
    var funded;
    funded, plan := Fund(req, {});
    if feeRate <= MAX_FEE_RATE { IssuanceLimits(k, issue.tokens, feeRate, utxos); }
    if funded.Err? {
      NotFeasible(k, job, changeIndex, req, {}, funded.error);
      return Err(NotFunded(funded.error)), plan, f;
    }
    var funding := funded.value;
    f := funding;
    FeasibleIff(k, job, changeIndex, req, {}, plan, f);
    // the first input is a policy coin, so the source's check for one never fails
    IssuerIsPolicy(req, plan, f);
    var draft := DraftFor(k, job, changeIndex, funding);
    IssuanceDraft(k, issue, receiveIndex, changeIndex, f);
    IssuanceShaped(k, req, draft, f.inputs[0].outpoint, issue);
    FundedForIs(k, req, plan, f, draft);
    IssuanceSound(k, req, plan, f, draft, issue);
    IssuanceRequested(draft, issue, feeRate);
    r := Complete(k, draft, Issuance, IssuanceOp(issue.amount, issue.tokens, feeRate), Unset, [], OutPoint(0, 0), req,
        plan, f);
  }

  lemma IssuanceDraft(k: Keys, issue: Issue, receiveIndex: nat, changeIndex: nat, f: Funding)
    requires f.inputs != []
    ensures var d := DraftFor(k, Issues(issue, receiveIndex), changeIndex, f);
            && d.offers == [] && d.issue == Some(issue) && d.payee.None? && Spends(d, f)
            && d.own == IssuedTo(k, f.inputs[0].outpoint, issue)
  {
    hide IssuedTo;
  }

  // ---- Cancel ------------------------------------------------------------------------------------------------

  function CancelRequest(k: Keys, utxo: Utxo, feeRate: nat, others: seq<Utxo>): Request {
    Request([utxo], others, map[], Shape(0, false, [], 0), feeRate, k.w.policy)
  }

  lemma CancelSound(k: Keys, req: Request, plan: Plan, f: Funding, d: Draft, utxo: Utxo)
    requires FundedFor(k, req, plan, f, d) && req == CancelRequest(k, utxo, req.feeRate, req.candidates)
    requires d.offers == [] && d.issue.None? && d.payee.None? && d.own == []
    ensures Sound(k, d, Cancel) && FromList(d, [utxo] + req.candidates) && utxo in d.utxos
        && utxo.outpoint in UtxoOutpoints(d.utxos)
  {
    assert req.forced + req.candidates == [utxo] + req.candidates;
    hide *;
    FundedCoins(k, req, plan, f, d);
    CancelSpends(k, req, plan, f, d, utxo);
    forall a
      ensures BalancedAt(k, d, a)
    {
      CancelBalanced(k, req, plan, f, d, utxo, a);
    }
    CancelIsSound(k, d, [utxo] + req.candidates);
  }

  lemma CancelIsSound(k: Keys, d: Draft, source: seq<Utxo>)
    requires d.offers == [] && d.issue.None? && d.payee.None? && CoinsSound(d) && forall a :: BalancedAt(k, d, a)
    requires forall i :: 0 <= i < |d.utxos| ==> d.utxos[i] in source
    ensures Sound(k, d, Cancel) && FromList(d, source)
  {
    hide CoinsSound, BalancedAt;
  }

  lemma CancelSpends(k: Keys, req: Request, plan: Plan, f: Funding, d: Draft, utxo: Utxo)
    requires FundedFor(k, req, plan, f, d) && req == CancelRequest(k, utxo, req.feeRate, req.candidates)
    ensures utxo in d.utxos && utxo.outpoint in UtxoOutpoints(d.utxos)
  {
    FundedParts(k, req, plan, f, d);
    assert req.forced == [utxo];
    hide FundedFor, Funded, Shaped, Distinct;
    ForcedFirst(req, plan, f);
    assert d.utxos[0] == utxo && UtxoOutpoints(d.utxos)[0] == utxo.outpoint;
  }

  lemma ForcedFirst(req: Request, plan: Plan, f: Funding)
    requires Funded(req, plan, f)
    ensures req.forced <= f.inputs
  {
    hide OthersChosen, PicksEnough, LoopFee, PolicySum;
  }

  lemma CancelBalanced(k: Keys, req: Request, plan: Plan, f: Funding, d: Draft, utxo: Utxo, a: Asset)
    requires FundedFor(k, req, plan, f, d) && req == CancelRequest(k, utxo, req.feeRate, req.candidates)
    requires d.offers == [] && d.issue.None? && d.payee.None? && d.own == []
    ensures BalancedAt(k, d, a)
  {
    NoCoins(a);
    assert IssueCoins(k, d) == [];
    assert GiveCoins(d.offers) == [] && WantCoins(d.offers) == [];
    FundedBalance(k, req, plan, f, d, a);
    hide FundedFor;
  }

  lemma CancelShaped(k: Keys, req: Request, d: Draft, utxo: Utxo)
    requires req == CancelRequest(k, utxo, req.feeRate, req.candidates) && d.offers == [] && d.payee.None?
        && d.own == []
    ensures Shaped(d, req)
  {}

  lemma CancelRequested(d: Draft, spent: OutPoint, feeRate: nat)
    requires spent in UtxoOutpoints(d.utxos)
    ensures forall review :: Requested(d, Cancel, CancelOp(spent, feeRate), PreparedPlan(review, Unset, []), spent)
  {}

  lemma CancelLimits(k: Keys, utxo: Utxo, feeRate: nat, others: seq<Utxo>)
    requires InMoneyRange(utxo.value) && UtxosOk(others) && feeRate <= MAX_FEE_RATE
    ensures FundingTheorems.WithinLimits(CancelRequest(k, utxo, feeRate, others))
  {
    assert forall u :: u in [utxo] + others ==> u == utxo || u in others;
  }

  /** The cancel can be funded by a draft within the review's limits, and leaves something to return. */
  ghost predicate CancelFeasible(k: Keys, changeIndex: nat, req: Request) {
    && 1 <= req.feeRate <= MAX_FEE_RATE && Distinct(req.forced + req.candidates)
    && exists plan: Plan, f: Funding ::
         Funded(req, plan, f) && f.changes != [] && Within(k, DraftFor(k, Cancels, changeIndex, f))
  }

  lemma CancelFeasibleIs(k: Keys, changeIndex: nat, req: Request)
    ensures CancelFeasible(k, changeIndex, req) ==> Feasible(k, Cancels, changeIndex, req, {})
    ensures forall plan, f :: Funded(req, plan, f) ==>
              (CancelFeasible(k, changeIndex, req) <==> f.changes != [] && Feasible(k, Cancels, changeIndex, req, {}))
  {
    hide Funded, Within, DraftFor, Distinct;
    forall p, f, q, g | Funded(req, p, f) && Funded(req, q, g)
      ensures f == g
    {
      FundingUnique.FundingIsUnique(req, p, f, q, g);
    }
  }

  /** Spend an offered coin back to this wallet, which invalidates the offer. */
  method PrepareCancel(k: Keys, utxo: Utxo, feeRate: nat, others: seq<Utxo>, changeIndex: nat)
    returns (r: Result<Prepared, BuildError>, ghost plan: Plan, ghost f: Funding)
    requires IdsDiffer(k.w)
    ensures var req := CancelRequest(k, utxo, feeRate, others);
            && (r.Ok? <==> InMoneyRange(utxo.value) && UtxosOk(others) && CancelFeasible(k, changeIndex, req))
            && (r.Ok? ==> Funded(req, plan, f) && f.changes != []
                          && r.value.tx == Tx(k, DraftFor(k, Cancels, changeIndex, f)))
            && (r == Err(NothingLeft) ==> Funded(req, plan, f) && f.changes == [])
            && (r.Err? && r.error.NotFunded? ==> Unfunded(req, {}, r.error.error))
    ensures r.Ok? ==>
              ReviewTheorems.Approved(k.w, r.value.tx, CancelOp(utxo.outpoint, feeRate),
                  PreparedPlan(r.value.review, Unset, []))
  {
    plan, f := NO_PLAN, NO_FUNDING;
    var error := ParseUtxos([utxo]);
    OneUtxo(utxo);
    if error.Some? { return Err(error.value), plan, f; }
    error := ParseUtxos(others);
    if error.Some? { return Err(error.value), plan, f; }
    var req := CancelRequest(k, utxo, feeRate, others);
    assert req.forced == [utxo] && req.candidates == others && req.feeRate == feeRate && req.policy == k.w.policy;
    hide *;
    var funded;
    funded, plan := Fund(req, {});
    if feeRate <= MAX_FEE_RATE { CancelLimits(k, utxo, feeRate, others); }
    CancelFeasibleIs(k, changeIndex, req);
    if funded.Err? {
      NotFeasible(k, Cancels, changeIndex, req, {}, funded.error);
      return Err(NotFunded(funded.error)), plan, f;
    }
    var funding := funded.value;
    f := funding;
    FeasibleIff(k, Cancels, changeIndex, req, {}, plan, f);
    if funding.changes == [] { return Err(NothingLeft), plan, f; }
    var draft := DraftFor(k, Cancels, changeIndex, funding);
    CancelDraft(k, changeIndex, f);
    CancelShaped(k, req, draft, utxo);
    FundedForIs(k, req, plan, f, draft);
    CancelSound(k, req, plan, f, draft, utxo);
    CancelRequested(draft, utxo.outpoint, feeRate);
    r := Complete(k, draft, Cancel, CancelOp(utxo.outpoint, feeRate), Unset, [], utxo.outpoint, req, plan, f);
  }

  lemma CancelDraft(k: Keys, changeIndex: nat, f: Funding)
    ensures var d := DraftFor(k, Cancels, changeIndex, f);
            d.offers == [] && d.issue.None? && d.payee.None? && d.own == [] && Spends(d, f)
  {}

  lemma OneUtxo(utxo: Utxo)
    ensures UtxosOk([utxo]) <==> InMoneyRange(utxo.value)
  {
    assert [utxo][0] == utxo;
  }

  // ---- Swap offers ---------------------------------------------------------------------------------------------

  /** Offer one whole coin for `want`. */
  method PrepareSwapOffer(k: Keys, utxo: Utxo, want: Coin, receiveIndex: nat, ghost feeRate: nat)
      returns (r: Result<Prepared, BuildError>)
    ensures r.Ok? <==>
              InMoneyRange(want.amount) && InMoneyRange(utxo.value) && !utxo.confidential && utxo.asset != want.asset
    ensures r.Ok? ==>
              ReviewTheorems.Approved(k.w, r.value.tx,
                  SwapOfferOp(utxo.asset, utxo.value, want.asset, want.amount, feeRate),
                                      PreparedPlan(r.value.review, Direct(utxo.outpoint), []))
    ensures r.Ok? ==> r.value.tx == OfferTx(k, utxo, want, receiveIndex)
  {
    var error := ValidateAmount(want.amount);
    if error.Some? { return Err(error.value); }
    error := ParseUtxos([utxo]);
    OneUtxo(utxo);
    if error.Some? { return Err(error.value); }
    if utxo.confidential { return Err(ConfidentialCoins); }
    if utxo.asset == want.asset { return Err(InvalidRequest); }
    var tx := OfferTx(k, utxo, want, receiveIndex);
    OfferAccepted(k, utxo, want, receiveIndex);
    OfferDelta(k, utxo, want, receiveIndex);
    hide *;
    var review := Review.Analyze(k.w, tx, SwapOffer);
    OfferMatches(k, utxo, want, receiveIndex, review.value, feeRate);
    r := Ok(Prepared(tx, review.value));
  }

  function OfferTx(k: Keys, utxo: Utxo, want: Coin, receiveIndex: nat): Transaction {
    Transaction(true, Some(k.w.genesis), true, [WalletInput(k, utxo, SingleAnyoneCanPay, None)],
                [WalletOutput(k, want, false, receiveIndex, false)], true)
  }

  lemma OneInput(w: Wallet, input: Input)
    ensures CoinsIn(w, [input]) == [InCoin(input)] + IssuedCoins(w, input)
    ensures WalletCoinsIn([input]) == if IsWalletInput(input) then [InCoin(input)] else []
    ensures forall wallet :: Outpoints([input], wallet) == if IsWalletInput(input) == wallet then [input.outpoint]
        else []
  {
    assert [input][..0] == [];
    hide InCoin, IssuedCoins, IsWalletInput;
  }

  lemma OneOutput(output: Output)
    ensures CoinsOut([output]) == [OutCoin(output)]
    ensures WalletCoinsOut([output]) == if output.script != Empty && IsWalletOutput(output) then [OutCoin(output)]
        else []
    ensures ExternalOutputs([output]) == if output.script != Empty
        && !IsWalletOutput(output) then [ExternalOf(output)] else []
    ensures FeeOutputs([output]) == if output.script == Empty then 1 else 0
  {
    assert [output][..0] == [];
    hide OutCoin, ExternalOf, IsWalletOutput;
  }

  lemma OneBounded(coin: Coin)
    requires coin.amount <= MAX_MONEY
    ensures Bounded([coin])
  {
    forall a
      ensures Total([coin], a) <= MAX_U64
    {
      OneCoin(coin, a);
    }
  }

  lemma OfferAccepted(k: Keys, utxo: Utxo, want: Coin, receiveIndex: nat)
    requires InMoneyRange(want.amount) && InMoneyRange(utxo.value) && !utxo.confidential && utxo.asset != want.asset
    ensures Accepts(k.w, OfferTx(k, utxo, want, receiveIndex), SwapOffer)
  {
    var tx := OfferTx(k, utxo, want, receiveIndex);
    var input, output := tx.inputs[0], tx.outputs[0];
    OneInput(k.w, input);
    OneOutput(output);
    OneBounded(InCoin(input));
    OneBounded(OutCoin(output));
    assert InputOk(SwapOffer, false, input, true) && OutputOk(k.w, output, true, 1);
    assert IssuedCoins(k.w, input) == [] && [InCoin(input)] + [] == [InCoin(input)];
    assert !InputConfidential(input) && !output.blinding.Blinded?;
    assert IsWalletInput(input) && IsWalletOutput(output) && input.issuance.NoIssuance? && input.asset != output.asset;
    assert IssuanceOfTx(k.w, tx.inputs).None?;
    hide InputOk, OutputOk, IssuedCoins, InCoin, OutCoin, InputConfidential, IsWalletInput, IsWalletOutput, Bounded,
        WalletInput, WalletOutput;
    hide CoinsIn, CoinsOut, Outpoints, ExternalOutputs, FeeOutputs, IssuanceOfTx;
  }

  lemma OfferDelta(k: Keys, utxo: Utxo, want: Coin, receiveIndex: nat)
    requires utxo.asset != want.asset
    ensures forall a :: Delta(k.w, OfferTx(k, utxo, want, receiveIndex), a)
                     == if a == want.asset then want.amount else if a == utxo.asset then -(utxo.value as int) else 0
  {
    var tx := OfferTx(k, utxo, want, receiveIndex);
    OneInput(k.w, tx.inputs[0]);
    OneOutput(tx.outputs[0]);
    assert FeeOf(tx.outputs) == 0;
    assert WalletCoinsIn(tx.inputs) == [Coin(utxo.asset, utxo.value)] && WalletCoinsOut(tx.outputs) == [want];
    forall a
      ensures Delta(k.w, tx, a) == if a == want.asset then want.amount
          else if a == utxo.asset then -(utxo.value as int) else 0
    {
      OneCoin(Coin(utxo.asset, utxo.value), a);
      OneCoin(want, a);
      hide OfferTx, WalletCoinsIn, WalletCoinsOut, Total, FeeOf;
    }
    hide OfferTx, WalletCoinsIn, WalletCoinsOut, Total, FeeOf, Delta;
  }

  lemma OfferMatches(k: Keys, utxo: Utxo, want: Coin, receiveIndex: nat, review: TxReview, feeRate: nat)
    requires var tx := OfferTx(k, utxo, want, receiveIndex);
             Accepts(k.w, tx, SwapOffer) && Describes(k.w, tx, SwapOffer, review)
    requires forall a :: Delta(k.w, OfferTx(k, utxo, want, receiveIndex), a)
                      == if a == want.asset then want.amount else if a == utxo.asset then -(utxo.value as int) else 0
    ensures ReviewTheorems.Approved(k.w, OfferTx(k, utxo, want, receiveIndex),
                                    SwapOfferOp(utxo.asset, utxo.value, want.asset, want.amount, feeRate),
                                    PreparedPlan(review, Direct(utxo.outpoint), []))
  {
    var tx := OfferTx(k, utxo, want, receiveIndex);
    var op := SwapOfferOp(utxo.asset, utxo.value, want.asset, want.amount, feeRate);
    OneInput(k.w, tx.inputs[0]);
    OneOutput(tx.outputs[0]);
    assert IsWalletInput(tx.inputs[0]) && IsWalletOutput(tx.outputs[0]) && FeeOf(tx.outputs) == 0;
    assert IssuanceOfTx(k.w, tx.inputs).None?;
    assert StructureOk(op, PreparedPlan(review, Direct(utxo.outpoint), [])) && review.genesis == k.w.genesis by {
      hide Accepts, ListsDeltas, Delta;
    }
    forall a
      ensures GetInt(review.changes, a) == Effect(op, PreparedPlan(review, Direct(utxo.outpoint), []), a)
    {
      ReviewTheorems.ChangesAre(k.w, tx, review.changes, a);
      hide Accepts, StructureOk, Delta, OfferTx;
    }
    hide Accepts, StructureOk, ListsDeltas, Delta, OfferTx, Effect, GetInt, Outpoints, ExternalOutputs, FeeOf,
        TxConfidential, IssuanceOfTx;
  }

  // ---- Taking offers ----------------------------------------------------------------------------------------------

  method VerifyOffers(offers: seq<Offer>) returns (ok: bool, makers: set<OutPoint>)
    ensures ok <==> OffersPlain(offers)
    ensures ok ==> makers == set i | 0 <= i < |offers| :: offers[i].outpoint
  {
    makers := {};
    hide OfferPlain;
    for i := 0 to |offers|
      invariant makers == set j | 0 <= j < i :: offers[j].outpoint
      invariant forall j :: 0 <= j < i ==> OfferPlain(offers[j])
      invariant forall j, l :: 0 <= j < l < i ==> offers[j].outpoint != offers[l].outpoint
    {
      if !OfferPlain(offers[i]) || offers[i].outpoint in makers { return false, makers; }
      makers := makers + {offers[i].outpoint};
    }
    ok := true;
  }

  predicate OffersPlain(offers: seq<Offer>) {
    && (forall i :: 0 <= i < |offers| ==> OfferPlain(offers[i]))
    && forall i, j :: 0 <= i < j < |offers| ==> offers[i].outpoint != offers[j].outpoint
  }

  /** What the makers want and give, per asset. */
  ghost predicate Summed(needs: map<Asset, nat>, receives: map<Asset, nat>, offers: seq<Offer>) {
    && (forall a :: Get(needs, a) == Total(WantCoins(offers), a))
    && (forall a :: Get(receives, a) == Total(GiveCoins(offers), a))
    && (forall a :: a in receives ==> receives[a] > 0)
  }

  lemma SummedSnoc(needs: map<Asset, nat>, receives: map<Asset, nat>, offers: seq<Offer>, o: Offer)
    requires Summed(needs, receives, offers) && o.giveAmount > 0
    ensures Summed(needs[o.wantAsset := Get(needs, o.wantAsset) + o.wantAmount],
                   receives[o.giveAsset := Get(receives, o.giveAsset) + o.giveAmount], offers + [o])
  {
    assert (offers + [o])[..|offers|] == offers;
    forall a
      ensures Total(WantCoins(offers + [o]), a)
          == Total(WantCoins(offers), a) + AmountOf(Coin(o.wantAsset, o.wantAmount), a)
      ensures Total(GiveCoins(offers + [o]), a)
          == Total(GiveCoins(offers), a) + AmountOf(Coin(o.giveAsset, o.giveAmount), a)
    {
      TotalSnoc(WantCoins(offers), Coin(o.wantAsset, o.wantAmount), a);
      TotalSnoc(GiveCoins(offers), Coin(o.giveAsset, o.giveAmount), a);
    }
    hide WantCoins, GiveCoins, Total;
  }

  /** What the makers want together, and what they give. */
  function NeedsOf(offers: seq<Offer>): map<Asset, nat> {
    if offers == [] then map[]
    else
      var needs, o := NeedsOf(offers[..|offers| - 1]), offers[|offers| - 1];
      needs[o.wantAsset := Get(needs, o.wantAsset) + o.wantAmount]
  }

  function ReceivesOf(offers: seq<Offer>): map<Asset, nat> {
    if offers == [] then map[]
    else
      var receives, o := ReceivesOf(offers[..|offers| - 1]), offers[|offers| - 1];
      receives[o.giveAsset := Get(receives, o.giveAsset) + o.giveAmount]
  }

  lemma SumsSnoc(offers: seq<Offer>, o: Offer)
    ensures NeedsOf(offers + [o])
         == NeedsOf(offers)[o.wantAsset := Get(NeedsOf(offers), o.wantAsset) + o.wantAmount]
    ensures ReceivesOf(offers + [o])
         == ReceivesOf(offers)[o.giveAsset := Get(ReceivesOf(offers), o.giveAsset) + o.giveAmount]
  {
    assert (offers + [o])[..|offers|] == offers;
  }

  /** No asset is wanted or given beyond the money range. */
  ghost predicate SumsInRange(offers: seq<Offer>) {
    forall a :: Total(WantCoins(offers), a) <= MAX_MONEY && Total(GiveCoins(offers), a) <= MAX_MONEY
  }

  lemma {:induction false} SumsGrow(offers: seq<Offer>, i: nat, a: Asset)
    requires i <= |offers|
    ensures Total(WantCoins(offers[..i]), a) <= Total(WantCoins(offers), a)
    ensures Total(GiveCoins(offers[..i]), a) <= Total(GiveCoins(offers), a)
  {
    if i == |offers| {
      assert offers[..i] == offers;
    } else {
      var front, last := offers[..|offers| - 1], offers[|offers| - 1];
      SumsGrow(front, i, a);
      assert front[..i] == offers[..i];
      TotalSnoc(WantCoins(front), Coin(last.wantAsset, last.wantAmount), a);
      TotalSnoc(GiveCoins(front), Coin(last.giveAsset, last.giveAmount), a);
      hide Total;
    }
  }

  lemma SumTooLarge(needs: map<Asset, nat>, receives: map<Asset, nat>, offers: seq<Offer>, i: nat)
    requires i <= |offers| && Summed(needs, receives, offers[..i])
    requires exists a :: Get(needs, a) > MAX_MONEY || Get(receives, a) > MAX_MONEY
    ensures !SumsInRange(offers)
  {
    var a :| Get(needs, a) > MAX_MONEY || Get(receives, a) > MAX_MONEY;
    SumsGrow(offers, i, a);
    hide WantCoins, GiveCoins, Total, Get;
  }

  lemma SumsFit(needs: map<Asset, nat>, receives: map<Asset, nat>, offers: seq<Offer>)
    requires Summed(needs, receives, offers)
    ensures SumsInRange(offers) <==>
            (forall a :: a in needs ==> needs[a] <= MAX_MONEY)
                && (forall a :: a in receives ==> receives[a] <= MAX_MONEY)
  {
    hide WantCoins, GiveCoins, Total;
    if SumsInRange(offers) {
      forall a
        ensures Get(needs, a) <= MAX_MONEY && Get(receives, a) <= MAX_MONEY
      {
        assert Total(WantCoins(offers), a) <= MAX_MONEY;
      }
      assert forall a :: a in needs ==> needs[a] == Get(needs, a);
      assert forall a :: a in receives ==> receives[a] == Get(receives, a);
    }
  }

  /** The maps are the sums: what is entered under an asset is what the coins hold of it. */
  lemma {:induction false} SumsAre(offers: seq<Offer>, i: nat)
    requires OffersPlain(offers) && i <= |offers|
    ensures Summed(NeedsOf(offers[..i]), ReceivesOf(offers[..i]), offers[..i])
  {
    if i == 0 {
      assert offers[..0] == [] && NeedsOf([]) == map[] && ReceivesOf([]) == map[];
      hide OffersPlain, NeedsOf, ReceivesOf;
    } else {
      hide *;
      SumsAre(offers, i - 1);
      PlainAt(offers, i - 1);
      assert offers[..i] == offers[..i - 1] + [offers[i - 1]];
      SumsSnoc(offers[..i - 1], offers[i - 1]);
      SummedSnoc(NeedsOf(offers[..i - 1]), ReceivesOf(offers[..i - 1]), offers[..i - 1], offers[i - 1]);
    }
  }

  method SumOffers(offers: seq<Offer>) returns (ok: bool, needs: map<Asset, nat>, receives: map<Asset, nat>)
    requires OffersPlain(offers)
    ensures ok <==> SumsInRange(offers)
    ensures ok ==> needs == NeedsOf(offers) && receives == ReceivesOf(offers) && Summed(needs, receives, offers)
    ensures ok ==> forall a :: (a in receives ==> receives[a] <= MAX_MONEY) && (a in needs ==> needs[a] <= MAX_MONEY)
  {
    needs, receives := map[], map[];
    assert NeedsOf([]) == map[] && ReceivesOf([]) == map[] && offers[..0] == [] && offers[..|offers|] == offers;
    hide *;
    for i := 0 to |offers|
      invariant needs == NeedsOf(offers[..i]) && receives == ReceivesOf(offers[..i])
    {
      var o := offers[i];
      assert offers[..i + 1] == offers[..i] + [o];
      SumsSnoc(offers[..i], o);
      var need, receive := Get(needs, o.wantAsset) + o.wantAmount, Get(receives, o.giveAsset) + o.giveAmount;
      needs, receives := needs[o.wantAsset := need], receives[o.giveAsset := receive];
      if need > MAX_U64 || receive > MAX_U64 {
        SumsAre(offers, i + 1);
        Entered(needs, receives, if need > MAX_U64 then o.wantAsset else o.giveAsset);
        SumTooLarge(needs, receives, offers, i + 1);
        return false, needs, receives;
      }
    }
    SumsAre(offers, |offers|);
    SumsFit(needs, receives, offers);
    ok := (forall a :: a in receives ==> receives[a] <= MAX_MONEY)
        && (forall a :: a in needs ==> needs[a] <= MAX_MONEY);
  }

  lemma Entered(needs: map<Asset, nat>, receives: map<Asset, nat>, a: Asset)
    requires (a in needs && needs[a] > MAX_MONEY) || (a in receives && receives[a] > MAX_MONEY)
    ensures exists b :: Get(needs, b) > MAX_MONEY || Get(receives, b) > MAX_MONEY
  {
    assert Get(needs, a) > MAX_MONEY || Get(receives, a) > MAX_MONEY;
  }

  lemma PlainAt(offers: seq<Offer>, i: nat)
    requires OffersPlain(offers) && i < |offers|
    ensures offers[i].giveAmount > 0
  {
    assert OfferPlain(offers[i]);
  }

  /** The wallet's receiving outputs, one per asset in ascending order. */
  method ReceiveCoins(receives: map<Asset, nat>) returns (coins: seq<Coin>)
    requires forall a :: a in receives ==> receives[a] > 0
    ensures forall a :: Total(coins, a) == Get(receives, a)
    ensures |coins| == |receives| && Ascending(coins, receives.Keys)
  {
    coins := [];
    var todo := receives.Keys;
    assert |receives.Keys| == |receives|;
    while todo != {}
      invariant todo <= receives.Keys && |coins| + |todo| == |receives|
      invariant forall a :: Total(coins, a) == if a in todo then 0 else Get(receives, a)
      invariant forall i :: 0 <= i < |coins| ==>
                  coins[i].amount > 0 && coins[i].asset !in todo && coins[i].asset in receives
      invariant forall i, a :: 0 <= i < |coins| && a in todo ==> coins[i].asset < a
      invariant forall i, j :: 0 <= i < j < |coins| ==> coins[i].asset < coins[j].asset
    {
      LeastExists(todo);
      var a :| Least(a, todo);
      Review.TotalsSnoc(coins, Coin(a, receives[a]));
      coins := coins + [Coin(a, receives[a])];
      todo := todo - {a};
    }
  }

  /** The coins a take may spend: explicit and not offered by a maker. */
  function TakerPool(utxos: seq<Utxo>, makers: set<OutPoint>): seq<Utxo> {
    if utxos == [] then []
    else
      var u := utxos[|utxos| - 1];
      TakerPool(utxos[..|utxos| - 1], makers) + (if u.outpoint !in makers && !u.confidential then [u] else [])
  }

  method TakerCoins(utxos: seq<Utxo>, makers: set<OutPoint>) returns (candidates: seq<Utxo>, hidden: nat)
    ensures candidates == TakerPool(utxos, makers)
    ensures forall u :: u in candidates <==> u in utxos && u.outpoint !in makers && !u.confidential
    ensures |candidates| <= |utxos|
    ensures hidden > 0 <==> exists u :: u in utxos && u.outpoint !in makers && u.confidential
  {
    candidates, hidden := [], 0;
    for i := 0 to |utxos|
      invariant forall u :: u in candidates <==> u in utxos[..i] && u.outpoint !in makers && !u.confidential
      invariant |candidates| <= i && candidates == TakerPool(utxos[..i], makers)
      invariant hidden > 0 <==> exists u :: u in utxos[..i] && u.outpoint !in makers && u.confidential
    {
      var u := utxos[i];
      assert utxos[..i + 1] == utxos[..i] + [u] && utxos[..i + 1][..i] == utxos[..i];
      if u.outpoint !in makers {
        if u.confidential { hidden := hidden + 1; } else { candidates := candidates + [u]; }
      }
    }
    assert utxos[..|utxos|] == utxos;
  }

  function TakeRequest(k: Keys, offers: seq<Offer>, needs: map<Asset, nat>, receives: nat, feeRate: nat,
      candidates: seq<Utxo>): Request {
    Request([], candidates, needs,
            Shape(|offers|, false, seq(|offers|, i requires 0 <= i < |offers| => ScriptLength(offers[i].script))
                + seq(receives, _ => P2WPKH_SCRIPT_LEN), 0),
            feeRate, k.w.policy)
  }

  lemma {:induction false} GiveCounts(offers: seq<Offer>, i: nat)
    requires i < |offers|
    ensures offers[i].giveAmount <= Total(GiveCoins(offers), offers[i].giveAsset)
  {
    var front, last := offers[..|offers| - 1], offers[|offers| - 1];
    TotalSnoc(GiveCoins(front), Coin(last.giveAsset, last.giveAmount), offers[i].giveAsset);
    if i < |offers| - 1 { GiveCounts(front, i); }
  }

  lemma TakeOffersSound(d: Draft, makers: set<OutPoint>, receives: map<Asset, nat>)
    requires OffersPlain(d.offers) && makers == (set i | 0 <= i < |d.offers| :: d.offers[i].outpoint)
        && Avoids(d.utxos, makers)
    requires forall a :: Get(receives, a) == Total(GiveCoins(d.offers), a)
    requires forall a :: a in receives ==> receives[a] <= MAX_MONEY
    ensures OffersSound(d)
  {
    forall i | 0 <= i < |d.offers|
      ensures OfferVerified(d.offers[i])
    {
      GiveCounts(d.offers, i);
      assert Get(receives, d.offers[i].giveAsset) <= MAX_MONEY;
    }
    forall i, j | 0 <= i < |d.offers| && 0 <= j < |d.utxos|
      ensures d.offers[i].outpoint != d.utxos[j].outpoint
    {
      assert d.offers[i].outpoint in makers;
    }
    hide OfferPlain, GiveCoins, Get;
  }

  lemma TakeSound(k: Keys, req: Request, plan: Plan, f: Funding, d: Draft, needs: map<Asset, nat>,
      receives: map<Asset, nat>)
    requires FundedFor(k, req, plan, f, d) && OffersSound(d) && Summed(needs, receives, d.offers)
    requires req == TakeRequest(k, d.offers, needs, |d.own|, req.feeRate, req.candidates)
    requires d.offers != [] && d.issue.None? && d.payee.None?
    requires (forall a :: Total(d.own, a) == Get(receives, a)) && forall i :: 0 <= i < |d.own| ==> d.own[i].amount > 0
    requires forall u :: u in req.candidates ==> !u.confidential
    ensures Sound(k, d, SwapTake) && FromList(d, req.candidates)
  {
    FundedCoins(k, req, plan, f, d);
    assert req.forced + req.candidates == req.candidates;
    assert IssueCoins(k, d) == [];
    forall a
      ensures BalancedAt(k, d, a)
    {
      NoCoins(a);
      FundedBalance(k, req, plan, f, d, a);
      hide WantCoins, GiveCoins, FundedFor, IssueCoins, OffersSound;
    }
    hide FundedFor, BalancedAt, CoinsSound, IssueCoins, WantCoins, GiveCoins, OffersSound, Summed;
  }

  lemma TakeShaped(k: Keys, req: Request, d: Draft)
    requires OffersPlain(d.offers) && req == TakeRequest(k, d.offers, req.needs, |d.own|, req.feeRate, req.candidates)
    requires d.payee.None? && forall u :: u in req.candidates ==> !u.confidential
    ensures Shaped(d, req)
  {
    forall i | 0 <= i < |d.offers|
      ensures ScriptLength(d.offers[i].script) <= 42
    {
      assert OfferPlain(d.offers[i]);
    }
    assert req.forced + req.candidates == req.candidates;
  }

  lemma TakeRequested(d: Draft, feeRate: nat)
    ensures forall review, spent ::
              Requested(d, SwapTake, SwapTakeOp(|d.offers|, feeRate), PreparedPlan(review, Unset, Decode(d.offers)),
                  spent)
  {}

  function MakersOf(offers: seq<Offer>): set<OutPoint> {
    set i | 0 <= i < |offers| :: offers[i].outpoint
  }

  /** One receiving output per asset given, in ascending order of the assets. */
  ghost predicate Receiving(own: seq<Coin>, offers: seq<Offer>) {
    var receives := ReceivesOf(offers);
    Ascending(own, receives.Keys) && forall a :: Total(own, a) == Get(receives, a)
  }

  function TakeAsk(k: Keys, offers: seq<Offer>, own: seq<Coin>, feeRate: nat, utxos: seq<Utxo>): Request {
    TakeRequest(k, offers, NeedsOf(offers), |own|, feeRate, TakerPool(utxos, MakersOf(offers)))
  }

  /** The take can be funded from explicit coins, by a draft within the review's limits. */
  ghost predicate TakeFeasible(k: Keys, offers: seq<Offer>, feeRate: nat, utxos: seq<Utxo>, changeIndex: nat,
      receiveIndex: nat)
  {
    exists own :: Receiving(own, offers) && Feasible(k, Takes(offers, own, receiveIndex), changeIndex,
        TakeAsk(k, offers, own, feeRate, utxos), MakersOf(offers))
  }

  lemma TakeFeasibleIff(k: Keys, offers: seq<Offer>, feeRate: nat, utxos: seq<Utxo>, changeIndex: nat,
      receiveIndex: nat, own: seq<Coin>)
    requires Receiving(own, offers)
    ensures TakeFeasible(k, offers, feeRate, utxos, changeIndex, receiveIndex) <==>
              Feasible(k, Takes(offers, own, receiveIndex), changeIndex, TakeAsk(k, offers, own, feeRate, utxos),
                  MakersOf(offers))
  {
    hide Feasible, TakeAsk, MakersOf;
    forall other | Receiving(other, offers)
      ensures other == own
    {
      FundingUnique.TotalsDetermine(own, other, ReceivesOf(offers).Keys);
      hide Total, ReceivesOf, Ascending;
    }
    hide Receiving;
  }

  lemma TakeLimits(k: Keys, offers: seq<Offer>, own: seq<Coin>, feeRate: nat, utxos: seq<Utxo>)
    requires OffersPlain(offers) && 0 < |offers| <= 500 && UtxosOk(TakerPool(utxos, MakersOf(offers)))
    requires feeRate <= MAX_FEE_RATE && |own| == |ReceivesOf(offers)|
    requires forall a :: a in NeedsOf(offers) ==> NeedsOf(offers)[a] <= MAX_MONEY
    ensures FundingTheorems.WithinLimits(TakeAsk(k, offers, own, feeRate, utxos))
  {
    SumsSmall(offers);
    forall i | 0 <= i < |offers|
      ensures ScriptLength(offers[i].script) <= 42
    {
      assert OfferPlain(offers[i]);
    }
    hide NeedsOf, ReceivesOf, TakerPool, MakersOf, OffersPlain, OfferPlain;
    var pool := TakerPool(utxos, MakersOf(offers));
    assert [] + pool == pool;
  }

  lemma {:induction false} SumsSmall(offers: seq<Offer>)
    ensures |NeedsOf(offers)| <= |offers| && |ReceivesOf(offers)| <= |offers|
  {
    if offers != [] {
      var front, o := offers[..|offers| - 1], offers[|offers| - 1];
      SumsSmall(front);
      OneMore(NeedsOf(front), o.wantAsset, Get(NeedsOf(front), o.wantAsset) + o.wantAmount);
      OneMore(ReceivesOf(front), o.giveAsset, Get(ReceivesOf(front), o.giveAsset) + o.giveAmount);
    }
  }

  lemma OneMore(m: map<Asset, nat>, a: Asset, v: nat)
    ensures |m[a := v]| <= |m| + 1
  {
    assert m[a := v].Keys == m.Keys + {a};
    assert |m[a := v]| == |m[a := v].Keys| && |m| == |m.Keys|;
  }

  /** Fill one or more whole offers. */
  method TakeSwapOffers(k: Keys, offers: seq<Offer>, feeRate: nat, utxos: seq<Utxo>, changeIndex: nat,
      receiveIndex: nat)
    returns (r: Result<Prepared, BuildError>, ghost own: seq<Coin>, ghost plan: Plan, ghost f: Funding)
    requires IdsDiffer(k.w)
    ensures r.Ok? <==>
              && 0 < |offers| <= 500 && OffersPlain(offers) && SumsInRange(offers) && UtxosOk(utxos)
              && TakeFeasible(k, offers, feeRate, utxos, changeIndex, receiveIndex)
    ensures r.Ok? ==>
              && Receiving(own, offers) && Funded(TakeAsk(k, offers, own, feeRate, utxos), plan, f)
              && r.value.tx == Tx(k, DraftFor(k, Takes(offers, own, receiveIndex), changeIndex, f))
              && !AnyConfidential(f.inputs)
    ensures r.Ok? ==>
              ReviewTheorems.Approved(k.w, r.value.tx, SwapTakeOp(|offers|, feeRate),
                  PreparedPlan(r.value.review, Unset, Decode(offers)))
    ensures r.Err? && r.error.NotFunded? ==>
              Receiving(own, offers)
              && Unfunded(TakeAsk(k, offers, own, feeRate, utxos), MakersOf(offers), r.error.error)
    ensures r == Err(ConfidentialCoins) ==>
              exists u :: u in utxos && u.outpoint !in MakersOf(offers) && u.confidential
  {
    own, plan, f := [], NO_PLAN, NO_FUNDING;
    if offers == [] || |offers| > MAX_REQUEST_ITEMS { return Err(InvalidRequest), own, plan, f; }
    hide *;
    var ok, makers := VerifyOffers(offers);
    if !ok { return Err(InvalidRequest), own, plan, f; }
    MakersAre(offers, makers);
    var summed, needs, receives := SumOffers(offers);
    if !summed { return Err(AmountTooLarge), own, plan, f; }
    var error := ParseUtxos(utxos);
    if error.Some? { return Err(error.value), own, plan, f; }
    var candidates, hidden := TakerCoins(utxos, makers);
    SummedParts(needs, receives, offers);
    var coins := ReceiveCoins(receives);
    own := coins;
    ReceivingIs(own, offers);
    TakeFeasibleIff(k, offers, feeRate, utxos, changeIndex, receiveIndex, own);
    var job, req := Takes(offers, coins, receiveIndex), TakeRequest(k, offers, needs, |coins|, feeRate, candidates);
    TakeAskIs(k, offers, own, feeRate, utxos);
    TakeRequestIs(k, offers, needs, |coins|, feeRate, candidates);
    CandidatesOk(utxos, candidates);
    var funded;
    funded, plan := Fund(req, makers);
    if feeRate <= MAX_FEE_RATE { TakeLimits(k, offers, own, feeRate, utxos); }
    if funded.Err? {
      NotFeasible(k, job, changeIndex, req, makers, funded.error);
      return Err(if funded.error.InsufficientFunds? && hidden > 0 then ConfidentialCoins
          else NotFunded(funded.error)), own, plan, f;
    }
    var funding := funded.value;
    f := funding;
    FeasibleIff(k, job, changeIndex, req, makers, plan, f);
    var draft := DraftFor(k, job, changeIndex, funding);
    TakeDraft(k, offers, coins, receiveIndex, changeIndex, f);
    TakeBuilt(k, req, plan, f, draft, needs, receives, utxos, makers);
    TakeRequested(draft, feeRate);
    r := Complete(k, draft, SwapTake, SwapTakeOp(|offers|, feeRate), Unset, Decode(offers), OutPoint(0, 0), req, plan,
        f);
  }

  /** The draft of a funded take is sound, and spends explicit coins. */
  lemma TakeBuilt(k: Keys, req: Request, plan: Plan, f: Funding, d: Draft, needs: map<Asset, nat>,
      receives: map<Asset, nat>, utxos: seq<Utxo>, makers: set<OutPoint>)
    requires Funded(req, plan, f) && 1 <= req.feeRate && Distinct(req.forced + req.candidates)
    requires Avoids(req.forced + req.candidates, makers)
    requires makers == set i | 0 <= i < |d.offers| :: d.offers[i].outpoint
    requires OffersPlain(d.offers) && d.offers != [] && Summed(needs, receives, d.offers)
    requires req == TakeRequest(k, d.offers, needs, |d.own|, req.feeRate, req.candidates)
    requires UtxosOk(req.candidates) && forall u :: u in req.candidates ==> u in utxos && !u.confidential
    requires forall a :: a in receives ==> receives[a] <= MAX_MONEY
    requires Ascending(d.own, receives.Keys) && forall a :: Total(d.own, a) == Get(receives, a)
    requires Spends(d, f) && d.issue.None? && d.payee.None?
    ensures FundedFor(k, req, plan, f, d) && Sound(k, d, SwapTake) && !AnyConfidential(d.utxos)
  {
    SpendsIs(d, f);
    hide *;
    TakeRequestIs(k, d.offers, needs, |d.own|, req.feeRate, req.candidates);
    SummedParts(needs, receives, d.offers);
    TakeShaped(k, req, d);
    FundedForIs(k, req, plan, f, d);
    FundingTheorems.InputsAreSound(req, plan, f, makers);
    TakeOffersSound(d, makers, receives);
    AscendingPositive(d.own, receives);
    TakeSound(k, req, plan, f, d, needs, receives);
    TakeExplicit(k, d, req.candidates, utxos);
  }

  lemma SpendsIs(d: Draft, f: Funding)
    requires Spends(d, f)
    ensures d.utxos == f.inputs
  {}

  lemma MakersAre(offers: seq<Offer>, makers: set<OutPoint>)
    requires makers == set i | 0 <= i < |offers| :: offers[i].outpoint
    ensures makers == MakersOf(offers)
  {}

  lemma ReceivingIs(own: seq<Coin>, offers: seq<Offer>)
    requires Ascending(own, ReceivesOf(offers).Keys) && forall a :: Total(own, a) == Get(ReceivesOf(offers), a)
    ensures Receiving(own, offers)
  {}

  lemma TakeAskIs(k: Keys, offers: seq<Offer>, own: seq<Coin>, feeRate: nat, utxos: seq<Utxo>)
    ensures TakeAsk(k, offers, own, feeRate, utxos)
         == TakeRequest(k, offers, NeedsOf(offers), |own|, feeRate, TakerPool(utxos, MakersOf(offers)))
  {}

  lemma AscendingPositive(own: seq<Coin>, receives: map<Asset, nat>)
    requires Ascending(own, receives.Keys)
    ensures forall i :: 0 <= i < |own| ==> own[i].amount > 0
  {}

  lemma TakeDraft(k: Keys, offers: seq<Offer>, own: seq<Coin>, receiveIndex: nat, changeIndex: nat, f: Funding)
    ensures var d := DraftFor(k, Takes(offers, own, receiveIndex), changeIndex, f);
            d.offers == offers && d.issue.None? && d.payee.None? && d.own == own && Spends(d, f)
  {}

  lemma SummedParts(needs: map<Asset, nat>, receives: map<Asset, nat>, offers: seq<Offer>)
    requires Summed(needs, receives, offers)
    ensures forall a :: Get(receives, a) == Total(GiveCoins(offers), a)
    ensures forall a :: a in receives ==> receives[a] > 0
  {}

  lemma TakeRequestIs(k: Keys, offers: seq<Offer>, needs: map<Asset, nat>, receives: nat, feeRate: nat,
      candidates: seq<Utxo>)
    ensures var req := TakeRequest(k, offers, needs, receives, feeRate, candidates);
            && req.forced == [] && req.candidates == candidates && req.needs == needs && req.feeRate == feeRate
            && req.policy == k.w.policy && req.forced + req.candidates == candidates
  {}

  lemma CandidatesOk(utxos: seq<Utxo>, candidates: seq<Utxo>)
    requires UtxosOk(utxos) && |candidates| <= |utxos| && forall u :: u in candidates ==> u in utxos
    ensures UtxosOk(candidates)
  {
    forall i | 0 <= i < |candidates|
      ensures InMoneyRange(candidates[i].value)
    {
      assert candidates[i] in utxos;
    }
  }

  lemma TakeExplicit(k: Keys, d: Draft, candidates: seq<Utxo>, utxos: seq<Utxo>)
    requires Sound(k, d, SwapTake) && FromList(d, candidates) && forall u :: u in candidates ==> u in utxos
    ensures FromList(d, utxos) && !AnyConfidential(d.utxos)
  {}
}
