/** The transactions the wallet builds from selected coins, and why the review accepts them. */
module Drafts {
  import opened Common
  import opened Coins
  import opened Funding
  import opened Pset
  import Review
  import ReviewTheorems
  import FundingTheorems
  import opened Operations

  /** The wallet, and its key for each of its coins (branch and index). */
  datatype Keys = Keys(w: Wallet, holder: OutPoint -> (bool, nat))

  /** A verified offer: the coin given, and the output its maker's signature demands. */
  datatype Offer = Offer(
    outpoint: OutPoint, giveAsset: Asset, giveAmount: nat, maker: Key, clean: bool,
    wantAsset: Asset, wantAmount: nat, script: Script)

  datatype Issue = Issue(amount: nat, tokens: nat, contract: nat)

  datatype Payee = Payee(key: Key, blinder: Option<nat>, coin: Coin)

  /** What a funded transaction is made of: makers' halves, selected coins, a new issuance,
      one outside payment, explicit own outputs, change and fee. */
  datatype Draft = Draft(
    offers: seq<Offer>, utxos: seq<Utxo>, issue: Option<Issue>, payee: Option<Payee>,
    own: seq<Coin>, receiveIndex: nat, changes: seq<Coin>, changeIndex: nat, fee: nat)

  function ScriptLength(script: Script): nat {
    match script
    case Empty => 0
    case P2wpkh(_) => P2WPKH_SCRIPT_LEN
    case Other(_, length, _) => length
  }

  // ---- Inputs and outputs -------------------------------------------------------------------------

  function HolderKey(k: Keys, o: OutPoint): Key {
    WalletKey(k.holder(o).0, k.holder(o).1)
  }

  /** A coin of the wallet as a transaction input, with its proofs when it is confidential. */
  function WalletInput(k: Keys, u: Utxo, sighash: Sighash, issue: Option<Issue>): Input {
    var key := HolderKey(k, u.outpoint);
    Input(
      u.outpoint, true,
      Some(if u.confidential then Confidential(u.asset, u.value, P2wpkh(key))
          else Explicit(u.asset, u.value, P2wpkh(key))),
      true, Some(u.asset), Some(u.value), u.confidential, u.confidential,
      [Derivation(true, key, Some(key))], Some(sighash), None,
      if issue.None? then NoIssuance
      else FullIssuance(true, Some(issue.value.amount), if issue.value.tokens > 0 then Some(issue.value.tokens)
          else None,
                        Some(issue.value.contract)))
  }

  function MakerInput(o: Offer): Input {
    Input(
      o.outpoint, true, Some(Explicit(o.giveAsset, o.giveAmount, P2wpkh(o.maker))), o.clean,
      Some(o.giveAsset), Some(o.giveAmount), false, false, [], None,
      Some(FinalWitness(o.maker, SingleAnyoneCanPay, o.outpoint, o.giveAmount,
          TxOut(o.wantAsset, o.wantAmount, o.script))),
      NoIssuance)
  }

  function MakerOutput(o: Offer): Output {
    Output(true, Some(o.wantAsset), Some(o.wantAmount), o.script, [], NotBlinded)
  }

  /** What blinding makes of a coin, given the key an output names: sealed to that key, with its proofs. */
  function Sealed(key: nat, coin: Coin): Blinding {
    Blinded(true, key, Some(0), key, coin)
  }

  function PayeeOutput(p: Payee): Output {
    Output(true, Some(p.coin.asset), Some(p.coin.amount), P2wpkh(p.key), [],
           if p.blinder.None? then NotBlinded else Sealed(p.blinder.value, p.coin))
  }

  /** An output to one of the wallet's own keys; a blinded one is blinded to the wallet's key. */
  function WalletOutput(k: Keys, coin: Coin, change: bool, index: nat, blinded: bool): Output {
    var key := WalletKey(change, index);
    Output(true, Some(coin.asset), Some(coin.amount), P2wpkh(key), [Derivation(true, key, Some(key))],
           if blinded then Sealed(k.w.blinder(P2wpkh(key)), coin) else NotBlinded)
  }

  function FeeOutput(k: Keys, fee: nat): Output {
    Output(true, Some(k.w.policy), Some(fee), Empty, [], NotBlinded)
  }

  function CoinInputs(k: Keys, utxos: seq<Utxo>, issue: Option<Issue>): seq<Input> {
    seq(|utxos|, i requires 0 <= i < |utxos| => WalletInput(k, utxos[i], All, if i == 0 then issue else None))
  }

  function MakerInputs(offers: seq<Offer>): seq<Input> {
    seq(|offers|, i requires 0 <= i < |offers| => MakerInput(offers[i]))
  }

  function MakerOutputs(offers: seq<Offer>): seq<Output> {
    seq(|offers|, i requires 0 <= i < |offers| => MakerOutput(offers[i]))
  }

  function PayeeOutputs(payee: Option<Payee>): seq<Output> {
    if payee.None? then [] else [PayeeOutput(payee.value)]
  }

  function WalletOutputs(k: Keys, coins: seq<Coin>, change: bool, index: nat, blinded: bool): seq<Output> {
    seq(|coins|, i requires 0 <= i < |coins| => WalletOutput(k, coins[i], change, index, blinded))
  }

  function OwnOutputs(k: Keys, d: Draft): seq<Output> {
    WalletOutputs(k, d.own, false, d.receiveIndex, false)
    + WalletOutputs(k, d.changes, true, d.changeIndex, AnyConfidential(d.utxos))
  }

  function Inputs(k: Keys, d: Draft): seq<Input> {
    MakerInputs(d.offers) + CoinInputs(k, d.utxos, d.issue)
  }

  function Outputs(k: Keys, d: Draft): seq<Output> {
    MakerOutputs(d.offers) + PayeeOutputs(d.payee) + OwnOutputs(k, d) + [FeeOutput(k, d.fee)]
  }

  predicate HasBlinded(outputs: seq<Output>) {
    exists v :: 0 <= v < |outputs| && outputs[v].blinding.Blinded?
  }

  /** The built transaction. Confidential coins can only be balanced by a blinded output. */
  function Tx(k: Keys, d: Draft): Transaction {
    Transaction(true, Some(k.w.genesis), true, Inputs(k, d), Outputs(k, d),
                AnyConfidential(d.utxos) ==> HasBlinded(Outputs(k, d)))
  }

  // ---- Concatenation ---------------------------------------------------------------------------------

  lemma NoTotals(w: Wallet, a: Asset)
    ensures Total(CoinsIn(w, []), a) == 0 && Total(CoinsIssued(w, []), a) == 0 && Total(ForeignCoinsIn([]), a) == 0
    ensures Total(CoinsOut([]), a) == 0 && Total(ExternalCoins(ExternalOutputs([])), a) == 0
  {}

  lemma {:induction false} InputTotals(w: Wallet, left: seq<Input>, right: seq<Input>, a: Asset)
    ensures Total(CoinsIn(w, left + right), a) == Total(CoinsIn(w, left), a) + Total(CoinsIn(w, right), a)
    ensures Total(CoinsIssued(w, left + right), a) == Total(CoinsIssued(w, left), a) + Total(CoinsIssued(w, right), a)
    ensures Total(ForeignCoinsIn(left + right), a) == Total(ForeignCoinsIn(left), a) + Total(ForeignCoinsIn(right), a)
  {
    hide *;
    if right == [] {
      NoTotals(w, a);
      assert left + right == left;
    } else {
      var all, front, last := left + right, right[..|right| - 1], right[|right| - 1];
      InputTotals(w, left, front, a);
      assert all[..|all| - 1] == left + front && all[|all| - 1] == last;
      ReviewTheorems.CoinsInStep(w, right, a);
      ReviewTheorems.OwnedInStep(right, a);
      ReviewTheorems.CoinsInStep(w, all, a);
      ReviewTheorems.OwnedInStep(all, a);
    }
  }

  lemma {:induction false} OutputTotals(w: Wallet, left: seq<Output>, right: seq<Output>, a: Asset)
    ensures Total(CoinsOut(left + right), a) == Total(CoinsOut(left), a) + Total(CoinsOut(right), a)
    ensures Total(ExternalCoins(ExternalOutputs(left + right)), a)
         == Total(ExternalCoins(ExternalOutputs(left)), a) + Total(ExternalCoins(ExternalOutputs(right)), a)
  {
    hide *;
    if right == [] {
      NoTotals(w, a);
      assert left + right == left;
    } else {
      var all, front, last := left + right, right[..|right| - 1], right[|right| - 1];
      OutputTotals(w, left, front, a);
      assert all[..|all| - 1] == left + front && all[|all| - 1] == last;
      ReviewTheorems.CoinsOutStep(right, a);
      ReviewTheorems.ExternalStep(right, a);
      ReviewTheorems.CoinsOutStep(all, a);
      ReviewTheorems.ExternalStep(all, a);
    }
  }

  lemma Assoc<T>(a: seq<T>, b: seq<T>, c: seq<T>)
    ensures (a + b) + c == a + (b + c)
  {}

  lemma {:induction false} OutpointsAppend(left: seq<Input>, right: seq<Input>, wallet: bool)
    ensures Outpoints(left + right, wallet) == Outpoints(left, wallet) + Outpoints(right, wallet)
  {
    if right == [] {
      assert left + right == left;
    } else {
      var front, last := right[..|right| - 1], right[|right| - 1];
      OutpointsAppend(left, front, wallet);
      Review.Snoc(left + front, last);
      assert left + right == (left + front) + [last];
      Assoc(Outpoints(left, wallet), Outpoints(front, wallet), if IsWalletInput(last) == wallet then [last.outpoint]
          else []);
      hide IsWalletInput;
    }
  }

  lemma {:induction false} ExternalAppend(left: seq<Output>, right: seq<Output>)
    ensures ExternalOutputs(left + right) == ExternalOutputs(left) + ExternalOutputs(right)
    ensures FeeOutputs(left + right) == FeeOutputs(left) + FeeOutputs(right)
  {
    if right == [] {
      assert left + right == left;
    } else {
      var front, last := right[..|right| - 1], right[|right| - 1];
      ExternalAppend(left, front);
      Review.Snoc(left + front, last);
      assert left + right == (left + front) + [last];
      Assoc(ExternalOutputs(left), ExternalOutputs(front),
            if last.script != Empty && !IsWalletOutput(last) then [ExternalOf(last)] else []);
      hide IsWalletOutput, ExternalOf;
    }
  }

  // ---- The four parts of a draft -------------------------------------------------------------------------

  function GiveCoins(offers: seq<Offer>): seq<Coin> {
    if offers == [] then []
    else GiveCoins(offers[..|offers| - 1]) + [Coin(offers[|offers| - 1].giveAsset, offers[|offers| - 1].giveAmount)]
  }

  function WantCoins(offers: seq<Offer>): seq<Coin> {
    if offers == [] then []
    else WantCoins(offers[..|offers| - 1]) + [Coin(offers[|offers| - 1].wantAsset, offers[|offers| - 1].wantAmount)]
  }

  function OfferOutpoints(offers: seq<Offer>): seq<OutPoint> {
    seq(|offers|, i requires 0 <= i < |offers| => offers[i].outpoint)
  }

  function UtxoOutpoints(utxos: seq<Utxo>): seq<OutPoint> {
    seq(|utxos|, i requires 0 <= i < |utxos| => utxos[i].outpoint)
  }

  function MakerExternals(offers: seq<Offer>): seq<ExternalOutput> {
    seq(|offers|, i requires 0 <= i < |offers| =>
      ExternalOutput(Address(offers[i].script, None), offers[i].wantAsset, offers[i].wantAmount, false))
  }

  function PayeeExternals(payee: Option<Payee>): seq<ExternalOutput> {
    if payee.None? then []
    else [ExternalOutput(Address(P2wpkh(payee.value.key), payee.value.blinder), payee.value.coin.asset,
                         payee.value.coin.amount, payee.value.blinder.Some?)]
  }

  function PayeeCoins(payee: Option<Payee>): seq<Coin> {
    if payee.None? then [] else [payee.value.coin]
  }

  /** What the draft issues, at its first wallet coin. */
  function IssueCoins(k: Keys, d: Draft): seq<Coin> {
    if d.utxos == [] then [] else IssuedCoins(k.w, WalletInput(k, d.utxos[0], All, d.issue))
  }

  lemma {:induction false} MakerInputFacts(w: Wallet, offers: seq<Offer>)
    ensures var inputs := MakerInputs(offers);
            && CoinsIn(w, inputs) == GiveCoins(offers) && ForeignCoinsIn(inputs) == GiveCoins(offers)
            && CoinsIssued(w, inputs) == [] && Outpoints(inputs, true) == []
                && Outpoints(inputs, false) == OfferOutpoints(offers)
  {
    if offers != [] {
      var front := offers[..|offers| - 1];
      MakerInputFacts(w, front);
      assert MakerInputs(offers)[..|offers| - 1] == MakerInputs(front);
      assert OfferOutpoints(offers) == OfferOutpoints(front) + [offers[|offers| - 1].outpoint];
    }
  }

  lemma {:induction false} MakerOutputFacts(offers: seq<Offer>)
    requires forall i :: 0 <= i < |offers| ==> offers[i].script != Empty
    ensures var outputs := MakerOutputs(offers);
            CoinsOut(outputs) == WantCoins(offers) && ExternalOutputs(outputs) == MakerExternals(offers)
                && FeeOutputs(outputs) == 0
  {
    if offers != [] {
      var front := offers[..|offers| - 1];
      MakerOutputFacts(front);
      assert MakerOutputs(offers)[..|offers| - 1] == MakerOutputs(front);
      assert MakerExternals(offers) == MakerExternals(front) + [ExternalOf(MakerOutput(offers[|offers| - 1]))];
    }
  }

  lemma PayeeFacts(payee: Option<Payee>)
    ensures var outputs := PayeeOutputs(payee);
            && CoinsOut(outputs) == PayeeCoins(payee) && ExternalOutputs(outputs) == PayeeExternals(payee)
            && FeeOutputs(outputs) == 0
  {
    if payee.Some? { assert PayeeOutputs(payee)[..0] == []; }
  }

  lemma {:induction false} WalletOutputFacts(k: Keys, coins: seq<Coin>, change: bool, index: nat, blinded: bool)
    ensures var outputs := WalletOutputs(k, coins, change, index, blinded);
            CoinsOut(outputs) == coins && ExternalOutputs(outputs) == [] && FeeOutputs(outputs) == 0
  {
    if coins != [] {
      var front := coins[..|coins| - 1];
      WalletOutputFacts(k, front, change, index, blinded);
      assert WalletOutputs(k, coins, change, index, blinded)[..|coins| - 1]
          == WalletOutputs(k, front, change, index, blinded);
      assert coins == front + [coins[|coins| - 1]];
    }
  }

  lemma FeeFacts(k: Keys, fee: nat)
    ensures var outputs := [FeeOutput(k, fee)];
            CoinsOut(outputs) == [Coin(k.w.policy, fee)] && ExternalOutputs(outputs) == [] && FeeOutputs(outputs) == 1
  {
    assert [FeeOutput(k, fee)][..0] == [];
  }

  lemma {:induction false} WalletInputIssues(k: Keys, utxos: seq<Utxo>, issue: Option<Issue>)
    ensures CoinsIssued(k.w, CoinInputs(k, utxos, issue))
         == if utxos == [] then [] else IssuedCoins(k.w, WalletInput(k, utxos[0], All, issue))
  {
    if utxos != [] {
      var front, last := utxos[..|utxos| - 1], CoinInputs(k, utxos, issue)[|utxos| - 1];
      WalletInputIssues(k, front, issue);
      assert CoinInputs(k, utxos, issue)[..|utxos| - 1] == CoinInputs(k, front, issue);
      assert |utxos| > 1 ==> IssuedCoins(k.w, last) == [] && front[0] == utxos[0];
      hide IssuedCoins, WalletInput;
    }
  }

  lemma {:induction false} WalletInputFacts(k: Keys, utxos: seq<Utxo>, issue: Option<Issue>)
    ensures var inputs := CoinInputs(k, utxos, issue);
            ForeignCoinsIn(inputs) == [] && Outpoints(inputs, true) == UtxoOutpoints(utxos)
                && Outpoints(inputs, false) == []
  {
    if utxos != [] {
      var front, last := utxos[..|utxos| - 1], CoinInputs(k, utxos, issue)[|utxos| - 1];
      WalletInputFacts(k, front, issue);
      assert CoinInputs(k, utxos, issue)[..|utxos| - 1] == CoinInputs(k, front, issue);
      assert UtxoOutpoints(utxos) == UtxoOutpoints(front) + [last.outpoint];
      assert IsWalletInput(last);
      hide IsWalletInput, InCoin, WalletInput;
    }
  }

  lemma {:induction false} WalletInputTotal(k: Keys, utxos: seq<Utxo>, issue: Option<Issue>, a: Asset)
    ensures var inputs := CoinInputs(k, utxos, issue);
            Total(CoinsIn(k.w, inputs), a) == Sum(Of(utxos, a)) + Total(CoinsIssued(k.w, inputs), a)
  {
    if utxos == [] {
    } else {
      var front, last := utxos[..|utxos| - 1], utxos[|utxos| - 1];
      var inputs := CoinInputs(k, utxos, issue);
      WalletInputTotal(k, front, issue, a);
      assert inputs[..|utxos| - 1] == CoinInputs(k, front, issue)
          && InCoin(inputs[|utxos| - 1]) == Coin(last.asset, last.value);
      hide *;
      ReviewTheorems.CoinsInStep(k.w, inputs, a);
      OfStep(utxos, a);
      AmountIs(Coin(last.asset, last.value), a);
    }
  }

  lemma AmountIs(coin: Coin, a: Asset)
    ensures AmountOf(coin, a) == if coin.asset == a then coin.amount else 0
  {}

  lemma OfStep(utxos: seq<Utxo>, a: Asset)
    requires utxos != []
    ensures var last := utxos[|utxos| - 1];
            Sum(Of(utxos, a)) == Sum(Of(utxos[..|utxos| - 1], a)) + (if last.asset == a then last.value else 0)
  {
    var front, last := Of(utxos[..|utxos| - 1], a), utxos[|utxos| - 1];
    SumSnoc(front, last);
    assert front + [] == front;
  }

  // ---- The whole draft ------------------------------------------------------------------------------------

  /** Per asset, coins, gifts and issue together are exactly what the outputs hold. */
  predicate BalancedAt(k: Keys, d: Draft, a: Asset) {
    Sum(Of(d.utxos, a)) + Total(GiveCoins(d.offers), a) + Total(IssueCoins(k, d), a)
    == Total(WantCoins(d.offers), a) + Total(PayeeCoins(d.payee), a) + Total(d.own, a) + Total(d.changes, a)
       + (if a == k.w.policy then d.fee else 0)
  }

  /** What verifying an offer establishes; an addressable script has at most 42 bytes. */
  predicate OfferPlain(o: Offer) {
    && 0 < o.giveAmount && 0 < o.wantAmount && o.giveAsset != o.wantAsset
    && HasAddress(o.script) && ScriptLength(o.script) <= 42
  }

  predicate OfferVerified(o: Offer) {
    OfferPlain(o) && o.giveAmount <= MAX_MONEY
  }

  predicate OffersSound(d: Draft) {
    && (forall i :: 0 <= i < |d.offers| ==> OfferVerified(d.offers[i]))
    && (forall i, j :: 0 <= i < j < |d.offers| ==> d.offers[i].outpoint != d.offers[j].outpoint)
    && (forall i, j :: 0 <= i < |d.offers| && 0 <= j < |d.utxos| ==> d.offers[i].outpoint != d.utxos[j].outpoint)
  }

  predicate CoinsSound(d: Draft) {
    && d.utxos != [] && Distinct(d.utxos) && (forall i :: 0 <= i < |d.utxos| ==> 0 < d.utxos[i].value <= MAX_MONEY)
    && d.fee > 0 && (forall i :: 0 <= i < |d.own| ==> d.own[i].amount > 0)
    && (forall i :: 0 <= i < |d.changes| ==> d.changes[i].amount > 0)
    && (d.payee.Some? ==> d.payee.value.coin.amount > 0)
    && (AnyConfidential(d.utxos) ==> d.changes != [] || (d.payee.Some? && d.payee.value.blinder.Some?))
  }

  predicate KindSound(d: Draft, kind: Kind) {
    match kind
    case Transfer => d.offers == [] && d.issue.None? && d.payee.Some?
    case Issuance =>
      && d.offers == [] && d.payee.None? && d.issue.Some?
      && 0 < d.issue.value.amount <= MAX_MONEY && d.issue.value.tokens <= MAX_MONEY
    case OfferSplit => d.offers == [] && d.payee.None? && d.issue.None?
    case Cancel => d.offers == [] && d.payee.None? && d.issue.None?
    case SwapTake => d.offers != [] && d.payee.None? && d.issue.None? && !AnyConfidential(d.utxos)
    case SwapOffer => false
  }

  ghost predicate Sound(k: Keys, d: Draft, kind: Kind) {
    OffersSound(d) && CoinsSound(d) && KindSound(d, kind) && forall a :: BalancedAt(k, d, a)
  }

  /** The limits the review sets on what was built. */
  predicate Within(k: Keys, d: Draft) {
    && |d.offers| + |d.utxos| <= 256 && |Outputs(k, d)| <= 256
    && (forall i :: 0 <= i < |d.offers| ==> d.offers[i].clean)
    && (forall v :: 0 <= v < |Outputs(k, d)| ==> Outputs(k, d)[v].amount.GetOr(0) <= MAX_MONEY)
  }

  lemma InputStructure(k: Keys, d: Draft)
    ensures Outpoints(Inputs(k, d), true) == UtxoOutpoints(d.utxos)
        && Outpoints(Inputs(k, d), false) == OfferOutpoints(d.offers)
  {
    var makers, own := MakerInputs(d.offers), CoinInputs(k, d.utxos, d.issue);
    assert Inputs(k, d) == makers + own;
    hide *;
    MakerInputFacts(k.w, d.offers);
    WalletInputFacts(k, d.utxos, d.issue);
    OutpointsAppend(makers, own, true);
    OutpointsAppend(makers, own, false);
  }

  lemma InputTotal(k: Keys, d: Draft, a: Asset)
    ensures Total(CoinsIn(k.w, Inputs(k, d)), a)
         == Sum(Of(d.utxos, a)) + Total(GiveCoins(d.offers), a) + Total(IssueCoins(k, d), a)
    ensures Total(ForeignCoinsIn(Inputs(k, d)), a) == Total(GiveCoins(d.offers), a)
    ensures Total(CoinsIssued(k.w, Inputs(k, d)), a) == Total(IssueCoins(k, d), a)
  {
    var makers, own := MakerInputs(d.offers), CoinInputs(k, d.utxos, d.issue);
    assert Inputs(k, d) == makers + own;
    WalletInputIssues(k, d.utxos, d.issue);
    assert CoinsIssued(k.w, own) == IssueCoins(k, d);
    hide *;
    MakerInputFacts(k.w, d.offers);
    WalletInputFacts(k, d.utxos, d.issue);
    NoCoins(a);
    InputTotals(k.w, makers, own, a);
    WalletInputTotal(k, d.utxos, d.issue, a);
  }

  lemma NoCoins(a: Asset)
    ensures Total([], a) == 0
  {}

  lemma OwnFacts(k: Keys, d: Draft, a: Asset)
    ensures ExternalOutputs(OwnOutputs(k, d)) == [] && FeeOutputs(OwnOutputs(k, d)) == 0
    ensures Total(CoinsOut(OwnOutputs(k, d)), a) == Total(d.own, a) + Total(d.changes, a)
  {
    var own := WalletOutputs(k, d.own, false, d.receiveIndex, false);
    var changes := WalletOutputs(k, d.changes, true, d.changeIndex, AnyConfidential(d.utxos));
    assert OwnOutputs(k, d) == own + changes;
    hide *;
    WalletOutputFacts(k, d.own, false, d.receiveIndex, false);
    WalletOutputFacts(k, d.changes, true, d.changeIndex, AnyConfidential(d.utxos));
    ExternalAppend(own, changes);
    OutputTotals(k.w, own, changes, a);
  }

  lemma OutputsAre(k: Keys, d: Draft)
    ensures Outputs(k, d) == MakerOutputs(d.offers) + PayeeOutputs(d.payee) + OwnOutputs(k, d) + [FeeOutput(k, d.fee)]
    ensures OffersSound(d) ==> forall i :: 0 <= i < |d.offers| ==> d.offers[i].script != Empty
  {
    hide MakerOutputs, PayeeOutputs, OwnOutputs, FeeOutput;
    if OffersSound(d) {
      assert forall i :: 0 <= i < |d.offers| ==> OfferVerified(d.offers[i]);
    }
  }

  lemma OutputStructure(k: Keys, d: Draft)
    requires OffersSound(d)
    ensures ExternalOutputs(Outputs(k, d)) == MakerExternals(d.offers) + PayeeExternals(d.payee)
    ensures FeeOutputs(Outputs(k, d)) == 1
  {
    hide *;
    var makers, payee, own, fee := MakerOutputs(d.offers), PayeeOutputs(d.payee), OwnOutputs(k, d),
        [FeeOutput(k, d.fee)];
    OutputsAre(k, d);
    MakerOutputFacts(d.offers);
    PayeeFacts(d.payee);
    OwnFacts(k, d, 0);
    FeeFacts(k, d.fee);
    ExternalAppend(makers, payee);
    ExternalAppend(makers + payee, own);
    ExternalAppend(makers + payee + own, fee);
    assert ExternalOutputs(Outputs(k, d)) == MakerExternals(d.offers) + PayeeExternals(d.payee) + [] + [];
  }

  lemma OutputTotal(k: Keys, d: Draft, a: Asset)
    requires OffersSound(d)
    ensures Total(CoinsOut(Outputs(k, d)), a)
         == Total(WantCoins(d.offers), a) + Total(PayeeCoins(d.payee), a) + Total(d.own, a) + Total(d.changes, a)
            + (if a == k.w.policy then d.fee else 0)
  {
    hide *;
    var makers, payee, own, fee := MakerOutputs(d.offers), PayeeOutputs(d.payee), OwnOutputs(k, d),
        [FeeOutput(k, d.fee)];
    OutputsAre(k, d);
    MakerOutputFacts(d.offers);
    PayeeFacts(d.payee);
    OwnFacts(k, d, a);
    FeeFacts(k, d.fee);
    OutputTotals(k.w, makers, payee, a);
    OutputTotals(k.w, makers + payee, own, a);
    OutputTotals(k.w, makers + payee + own, fee, a);
    OneCoin(Coin(k.w.policy, d.fee), a);
  }

  lemma FeeIs(k: Keys, d: Draft)
    ensures FeeOf(Outputs(k, d)) == d.fee
  {}

  lemma OneCoin(coin: Coin, a: Asset)
    ensures Total([coin], a) == if coin.asset == a then coin.amount else 0
  {
    TotalSnoc([], coin, a);
    assert [] + [coin] == [coin];
  }

  // ---- The review accepts what is built --------------------------------------------------------------------

  lemma {:induction false} TotalOutBounded(outputs: seq<Output>, a: Asset)
    requires forall v :: 0 <= v < |outputs| ==> outputs[v].amount.GetOr(0) <= MAX_MONEY
    ensures Total(CoinsOut(outputs), a) <= FundingTheorems.Cap(|outputs|)
  {
    if outputs != [] {
      TotalOutBounded(outputs[..|outputs| - 1], a);
      ReviewTheorems.CoinsOutStep(outputs, a);
      hide CoinsOut, Total;
    }
  }

  lemma CapFits(count: nat)
    requires count <= 256
    ensures FundingTheorems.Cap(count) <= MAX_U64
  {}

  lemma WithinParts(k: Keys, d: Draft)
    requires Within(k, d)
    ensures |Outputs(k, d)| <= 256 && forall v ::
        0 <= v < |Outputs(k, d)| ==> Outputs(k, d)[v].amount.GetOr(0) <= MAX_MONEY
  {}

  lemma BalancedIs(k: Keys, d: Draft, a: Asset)
    requires BalancedAt(k, d, a)
    ensures Sum(Of(d.utxos, a)) + Total(GiveCoins(d.offers), a) + Total(IssueCoins(k, d), a)
         == Total(WantCoins(d.offers), a) + Total(PayeeCoins(d.payee), a) + Total(d.own, a) + Total(d.changes, a)
            + (if a == k.w.policy then d.fee else 0)
  {}

  lemma TotalFits(k: Keys, d: Draft, a: Asset)
    requires OffersSound(d) && BalancedAt(k, d, a) && Within(k, d)
    ensures Total(CoinsIn(k.w, Inputs(k, d)), a) == Total(CoinsOut(Outputs(k, d)), a) <= MAX_U64
  {
    hide *;
    WithinParts(k, d);
    TotalOutBounded(Outputs(k, d), a);
    CapFits(|Outputs(k, d)|);
    InputTotal(k, d, a);
    OutputTotal(k, d, a);
    BalancedIs(k, d, a);
  }

  lemma TotalsFit(k: Keys, d: Draft, kind: Kind)
    requires Sound(k, d, kind) && Within(k, d)
    ensures Bounded(CoinsOut(Outputs(k, d))) && Bounded(CoinsIn(k.w, Inputs(k, d))) && Conserves(k.w, Tx(k, d))
  {
    hide Inputs, Outputs, CoinsIn, CoinsOut, Total, OffersSound, CoinsSound, KindSound, BalancedAt, Within;
    forall a
      ensures Total(CoinsIn(k.w, Inputs(k, d)), a) == Total(CoinsOut(Outputs(k, d)), a) <= MAX_U64
    {
      TotalFits(k, d, a);
    }
  }

  lemma WalletInputOk(k: Keys, kind: Kind, confidential: bool, u: Utxo, issue: Option<Issue>, first: bool)
    requires 0 < u.value <= MAX_MONEY && (u.confidential ==> confidential) && !kind.SwapOffer?
    requires issue.Some? ==>
        kind.Issuance? && first && 0 < issue.value.amount <= MAX_MONEY && issue.value.tokens <= MAX_MONEY
    ensures InputOk(kind, confidential, WalletInput(k, u, All, issue), first)
  {}

  lemma MakerInputOk(o: Offer, confidential: bool, first: bool)
    requires OfferVerified(o) && o.clean
    ensures InputOk(SwapTake, confidential, MakerInput(o), first)
  {}

  lemma InputIs(k: Keys, d: Draft, i: nat)
    requires i < |d.offers| + |d.utxos|
    ensures |Inputs(k, d)| == |d.offers| + |d.utxos|
    ensures Inputs(k, d)[i]
         == if i < |d.offers| then MakerInput(d.offers[i])
            else WalletInput(k, d.utxos[i - |d.offers|], All, if i == |d.offers| then d.issue else None)
  {}

  lemma ConfidentialSeen(k: Keys, d: Draft, j: nat)
    requires j < |d.utxos|
    ensures d.utxos[j].confidential ==> TxConfidential(Tx(k, d))
  {
    InputIs(k, d, |d.offers| + j);
    assert d.utxos[j].confidential ==> InputConfidential(Tx(k, d).inputs[|d.offers| + j]);
  }

  lemma DraftInputOk(k: Keys, d: Draft, kind: Kind, i: nat)
    requires OffersSound(d) && CoinsSound(d) && KindSound(d, kind) && i < |d.offers| + |d.utxos|
    requires forall j :: 0 <= j < |d.offers| ==> d.offers[j].clean
    ensures InputOk(kind, TxConfidential(Tx(k, d)), Inputs(k, d)[i], i == 0)
  {
    InputIs(k, d, i);
    hide InputOk, TxConfidential, Tx, Inputs, MakerInput, WalletInput, AnyConfidential;
    if i < |d.offers| {
      MakerInputOk(d.offers[i], TxConfidential(Tx(k, d)), i == 0);
    } else {
      ConfidentialSeen(k, d, i - |d.offers|);
      WalletInputOk(k, kind, TxConfidential(Tx(k, d)), d.utxos[i - |d.offers|], if i == |d.offers| then d.issue
          else None, i == 0);
    }
  }

  lemma DraftInputsDistinct(k: Keys, d: Draft)
    requires OffersSound(d) && CoinsSound(d)
    ensures DistinctInputs(Inputs(k, d))
  {
    forall i, j | 0 <= i < j < |Inputs(k, d)|
      ensures Inputs(k, d)[i].outpoint != Inputs(k, d)[j].outpoint
    {
      InputIs(k, d, i);
      InputIs(k, d, j);
      hide Inputs, AnyConfidential;
    }
  }

  lemma DraftInputsOk(k: Keys, d: Draft, kind: Kind)
    requires Sound(k, d, kind) && Within(k, d)
    ensures InputsOk(k.w, kind, TxConfidential(Tx(k, d)), Inputs(k, d))
  {
    TotalsFit(k, d, kind);
    DraftInputsDistinct(k, d);
    InputIs(k, d, 0);
    hide Inputs, InputOk, TxConfidential, Tx, OffersSound, CoinsSound, KindSound, BalancedAt, DistinctInputs, Bounded;
    forall i | 0 <= i < |Inputs(k, d)|
      ensures InputOk(kind, TxConfidential(Tx(k, d)), Inputs(k, d)[i], i == 0)
    {
      DraftInputOk(k, d, kind, i);
    }
  }

  predicate OutputFit(w: Wallet, output: Output, last: bool, inputs: nat) {
    output.amount.GetOr(0) <= MAX_MONEY ==> OutputOk(w, output, last, inputs)
  }

  lemma DraftOutputOk(k: Keys, d: Draft, kind: Kind, v: nat)
    requires OffersSound(d) && CoinsSound(d) && v < |Outputs(k, d)|
    ensures OutputFit(k.w, Outputs(k, d)[v], v + 1 == |Outputs(k, d)|, |Inputs(k, d)|)
  {
    var makers, payee, own := |d.offers|, |PayeeOutputs(d.payee)|, |d.own|;
    InputIs(k, d, 0);
    hide Inputs, AnyConfidential, Distinct;
    if v < makers {
      assert Outputs(k, d)[v] == MakerOutput(d.offers[v]);
      assert OfferVerified(d.offers[v]);
    } else if v < makers + payee {
      assert Outputs(k, d)[v] == PayeeOutput(d.payee.value);
    } else if v < makers + payee + own {
      assert Outputs(k, d)[v] == WalletOutput(k, d.own[v - makers - payee], false, d.receiveIndex, false);
    } else if v < |Outputs(k, d)| - 1 {
      assert Outputs(k, d)[v]
          == WalletOutput(k, d.changes[v - makers - payee - own], true, d.changeIndex, AnyConfidential(d.utxos));
    }
  }

  lemma DraftOutputsOk(k: Keys, d: Draft, kind: Kind)
    requires Sound(k, d, kind) && Within(k, d)
    ensures OutputsOk(k.w, Outputs(k, d), |Outputs(k, d)|, |Inputs(k, d)|)
  {
    TotalsFit(k, d, kind);
    hide Inputs, Outputs, OutputOk, OffersSound, CoinsSound, KindSound, BalancedAt, Bounded, Conserves;
    forall v | 0 <= v < |Outputs(k, d)|
      ensures OutputOk(k.w, Outputs(k, d)[v], v + 1 == |Outputs(k, d)|, |Inputs(k, d)|)
    {
      DraftOutputOk(k, d, kind, v);
    }
  }

  lemma MakersPaired(k: Keys, d: Draft)
    requires OffersSound(d)
    ensures MakersFirst(Tx(k, d), |d.offers|)
  {
    var tx := Tx(k, d);
    forall i: nat | i < |d.offers|
      ensures !IsWalletInput(tx.inputs[i]) && tx.outputs[i].derivations == [] && tx.outputs[i].script != Empty
          && MakerSigned(tx, i)
    {
      InputIs(k, d, i);
      assert tx.outputs[i] == MakerOutput(d.offers[i]);
      assert OfferVerified(d.offers[i]);
      hide Inputs, Outputs;
    }
    hide IsWalletInput, MakerSigned;
  }

  lemma DraftIssuance(k: Keys, d: Draft, kind: Kind)
    requires KindSound(d, kind) && d.utxos != []
    ensures IssuanceOfTx(k.w, Inputs(k, d))
         == if kind.Issuance? then IssuanceReviewOf(k.w, WalletInput(k, d.utxos[0], All, d.issue)) else None
    ensures kind.Issuance? <==> IssuanceOfTx(k.w, Inputs(k, d)).Some?
  {
    InputIs(k, d, 0);
    hide Inputs;
  }

  lemma DraftKindOk(k: Keys, d: Draft, kind: Kind)
    requires OffersSound(d) && CoinsSound(d) && KindSound(d, kind)
    ensures KindOk(k.w, Tx(k, d), kind)
  {
    OutputStructure(k, d);
    InputStructure(k, d);
    MakersPaired(k, d);
    DraftIssuance(k, d, kind);
    hide Inputs, Outputs, OffersSound, CoinsSound, MakersFirst, IssuanceOfTx, ExternalOutputs, Outpoints;
  }

  lemma DraftBlinds(k: Keys, d: Draft)
    requires CoinsSound(d)
    ensures Tx(k, d).amountProofs
  {
    var outputs := Outputs(k, d);
    if AnyConfidential(d.utxos) {
      var i := if d.changes != [] then |outputs| - 2 else |d.offers|;
      assert outputs[i].blinding.Blinded?;
    }
  }

  lemma TakeIsExplicit(k: Keys, d: Draft)
    requires KindSound(d, SwapTake)
    ensures !TxConfidential(Tx(k, d))
  {
    var tx := Tx(k, d);
    forall i | 0 <= i < |tx.inputs|
      ensures !InputConfidential(tx.inputs[i])
    {
      InputIs(k, d, i);
      hide Inputs;
    }
    forall v | 0 <= v < |tx.outputs|
      ensures tx.outputs[v].blinding.NotBlinded?
    {}
  }

  /** A sound draft becomes a transaction the review accepts, exactly when it keeps to the review's limits. */
  lemma DraftAccepted(k: Keys, d: Draft, kind: Kind)
    requires Sound(k, d, kind)
    ensures Accepts(k.w, Tx(k, d), kind) <==> Within(k, d)
  {
    if Within(k, d) {
      DraftFits(k, d, kind);
    }
    if Accepts(k.w, Tx(k, d), kind) {
      AcceptedFits(k, d, kind);
    }
  }

  lemma TxIs(k: Keys, d: Draft)
    ensures var tx := Tx(k, d);
            tx.plainGlobals && tx.genesis == Some(k.w.genesis) && tx.standard && tx.inputs == Inputs(k, d)
                && tx.outputs == Outputs(k, d)
    ensures |Inputs(k, d)| == |d.offers| + |d.utxos| && |Outputs(k, d)| > 0
  {}

  lemma SoundParts(k: Keys, d: Draft, kind: Kind)
    requires Sound(k, d, kind)
    ensures OffersSound(d) && CoinsSound(d) && KindSound(d, kind) && d.utxos != [] && d.fee > 0
        && UtxoOutpoints(d.utxos) != []
    ensures !kind.SwapOffer?
    ensures Within(k, d) ==> |d.offers| + |d.utxos| <= 256 && |Outputs(k, d)| <= 256
  {}

  lemma DraftFits(k: Keys, d: Draft, kind: Kind)
    requires Sound(k, d, kind) && Within(k, d)
    ensures Accepts(k.w, Tx(k, d), kind)
  {
    hide *;
    SoundParts(k, d, kind);
    TxIs(k, d);
    TotalsFit(k, d, kind);
    DraftInputsOk(k, d, kind);
    DraftOutputsOk(k, d, kind);
    DraftKindOk(k, d, kind);
    DraftBlinds(k, d);
    OutputStructure(k, d);
    InputStructure(k, d);
    if kind.SwapTake? { TakeIsExplicit(k, d); }
    Review.AcceptsIs(k.w, Tx(k, d), kind);
  }

  lemma AcceptedFits(k: Keys, d: Draft, kind: Kind)
    requires Accepts(k.w, Tx(k, d), kind)
    ensures Within(k, d)
  {
    var tx := Tx(k, d);
    assert InputsOk(k.w, kind, TxConfidential(tx), tx.inputs) && OutputsOk(k.w, tx.outputs, |tx.outputs|, |tx.inputs|);
    assert |tx.inputs| == |d.offers| + |d.utxos| <= 256 && |tx.outputs| <= 256;
    hide Accepts, TxConfidential, Bounded, DistinctInputs;
    forall v | 0 <= v < |Outputs(k, d)|
      ensures Outputs(k, d)[v].amount.GetOr(0) <= MAX_MONEY
    {
      assert OutputOk(k.w, tx.outputs[v], v + 1 == |tx.outputs|, |tx.inputs|);
    }
    forall i | 0 <= i < |d.offers|
      ensures d.offers[i].clean
    {
      InputIs(k, d, i);
      assert InputOk(kind, TxConfidential(tx), tx.inputs[i], i == 0);
      hide Inputs, Outputs, OwnerOk, IssuanceOk, PlainInput, ProvenCoin;
    }
  }

  // ---- The review of what is built is the request -------------------------------------------------------------

  lemma {:induction false} ExternalCoinsAppend(left: seq<ExternalOutput>, right: seq<ExternalOutput>)
    ensures ExternalCoins(left + right) == ExternalCoins(left) + ExternalCoins(right)
  {
    if right == [] {
      assert left + right == left;
    } else {
      var front, last := right[..|right| - 1], right[|right| - 1];
      ExternalCoinsAppend(left, front);
      assert (left + right)[..|left + right| - 1] == left + front;
      Assoc(ExternalCoins(left), ExternalCoins(front), [Coin(last.asset, last.amount)]);
    }
  }

  lemma {:induction false} MakersAreWanted(offers: seq<Offer>)
    ensures ExternalCoins(MakerExternals(offers)) == WantCoins(offers)
  {
    if offers != [] {
      MakersAreWanted(offers[..|offers| - 1]);
      assert MakerExternals(offers)[..|offers| - 1] == MakerExternals(offers[..|offers| - 1]);
    }
  }

  lemma PayeeIsPaid(payee: Option<Payee>)
    ensures ExternalCoins(PayeeExternals(payee)) == PayeeCoins(payee)
  {
    if payee.Some? { assert PayeeExternals(payee)[..0] == []; }
  }

  lemma DraftDelta(k: Keys, d: Draft, kind: Kind, a: Asset)
    requires Sound(k, d, kind) && Accepts(k.w, Tx(k, d), kind)
    ensures Delta(k.w, Tx(k, d), a)
         == Total(GiveCoins(d.offers), a)
             + Total(IssueCoins(k, d), a) - Total(WantCoins(d.offers), a) - Total(PayeeCoins(d.payee), a)
  {
    assert OffersSound(d) && !kind.SwapOffer?;
    assert Tx(k, d).inputs == Inputs(k, d) && Tx(k, d).outputs == Outputs(k, d);
    hide *;
    ReviewTheorems.ReviewIsTruthful(k.w, Tx(k, d), kind, a);
    InputTotal(k, d, a);
    OutputStructure(k, d);
    ExternalCoinsAppend(MakerExternals(d.offers), PayeeExternals(d.payee));
    MakersAreWanted(d.offers);
    PayeeIsPaid(d.payee);
    TotalAppend(WantCoins(d.offers), PayeeCoins(d.payee), a);
  }

  function Decode(offers: seq<Offer>): seq<DecodedOffer> {
    seq(|offers|, i requires 0 <= i < |offers| =>
      DecodedOffer(offers[i].giveAsset, offers[i].giveAmount, offers[i].wantAsset, offers[i].wantAmount,
          offers[i].outpoint,
                   Address(offers[i].script, None)))
  }

  lemma {:induction false} DecodedCoins(offers: seq<Offer>)
    ensures Gives(Decode(offers)) == GiveCoins(offers) && Wants(Decode(offers)) == WantCoins(offers)
  {
    if offers != [] {
      DecodedCoins(offers[..|offers| - 1]);
      assert Decode(offers)[..|offers| - 1] == Decode(offers[..|offers| - 1]);
    }
  }

  /** The request a draft of the given kind carries out. */
  predicate Requested(d: Draft, kind: Kind, op: Operation, plan: PreparedPlan, spent: OutPoint) {
    match kind
    case Transfer =>
      && op.TransferOp? && d.payee.Some? && d.payee.value.coin == Coin(op.asset, op.amount)
      && op.recipient == Address(P2wpkh(d.payee.value.key), d.payee.value.blinder)
    case Issuance => op.IssuanceOp? && d.issue.Some? && d.issue.value.amount == op.issued
        && d.issue.value.tokens == op.tokens
    case OfferSplit => op.SwapOfferOp? && plan.offered.SplitFirst?
    case SwapTake => op.SwapTakeOp? && op.count == |d.offers| && plan.offers == Decode(d.offers)
    case Cancel => op.CancelOp? && op.outpoint == spent && spent in UtxoOutpoints(d.utxos)
    case SwapOffer => false
  }

  /** An issued asset and its reissuance token are different assets. */
  ghost predicate IdsDiffer(w: Wallet) {
    forall o, c :: w.ids(o, c).0 != w.ids(o, c).1
  }

  lemma IssueTotals(k: Keys, d: Draft, a: Asset)
    requires d.utxos != []
    ensures var r := IssuanceReviewOf(k.w, WalletInput(k, d.utxos[0], All, d.issue));
            Total(IssueCoins(k, d), a)
            == if r.None? then 0
               else (if a == r.value.asset then r.value.amount else 0)
                    + (if r.value.token == Some(a) then r.value.tokens else 0)
  {
    var r := IssuanceReviewOf(k.w, WalletInput(k, d.utxos[0], All, d.issue));
    NoCoins(a);
    if r.Some? {
      var coin := Coin(r.value.asset, r.value.amount);
      OneCoin(coin, a);
      if r.value.token.Some? {
        TotalSnoc([coin], Coin(r.value.token.value, r.value.tokens), a);
        assert IssueCoins(k, d) == [coin] + [Coin(r.value.token.value, r.value.tokens)];
      } else {
        assert IssueCoins(k, d) == [coin];
      }
    }
    hide Total, WalletInput, IssuanceReviewOf;
  }

  /** The net gain of a draft is the effect of the request it carries out. */
  lemma GainIsEffect(k: Keys, d: Draft, kind: Kind, op: Operation, plan: PreparedPlan, spent: OutPoint, a: Asset)
    requires KindSound(d, kind) && d.utxos != [] && Requested(d, kind, op, plan, spent) && IdsDiffer(k.w)
    requires plan.review.issuance
          == if kind.Issuance? then IssuanceReviewOf(k.w, WalletInput(k, d.utxos[0], All, d.issue)) else None
    ensures Effect(op, plan, a)
         == Total(GiveCoins(d.offers), a)
             + Total(IssueCoins(k, d), a) - Total(WantCoins(d.offers), a) - Total(PayeeCoins(d.payee), a)
  {
    DecodedCoins(d.offers);
    IssueTotals(k, d, a);
    NoCoins(a);
    if d.payee.Some? { OneCoin(d.payee.value.coin, a); }
    assert d.offers == [] ==> GiveCoins(d.offers) == [] && WantCoins(d.offers) == [];
    IssuedIdsDiffer(k, d);
    hide Total, WalletInput, IssuanceReviewOf, IssueCoins, GiveCoins, WantCoins, Gives, Wants, IdsDiffer, UtxoOutpoints;
  }

  lemma DraftEffect(k: Keys, d: Draft, kind: Kind, op: Operation, plan: PreparedPlan, spent: OutPoint, a: Asset)
    requires Sound(k, d, kind) && Accepts(k.w, Tx(k, d), kind) && Describes(k.w, Tx(k, d), kind, plan.review)
    requires Requested(d, kind, op, plan, spent) && IdsDiffer(k.w)
    ensures GetInt(plan.review.changes, a) == Effect(op, plan, a)
  {
    assert ListsDeltas(k.w, Tx(k, d), plan.review.changes) by {
      hide ListsDeltas, Accepts, Tx;
    }
    hide *;
    SoundParts(k, d, kind);
    DraftDelta(k, d, kind, a);
    ReviewTheorems.ChangesAre(k.w, Tx(k, d), plan.review.changes, a);
    DraftListed(k, d, kind, plan.review);
    GainIsEffect(k, d, kind, op, plan, spent, a);
  }

  lemma IssuedIdsDiffer(k: Keys, d: Draft)
    requires IdsDiffer(k.w) && d.utxos != []
    ensures var r := IssuanceReviewOf(k.w, WalletInput(k, d.utxos[0], All, d.issue));
            && (r.Some? && r.value.token.Some? ==> r.value.token.value != r.value.asset)
            && (d.issue.None? ==> r.None?)
  {}

  lemma MakerPaymentsAre(offers: seq<Offer>)
    ensures Payments(MakerExternals(offers)) == MakerPayments(Decode(offers))
    ensures forall i :: 0 <= i < |offers| ==> Decode(offers)[i].outpoint in OfferOutpoints(offers)
  {
    forall i | 0 <= i < |offers|
      ensures Decode(offers)[i].outpoint in OfferOutpoints(offers)
    {
      assert OfferOutpoints(offers)[i] == Decode(offers)[i].outpoint;
    }
  }

  /** What the review of a draft lists, read off the draft. */
  lemma DraftListed(k: Keys, d: Draft, kind: Kind, review: TxReview)
    requires OffersSound(d) && KindSound(d, kind) && d.utxos != [] && Describes(k.w, Tx(k, d), kind, review)
    ensures review.signed == UtxoOutpoints(d.utxos) && review.foreign == OfferOutpoints(d.offers)
    ensures review.external == MakerExternals(d.offers) + PayeeExternals(d.payee)
    ensures review.fee == d.fee && review.genesis == k.w.genesis && review.kind == kind
        && review.sighash == SighashOf(kind)
    ensures review.issuance
         == if kind.Issuance? then IssuanceReviewOf(k.w, WalletInput(k, d.utxos[0], All, d.issue)) else None
  {
    InputStructure(k, d);
    OutputStructure(k, d);
    DraftIssuance(k, d, kind);
    FeeIs(k, d);
    hide OffersSound, KindSound, ListsDeltas, Inputs, Outputs, IssuanceReviewOf, WalletInput, TxConfidential,
        ExternalOutputs, Outpoints;
  }

  lemma ExternalsAre(d: Draft)
    ensures d.offers == [] ==> MakerExternals(d.offers) + PayeeExternals(d.payee) == PayeeExternals(d.payee)
    ensures d.payee.None? ==> MakerExternals(d.offers) + PayeeExternals(d.payee) == MakerExternals(d.offers)
    ensures d.payee.None? && d.offers == [] ==> MakerExternals(d.offers) + PayeeExternals(d.payee) == []
    ensures d.payee.Some? ==>
              Payments(PayeeExternals(d.payee)) == [Payment(Address(P2wpkh(d.payee.value.key), d.payee.value.blinder),
                                                            d.payee.value.coin.asset, d.payee.value.coin.amount)]
  {}

  lemma IssuedAsAsked(k: Keys, d: Draft)
    requires d.issue.Some? && d.utxos != []
    ensures var r := IssuanceReviewOf(k.w, WalletInput(k, d.utxos[0], All, d.issue));
            && r.Some? && r.value.amount == d.issue.value.amount && r.value.tokens == d.issue.value.tokens
            && (d.issue.value.tokens == 0 <==> r.value.token.None?)
  {}

  lemma TakeStructure(d: Draft, op: Operation, plan: PreparedPlan, spent: OutPoint)
    requires KindSound(d, SwapTake) && Requested(d, SwapTake, op, plan, spent)
    requires plan.review.kind == SwapTake && plan.review.issuance.None?
    requires plan.review.foreign == OfferOutpoints(d.offers)
    requires plan.review.external == MakerExternals(d.offers) + PayeeExternals(d.payee)
    ensures StructureOk(op, plan)
  {
    MakerPaymentsAre(d.offers);
    ExternalsAre(d);
    hide Payments, MakerPayments, MakerExternals, PayeeExternals;
  }

  /** What a review without foreign inputs has to list for a request other than a take. */
  lemma OwnStructure(k: Keys, d: Draft, kind: Kind, op: Operation, plan: PreparedPlan, spent: OutPoint)
    requires KindSound(d, kind) && d.utxos != [] && Requested(d, kind, op, plan, spent) && !kind.SwapTake?
    requires plan.review.kind == kind && plan.review.foreign == OfferOutpoints(d.offers)
    requires plan.review.signed == UtxoOutpoints(d.utxos)
    requires plan.review.external == MakerExternals(d.offers) + PayeeExternals(d.payee)
    requires plan.review.issuance
          == if kind.Issuance? then IssuanceReviewOf(k.w, WalletInput(k, d.utxos[0], All, d.issue)) else None
    ensures StructureOk(op, plan)
  {
    ExternalsAre(d);
    assert OfferOutpoints([]) == [];
    if kind.Issuance? { IssuedAsAsked(k, d); }
    hide Payments, MakerExternals, PayeeExternals, OfferOutpoints, UtxoOutpoints, WalletInput, IssuanceReviewOf;
  }

  lemma DraftStructure(k: Keys, d: Draft, kind: Kind, op: Operation, plan: PreparedPlan, spent: OutPoint)
    requires OffersSound(d) && KindSound(d, kind) && d.utxos != [] && Describes(k.w, Tx(k, d), kind, plan.review)
    requires Requested(d, kind, op, plan, spent)
    ensures StructureOk(op, plan)
  {
    hide *;
    DraftListed(k, d, kind, plan.review);
    if kind.SwapTake? {
      TakeStructure(d, op, plan, spent);
    } else {
      OwnStructure(k, d, kind, op, plan, spent);
    }
  }

  lemma MatchesFrom(op: Operation, plan: PreparedPlan, genesis: nat)
    requires plan.review.genesis == genesis && plan.review.signed != []
        && plan.review.sighash == SighashOf(plan.review.kind)
    requires StructureOk(op, plan) && FeeOk(plan.review, op.feeRate)
    requires forall a :: GetInt(plan.review.changes, a) == Effect(op, plan, a)
    ensures Matches(op, plan, genesis)
  {
    hide StructureOk, Effect, GetInt;
  }

  /** The review of an accepted draft passes the exact-request check for the operation that asked for it. */
  lemma DraftMatches(k: Keys, d: Draft, kind: Kind, op: Operation, plan: PreparedPlan, spent: OutPoint)
    requires Sound(k, d, kind) && Accepts(k.w, Tx(k, d), kind) && Describes(k.w, Tx(k, d), kind, plan.review)
    requires Requested(d, kind, op, plan, spent) && IdsDiffer(k.w) && d.fee <= op.feeRate * MAX_FEE_VBYTES
    ensures Matches(op, plan, k.w.genesis)
  {
    hide *;
    SoundParts(k, d, kind);
    DraftListed(k, d, kind, plan.review);
    DraftStructure(k, d, kind, op, plan, spent);
    forall a
      ensures GetInt(plan.review.changes, a) == Effect(op, plan, a)
    {
      DraftEffect(k, d, kind, op, plan, spent, a);
    }
    FeeOkIs(plan.review, op.feeRate);
    MatchesFrom(op, plan, k.w.genesis);
  }

  lemma FeeOkIs(review: TxReview, rate: nat)
    ensures FeeOk(review, rate) <==> 0 < review.fee <= rate * MAX_FEE_VBYTES
  {}
}
