/** What each request makes of its funding, position by position. */
module BuilderTheorems {
  import opened Common
  import opened Coins
  import opened Funding
  import opened Pset
  import opened Drafts
  import opened Builder
  import opened ReviewTheorems
  import opened LedgerTheorems

  /** The input spends this coin of the wallet, under the key that holds it. */
  predicate SpendsCoin(k: Keys, input: Input, u: Utxo) {
    var (change, index) := k.holder(u.outpoint);
    && input.outpoint == u.outpoint && SpentBy(input) == TxOut(u.asset, u.value, P2wpkh(WalletKey(change, index)))
    && input.prevout.Some? && (input.prevout.value.Confidential? <==> u.confidential)
  }

  /** The output pays this coin to this script: in the clear, or sealed to exactly the key it names. */
  predicate PaysCoin(output: Output, coin: Coin, script: Script, blinder: Option<nat>) {
    && CreatedBy(output) == TxOut(coin.asset, coin.amount, script)
    && match output.blinding
       case NotBlinded => blinder.None?
       case Blinded(_, named, _, sealedTo, sealed) => blinder == Some(named) && sealedTo == named && sealed == coin
  }

  /** The blinding key of change: the wallet's own for the script, whenever a spent coin is confidential. */
  function ChangeBlinder(k: Keys, script: Script, inputs: seq<Utxo>): Option<nat> {
    if exists i :: 0 <= i < |inputs| && inputs[i].confidential then Some(k.w.blinder(script)) else None
  }

  function OffersOf(job: Job): seq<Offer> {
    if job.Takes? then job.offers else []
  }

  /** The coins a job pays to the wallet's next receiving key: what is split off, issued or taken. */
  function ReceivedBy(k: Keys, job: Job, issuer: OutPoint): seq<Coin> {
    match job
    case Transfers(_) => []
    case Splits(coin, _) => [coin]
    case Issues(issue, _) =>
      var (asset, token) := k.w.ids(issuer, issue.contract);
      if issue.tokens > 0 then [Coin(asset, issue.amount), Coin(token, issue.tokens)] else [Coin(asset, issue.amount)]
    case Cancels => []
    case Takes(_, own, _) => own
  }

  function ReceivingIndex(job: Job): nat {
    match job
    case Splits(_, receiveIndex) => receiveIndex
    case Issues(_, receiveIndex) => receiveIndex
    case Takes(_, _, receiveIndex) => receiveIndex
    case _ => 0
  }

  /** How many outputs of a job go to others. */
  function Others(job: Job): nat {
    if job.Transfers? then 1 else |OffersOf(job)|
  }

  lemma OutputIs(k: Keys, d: Draft, v: nat)
    requires v < |Outputs(k, d)|
    ensures var makers, payee, own := |d.offers|, |PayeeOutputs(d.payee)|, |d.own|;
            && |Outputs(k, d)| == makers + payee + own + |d.changes| + 1
            && Outputs(k, d)[v]
               == if v < makers then MakerOutput(d.offers[v])
                  else if v < makers + payee then PayeeOutput(d.payee.value)
                  else if v < makers + payee + own
                  then WalletOutput(k, d.own[v - makers - payee], false, d.receiveIndex, false)
                  else if v < |Outputs(k, d)| - 1
                  then WalletOutput(k, d.changes[v - makers - payee - own], true, d.changeIndex,
                      AnyConfidential(d.utxos))
                  else FeeOutput(k, d.fee)
  {
    hide MakerOutput, PayeeOutput, WalletOutput, FeeOutput, AnyConfidential;
  }

  lemma DraftIs(k: Keys, job: Job, changeIndex: nat, f: Funding)
    requires f.inputs != []
    ensures var d := DraftFor(k, job, changeIndex, f);
            && d.offers == OffersOf(job) && d.utxos == f.inputs && d.changes == f.changes && d.fee == f.fee
            && d.own == ReceivedBy(k, job, f.inputs[0].outpoint) && d.changeIndex == changeIndex
            && d.receiveIndex == ReceivingIndex(job)
            && d.payee == (if job.Transfers? then Some(job.payee) else None)
            && d.issue == (if job.Issues? then Some(job.issue) else None)
  {}

  /** After the makers' inputs come exactly the funded coins, in order, each under its own key. */
  lemma SpendsFunded(k: Keys, job: Job, changeIndex: nat, f: Funding)
    requires f.inputs != []
    ensures var inputs := Tx(k, DraftFor(k, job, changeIndex, f)).inputs;
            && |inputs| == |OffersOf(job)| + |f.inputs|
            && forall i :: 0 <= i < |f.inputs| ==> SpendsCoin(k, inputs[|OffersOf(job)| + i], f.inputs[i])
  {
    DraftIs(k, job, changeIndex, f);
    var d := DraftFor(k, job, changeIndex, f);
    hide DraftFor, OffersOf, ReceivedBy, ReceivingIndex;
    InputIs(k, d, 0);
    forall i | 0 <= i < |f.inputs|
      ensures SpendsCoin(k, Tx(k, d).inputs[|OffersOf(job)| + i], f.inputs[i])
    {
      InputIs(k, d, |d.offers| + i);
      hide Inputs, Outputs;
    }
  }

  /** After what goes to others come the coins for the receiving key, then the change under the change key, blinded
      to the wallet exactly when a confidential coin is spent, then the fee. */
  lemma KeepsRest(k: Keys, job: Job, changeIndex: nat, f: Funding)
    requires f.inputs != []
    ensures var outputs := Tx(k, DraftFor(k, job, changeIndex, f)).outputs;
            var own, received := Others(job), ReceivedBy(k, job, f.inputs[0].outpoint);
            var script := P2wpkh(WalletKey(true, changeIndex));
            && |outputs| == own + |received| + |f.changes| + 1
            && (forall i :: 0 <= i < |received| ==>
                  PaysCoin(outputs[own + i], received[i], P2wpkh(WalletKey(false, ReceivingIndex(job))), None))
            && (forall i :: 0 <= i < |f.changes| ==>
                  PaysCoin(outputs[own + |received| + i], f.changes[i], script, ChangeBlinder(k, script, f.inputs)))
            && PaysFee(k.w, outputs[|outputs| - 1], f.fee)
  {
    hide *;
    var d := DraftFor(k, job, changeIndex, f);
    var outputs := Tx(k, d).outputs;
    var own, received := Others(job), ReceivedBy(k, job, f.inputs[0].outpoint);
    var script := P2wpkh(WalletKey(true, changeIndex));
    DraftIs(k, job, changeIndex, f);
    OthersAre(k, job, changeIndex, f);
    OutputIs(k, d, |outputs| - 1);
    FeePays(k, d.fee);
    forall i | 0 <= i < |received|
      ensures PaysCoin(outputs[own + i], received[i], P2wpkh(WalletKey(false, ReceivingIndex(job))), None)
    {
      OutputIs(k, d, own + i);
      WalletPays(k, received[i], false, ReceivingIndex(job), false);
    }
    forall i | 0 <= i < |f.changes|
      ensures PaysCoin(outputs[own + |received| + i], f.changes[i], script, ChangeBlinder(k, script, f.inputs))
    {
      OutputIs(k, d, own + |received| + i);
      WalletPays(k, f.changes[i], true, changeIndex, AnyConfidential(f.inputs));
      ChangeBlinderIs(k, script, f.inputs);
    }
  }

  lemma OthersAre(k: Keys, job: Job, changeIndex: nat, f: Funding)
    requires f.inputs != []
    ensures var d := DraftFor(k, job, changeIndex, f);
            |PayeeOutputs(d.payee)| + |d.offers| == Others(job) && Tx(k, d).outputs == Outputs(k, d) != []
  {
    DraftIs(k, job, changeIndex, f);
    hide DraftFor, Outputs;
  }

  lemma WalletPays(k: Keys, coin: Coin, change: bool, index: nat, blinded: bool)
    ensures var script := P2wpkh(WalletKey(change, index));
            PaysCoin(WalletOutput(k, coin, change, index, blinded), coin, script,
                if blinded then Some(k.w.blinder(script)) else None)
  {}

  lemma FeePays(k: Keys, fee: nat)
    ensures PaysFee(k.w, FeeOutput(k, fee), fee)
  {}

  lemma ChangeBlinderIs(k: Keys, script: Script, inputs: seq<Utxo>)
    ensures ChangeBlinder(k, script, inputs) == if AnyConfidential(inputs) then Some(k.w.blinder(script)) else None
  {}

  /** A transfer pays its payee first, at the address given; a take pays each maker beside its input. */
  lemma PaysOthers(k: Keys, job: Job, changeIndex: nat, f: Funding)
    requires f.inputs != []
    ensures var tx := Tx(k, DraftFor(k, job, changeIndex, f));
            && Others(job) < |tx.outputs| && |OffersOf(job)| < |tx.inputs|
            && (job.Transfers? ==>
                  PaysCoin(tx.outputs[0], job.payee.coin, P2wpkh(job.payee.key), job.payee.blinder))
            && forall i :: 0 <= i < |OffersOf(job)| ==>
                 var o := OffersOf(job)[i];
                 && tx.inputs[i].outpoint == o.outpoint
                 && SpentBy(tx.inputs[i]) == TxOut(o.giveAsset, o.giveAmount, P2wpkh(o.maker))
                 && PaysCoin(tx.outputs[i], Coin(o.wantAsset, o.wantAmount), o.script, None)
                 && SignedPair(tx.inputs[i], tx.outputs[i])
  {
    DraftIs(k, job, changeIndex, f);
    var d := DraftFor(k, job, changeIndex, f);
    var tx := Tx(k, d);
    InputIs(k, d, 0);
    OutputIs(k, d, |tx.outputs| - 1);
    assert Others(job) < |tx.outputs|;
    if job.Transfers? { OutputIs(k, d, 0); }
    hide DraftFor, ReceivedBy, ReceivingIndex, Inputs, Outputs;
    forall i | 0 <= i < |OffersOf(job)|
      ensures var o := OffersOf(job)[i];
              && tx.inputs[i].outpoint == o.outpoint
              && SpentBy(tx.inputs[i]) == TxOut(o.giveAsset, o.giveAmount, P2wpkh(o.maker))
              && PaysCoin(tx.outputs[i], Coin(o.wantAsset, o.wantAmount), o.script, None)
              && SignedPair(tx.inputs[i], tx.outputs[i])
    {
      InputIs(k, d, i);
      OutputIs(k, d, i);
      hide Others, PayeeOutputs;
    }
  }

  /** An offer spends its coin under the coin's key and asks for the wanted coin at the receiving key. */
  lemma OffersCoin(k: Keys, utxo: Utxo, want: Coin, receiveIndex: nat)
    ensures var tx := OfferTx(k, utxo, want, receiveIndex);
            && |tx.inputs| == 1 && SpendsCoin(k, tx.inputs[0], utxo)
            && |tx.outputs| == 1 && PaysCoin(tx.outputs[0], want, P2wpkh(WalletKey(false, receiveIndex)), None)
  {}
}
