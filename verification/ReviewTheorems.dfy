/** What an accepted review, matched against a request, means for the money. */
module ReviewTheorems {
  import opened Common
  import opened Coins
  import opened Pset
  import opened Operations
  import Review

  // ---- The review is truthful ------------------------------------------------------------------

  lemma TotalMaybe(coins: seq<Coin>, present: bool, coin: Coin, a: Asset)
    ensures Total(coins + (if present then [coin] else []), a)
        == Total(coins, a) + (if present then AmountOf(coin, a) else 0)
  {
    TotalSnoc(coins, coin, a);
    assert coins + [] == coins;
  }

  lemma CoinsInStep(w: Wallet, inputs: seq<Input>, a: Asset)
    requires inputs != []
    ensures var front, last := inputs[..|inputs| - 1], inputs[|inputs| - 1];
            && Total(CoinsIn(w, inputs), a)
                == Total(CoinsIn(w, front), a) + AmountOf(InCoin(last), a) + Total(IssuedCoins(w, last), a)
            && Total(CoinsIssued(w, inputs), a) == Total(CoinsIssued(w, front), a) + Total(IssuedCoins(w, last), a)
  {
    var front, last := inputs[..|inputs| - 1], inputs[|inputs| - 1];
    TotalSnoc(CoinsIn(w, front), InCoin(last), a);
    TotalAppend(CoinsIn(w, front) + [InCoin(last)], IssuedCoins(w, last), a);
    TotalAppend(CoinsIssued(w, front), IssuedCoins(w, last), a);
    hide Total, IssuedCoins, InCoin;
  }

  lemma OwnedInStep(inputs: seq<Input>, a: Asset)
    requires inputs != []
    ensures var front, last := inputs[..|inputs| - 1], inputs[|inputs| - 1];
            && Total(WalletCoinsIn(inputs), a)
               == Total(WalletCoinsIn(front), a) + (if IsWalletInput(last) then AmountOf(InCoin(last), a) else 0)
            && Total(ForeignCoinsIn(inputs), a)
               == Total(ForeignCoinsIn(front), a) + (if IsWalletInput(last) then 0 else AmountOf(InCoin(last), a))
  {
    var front, last := inputs[..|inputs| - 1], inputs[|inputs| - 1];
    TotalMaybe(WalletCoinsIn(front), IsWalletInput(last), InCoin(last), a);
    TotalMaybe(ForeignCoinsIn(front), !IsWalletInput(last), InCoin(last), a);
    hide Total, IsWalletInput, InCoin;
  }

  /** Everything entering is the wallet's, somebody else's or newly issued. */
  lemma {:induction false} InputsSplit(w: Wallet, inputs: seq<Input>, a: Asset)
    ensures Total(CoinsIn(w, inputs), a)
         == Total(WalletCoinsIn(inputs), a) + Total(ForeignCoinsIn(inputs), a) + Total(CoinsIssued(w, inputs), a)
  {
    if inputs == [] {
    } else {
      CoinsInStep(w, inputs, a);
      OwnedInStep(inputs, a);
      InputsSplit(w, inputs[..|inputs| - 1], a);
      hide *;
    }
  }

  /** Coins on outputs with an empty script. */
  function FeeCoins(outputs: seq<Output>): seq<Coin> {
    if outputs == [] then []
    else
      var last := outputs[|outputs| - 1];
      FeeCoins(outputs[..|outputs| - 1]) + (if last.script == Empty then [OutCoin(last)] else [])
  }

  lemma ExternalSnoc(external: seq<ExternalOutput>, e: ExternalOutput, a: Asset)
    ensures Total(ExternalCoins(external + [e]), a)
        == Total(ExternalCoins(external), a) + AmountOf(Coin(e.asset, e.amount), a)
  {
    assert (external + [e])[..|external|] == external;
    TotalSnoc(ExternalCoins(external), Coin(e.asset, e.amount), a);
  }

  lemma CoinsOutStep(outputs: seq<Output>, a: Asset)
    requires outputs != []
    ensures var front, last := outputs[..|outputs| - 1], outputs[|outputs| - 1];
            && Total(CoinsOut(outputs), a) == Total(CoinsOut(front), a) + AmountOf(OutCoin(last), a)
            && Total(WalletCoinsOut(outputs), a)
               == Total(WalletCoinsOut(front), a)
                   + (if last.script != Empty && IsWalletOutput(last) then AmountOf(OutCoin(last), a) else 0)
            && Total(FeeCoins(outputs), a)
               == Total(FeeCoins(front), a) + (if last.script == Empty then AmountOf(OutCoin(last), a) else 0)
  {
    var front, last := outputs[..|outputs| - 1], outputs[|outputs| - 1];
    TotalSnoc(CoinsOut(front), OutCoin(last), a);
    TotalMaybe(WalletCoinsOut(front), last.script != Empty && IsWalletOutput(last), OutCoin(last), a);
    TotalMaybe(FeeCoins(front), last.script == Empty, OutCoin(last), a);
    hide Total, IsWalletOutput, OutCoin;
  }

  lemma ExternalStep(outputs: seq<Output>, a: Asset)
    requires outputs != []
    ensures var front, last := outputs[..|outputs| - 1], outputs[|outputs| - 1];
            (Total(ExternalCoins(ExternalOutputs(outputs)), a)
             == Total(ExternalCoins(ExternalOutputs(front)), a)
                + (if last.script != Empty && !IsWalletOutput(last) then AmountOf(OutCoin(last), a) else 0))
  {
    var front, last := outputs[..|outputs| - 1], outputs[|outputs| - 1];
    ExternalSnoc(ExternalOutputs(front), ExternalOf(last), a);
    assert ExternalOutputs(front) + [] == ExternalOutputs(front);
    hide Total, IsWalletOutput, ExternalCoins;
  }

  /** Everything leaving is the wallet's, an external payment or fee. */
  lemma {:induction false} OutputsSplit(outputs: seq<Output>, a: Asset)
    ensures Total(CoinsOut(outputs), a)
         == Total(WalletCoinsOut(outputs), a) + Total(ExternalCoins(ExternalOutputs(outputs)), a)
             + Total(FeeCoins(outputs), a)
  {
    if outputs == [] {
    } else {
      CoinsOutStep(outputs, a);
      ExternalStep(outputs, a);
      OutputsSplit(outputs[..|outputs| - 1], a);
      hide *;
    }
  }

  lemma {:induction false} NoFeeBeforeLast(w: Wallet, outputs: seq<Output>, count: nat, inputs: nat, a: Asset)
    requires OutputsOk(w, outputs, count, inputs) && |outputs| < count
    ensures FeeCoins(outputs) == []
  {
    if outputs != [] {
      var front, last := outputs[..|outputs| - 1], outputs[|outputs| - 1];
      Review.OutputsOkPrefix(w, outputs, count, inputs, |outputs| - 1);
      NoFeeBeforeLast(w, front, count, inputs, a);
      assert OutputOk(w, last, |outputs| == count, inputs);
    }
  }

  /** The fee is the last output, in the policy asset. */
  lemma FeeIsPolicy(w: Wallet, outputs: seq<Output>, inputs: nat, a: Asset)
    requires OutputsOk(w, outputs, |outputs|, inputs) && outputs != []
    ensures Total(FeeCoins(outputs), a) == if a == w.policy then FeeOf(outputs) else 0
  {
    var front, last := outputs[..|outputs| - 1], outputs[|outputs| - 1];
    Review.OutputsOkPrefix(w, outputs, |outputs|, inputs, |outputs| - 1);
    NoFeeBeforeLast(w, front, |outputs|, inputs, a);
    TotalSnoc([], OutCoin(last), a);
    assert OutputOk(w, last, true, inputs);
    assert [] + [OutCoin(last)] == [OutCoin(last)];
  }

  /** The reviewed change of every asset is what others bring in, plus what is issued, less what goes out. */
  lemma ReviewIsTruthful(w: Wallet, tx: Transaction, kind: Kind, a: Asset)
    requires Accepts(w, tx, kind) && !kind.SwapOffer?
    ensures Delta(w, tx, a)
         == Total(ForeignCoinsIn(tx.inputs), a) + Total(CoinsIssued(w, tx.inputs), a)
            - Total(ExternalCoins(ExternalOutputs(tx.outputs)), a)
  {
    InputsSplit(w, tx.inputs, a);
    OutputsSplit(tx.outputs, a);
    FeeIsPolicy(w, tx.outputs, |tx.inputs|, a);
    hide InputsOk, OutputsOk, KindOk, TxConfidential, FeeOf, FeeCoins, CoinsIn, CoinsOut;
  }

  /** A transaction deserves one review. */
  lemma ReviewUnique(w: Wallet, tx: Transaction, kind: Kind, r: TxReview, q: TxReview)
    requires Describes(w, tx, kind, r) && Describes(w, tx, kind, q)
    ensures r == q
  {
    forall a
      ensures (a in r.changes <==> a in q.changes) && (a in r.changes ==> r.changes[a] == q.changes[a])
    {
      hide Delta;
    }
    assert r.changes == q.changes;
    hide ListsDeltas;
  }

  // ---- The request is carried out exactly ----------------------------------------------------------

  /** A transaction whose accepted review matches the request. */
  ghost predicate Approved(w: Wallet, tx: Transaction, op: Operation, plan: PreparedPlan) {
    && Accepts(w, tx, plan.review.kind) && Describes(w, tx, plan.review.kind, plan.review)
    && Matches(op, plan, w.genesis)
  }

  lemma ChangesAre(w: Wallet, tx: Transaction, changes: map<Asset, int>, a: Asset)
    requires ListsDeltas(w, tx, changes)
    ensures GetInt(changes, a) == Delta(w, tx, a)
  {
    hide Delta;
  }

  /** The wallet spends exactly what the request costs, plus the reviewed fee. */
  lemma SpendsExactly(w: Wallet, tx: Transaction, op: Operation, plan: PreparedPlan, a: Asset)
    requires Approved(w, tx, op, plan)
    ensures Total(WalletCoinsIn(tx.inputs), a) - Total(WalletCoinsOut(tx.outputs), a)
         == (if a == w.policy then FeeOf(tx.outputs) else 0) - Effect(op, plan, a)
    ensures plan.review.kind.SwapOffer? || 0 < FeeOf(tx.outputs) <= op.feeRate * MAX_FEE_VBYTES
  {
    ChangesAre(w, tx, plan.review.changes, a);
    assert GetInt(plan.review.changes, a) == Effect(op, plan, a);
    hide Accepts, ListsDeltas, GetInt, Effect, StructureOk, WalletCoinsIn, WalletCoinsOut, Outpoints, ExternalOutputs,
        IssuanceOfTx, TxConfidential;
    hide FeeOf;
  }

  lemma {:induction false} ExternalListed(outputs: seq<Output>, v: nat)
    requires v < |outputs| && outputs[v].script != Empty && !IsWalletOutput(outputs[v])
    ensures ExternalOf(outputs[v]) in ExternalOutputs(outputs)
  {
    hide IsWalletOutput;
    if v < |outputs| - 1 {
      ExternalListed(outputs[..|outputs| - 1], v);
    }
  }

  /** A script of this wallet: pay to the hash of one of its keys. */
  predicate OwnScript(script: Script) {
    script.P2wpkh? && script.key.WalletKey?
  }

  /** The fee, in the policy asset, in the clear. */
  predicate PaysFee(w: Wallet, output: Output, fee: nat) {
    output.script == Empty && output.asset == Some(w.policy) && output.amount == Some(fee)
        && output.blinding.NotBlinded?
  }

  /** A coin on a script of this wallet, with the key and path it was derived by; when blinded, sealed to the
      wallet's own blinding key of that script. */
  predicate PaysWallet(w: Wallet, output: Output) {
    && OwnScript(output.script)
    && output.derivations == [Derivation(true, output.script.key, Some(output.script.key))]
    && (output.blinding.Blinded? ==>
          && output.blinding.sealedTo == w.blinder(output.script)
          && output.asset == Some(output.blinding.sealed.asset) && output.amount == Some(output.blinding.sealed.amount))
  }

  /** What the output shows to whoever reviews it. */
  predicate ShownAs(output: Output, e: ExternalOutput) {
    && e.address.script == output.script && output.asset == Some(e.asset) && output.amount == Some(e.amount)
    && (output.script.P2wpkh? || (output.script.Other? && output.script.addressable))
    && (if output.blinding.Blinded? then e.address.blinder == Some(output.blinding.blinder) && e.confidential
        else e.address.blinder.None? && !e.confidential)
  }

  lemma OutputSorted(w: Wallet, output: Output, last: bool, inputs: nat)
    requires OutputOk(w, output, last, inputs)
    ensures output.script == Empty ==> last && PaysFee(w, output, output.amount.GetOr(0))
    ensures output.script != Empty && IsWalletOutput(output) ==> PaysWallet(w, output)
    ensures output.script != Empty && !IsWalletOutput(output) ==> ShownAs(output, ExternalOf(output))
  {
    assert IsWalletOutput(output) ==> output.derivations == [output.derivations[0]];
  }

  /** Every output of an accepted transaction is the fee in last place, listed as external, or paid to a script of
      this wallet, which can open it. */
  lemma EveryOutputSorted(w: Wallet, tx: Transaction, kind: Kind, v: nat)
    requires Accepts(w, tx, kind) && v < |tx.outputs|
    ensures var output := tx.outputs[v];
            || (v == |tx.outputs| - 1 && PaysFee(w, output, FeeOf(tx.outputs)))
            || PaysWallet(w, output)
            || exists e :: e in ExternalOutputs(tx.outputs) && ShownAs(output, e)
  {
    var output := tx.outputs[v];
    assert OutputOk(w, output, v + 1 == |tx.outputs|, |tx.inputs|) by {
      hide OutputOk, InputsOk, KindOk, TxConfidential;
    }
    OutputSorted(w, output, v + 1 == |tx.outputs|, |tx.inputs|);
    if output.script == Empty {
      hide Accepts, PaysFee;
    } else if !IsWalletOutput(output) {
      ExternalListed(tx.outputs, v);
      hide Accepts, ShownAs, ExternalOf;
      assert ExternalOf(output) in ExternalOutputs(tx.outputs);
    }
  }

  /** Every output of an approved transaction is the reviewed fee, a coin of this wallet, or a reviewed payment. */
  lemma EveryOutputAccounted(w: Wallet, tx: Transaction, op: Operation, plan: PreparedPlan, v: nat)
    requires Approved(w, tx, op, plan) && v < |tx.outputs|
    ensures var output := tx.outputs[v];
            || (v == |tx.outputs| - 1 && PaysFee(w, output, plan.review.fee))
            || PaysWallet(w, output)
            || exists e :: e in plan.review.external && ShownAs(output, e)
  {
    EveryOutputSorted(w, tx, plan.review.kind, v);
    hide Accepts, Matches, ListsDeltas, PaysFee, PaysWallet, ShownAs, FeeOf, ExternalOutputs;
  }

  lemma PaidListed(external: seq<ExternalOutput>, e: ExternalOutput)
    requires e in external
    ensures Paid(e) in Payments(external)
  {
    var i :| 0 <= i < |external| && external[i] == e;
    assert Payments(external)[i] == Paid(e);
  }

  lemma {:induction false} NoForeignCoins(inputs: seq<Input>)
    ensures Outpoints(inputs, false) == [] <==> ForeignCoinsIn(inputs) == []
  {
    if inputs != [] {
      NoForeignCoins(inputs[..|inputs| - 1]);
      hide IsWalletInput, InCoin;
    }
  }

  /** Pays this coin to this address. */
  predicate PaysRecipient(output: Output, address: Address, asset: Asset, amount: nat) {
    && output.script == address.script && output.asset == Some(asset) && output.amount == Some(amount)
    && address.blinder == if output.blinding.Blinded? then Some(output.blinding.blinder) else None
  }

  /** An approved transfer takes exactly the amount and the fee, and pays nobody but the recipient. */
  lemma TransferCostsExactly(w: Wallet, tx: Transaction, op: Operation, plan: PreparedPlan)
    requires Approved(w, tx, op, plan) && op.TransferOp?
    ensures forall a :: Total(WalletCoinsIn(tx.inputs), a) - Total(WalletCoinsOut(tx.outputs), a)
                     == (if a == op.asset then op.amount else 0) + (if a == w.policy then FeeOf(tx.outputs) else 0)
    ensures 0 < FeeOf(tx.outputs) <= op.feeRate * MAX_FEE_VBYTES
    ensures ForeignCoinsIn(tx.inputs) == []
    ensures |ExternalOutputs(tx.outputs)| == 1
    ensures forall v :: 0 <= v < |tx.outputs| - 1 ==>
              PaysWallet(w, tx.outputs[v]) || PaysRecipient(tx.outputs[v], op.recipient, op.asset, op.amount)
  {
    forall a
      ensures Total(WalletCoinsIn(tx.inputs), a) - Total(WalletCoinsOut(tx.outputs), a)
           == (if a == op.asset then op.amount else 0) + (if a == w.policy then FeeOf(tx.outputs) else 0)
    {
      SpendsExactly(w, tx, op, plan, a);
      hide Accepts, Describes, Matches, FeeOf, WalletCoinsIn, WalletCoinsOut, Total;
    }
    SpendsExactly(w, tx, op, plan, 0);
    assert Payments(plan.review.external) == [Payment(op.recipient, op.asset, op.amount)];
    forall v | 0 <= v < |tx.outputs| - 1
      ensures PaysWallet(w, tx.outputs[v]) || PaysRecipient(tx.outputs[v], op.recipient, op.asset, op.amount)
    {
      EveryOutputAccounted(w, tx, op, plan, v);
      hide Accepts, Describes, Matches, PaysWallet;
      if e :| e in plan.review.external && ShownAs(tx.outputs[v], e) {
        PaidListed(plan.review.external, e);
      }
    }
    NoForeignCoins(tx.inputs);
    assert |Payments(plan.review.external)| == |plan.review.external|;
    hide Accepts, ListsDeltas, DeltasAre, FeeOf, WalletCoinsIn, WalletCoinsOut, Total, IsWalletOutput, Payments,
        ExternalOf;
  }

  /** Sending to oneself, to split or to cancel, costs the fee alone and pays nobody. */
  lemma SelfSendCostsFee(w: Wallet, tx: Transaction, op: Operation, plan: PreparedPlan, a: Asset)
    requires Approved(w, tx, op, plan) && (op.CancelOp? || (op.SwapOfferOp? && plan.offered.SplitFirst?))
    ensures Total(WalletCoinsIn(tx.inputs), a)
         == Total(WalletCoinsOut(tx.outputs), a) + (if a == w.policy then FeeOf(tx.outputs) else 0)
    ensures ExternalOutputs(tx.outputs) == []
    ensures op.CancelOp? ==> op.outpoint in Outpoints(tx.inputs, true)
  {
    SpendsExactly(w, tx, op, plan, a);
    hide Accepts, ListsDeltas, DeltasAre, FeeOf, WalletCoinsIn, WalletCoinsOut, Total, ExternalOutputs, Outpoints;
  }

  // ---- Swaps -------------------------------------------------------------------------------------------

  function OfferOutpoints(offers: seq<DecodedOffer>): set<OutPoint> {
    set i | 0 <= i < |offers| :: offers[i].outpoint
  }

  predicate DistinctOffers(offers: seq<DecodedOffer>) {
    forall i, j :: 0 <= i < j < |offers| ==> offers[i].outpoint != offers[j].outpoint
  }

  lemma {:induction false} DistinctCount(offers: seq<DecodedOffer>)
    requires DistinctOffers(offers)
    ensures |OfferOutpoints(offers)| == |offers|
  {
    if offers != [] {
      var front, last := offers[..|offers| - 1], offers[|offers| - 1];
      DistinctCount(front);
      assert forall i :: 0 <= i < |front| ==> front[i] == offers[i];
      OfferSnoc(front, last);
      assert offers == front + [last];
    }
  }

  lemma OfferSnoc(front: seq<DecodedOffer>, last: DecodedOffer)
    ensures OfferOutpoints(front + [last]) == OfferOutpoints(front) + {last.outpoint}
  {
    var all := front + [last];
    forall o
      ensures o in OfferOutpoints(all) <==> o in OfferOutpoints(front) + {last.outpoint}
    {
      if o in OfferOutpoints(front) {
        var i :| 0 <= i < |front| && front[i].outpoint == o;
        assert all[i].outpoint == o;
      }
      assert all[|front|] == last;
    }
  }

  lemma {:induction false} SeqSetSize(s: seq<OutPoint>)
    ensures |set o | o in s| <= |s|
  {
    if s != [] {
      SeqSetSize(s[1..]);
      assert (set o | o in s) == (set o | o in s[1..]) + {s[0]};
    }
  }

  lemma SubsetSizes(a: set<OutPoint>, b: set<OutPoint>)
    requires a <= b && |b| <= |a|
    ensures a == b
  {
    assert |b - a| == |b| - |a|;
  }

  /** An approved take of distinct offers spends no foreign coin but the offered ones, pays every
      maker exactly what its offer wants, and costs the wallet what the offers want less what they give. */
  lemma TakePaysExactly(w: Wallet, tx: Transaction, op: Operation, plan: PreparedPlan, a: Asset)
    requires Approved(w, tx, op, plan) && op.SwapTakeOp? && DistinctOffers(plan.offers)
    ensures Total(WalletCoinsIn(tx.inputs), a) + Total(Gives(plan.offers), a)
         == Total(WalletCoinsOut(tx.outputs), a) + Total(Wants(plan.offers), a)
             + (if a == w.policy then FeeOf(tx.outputs) else 0)
    ensures (set o | o in Outpoints(tx.inputs, false)) == OfferOutpoints(plan.offers)
    ensures multiset(Payments(ExternalOutputs(tx.outputs))) == multiset(MakerPayments(plan.offers))
    ensures MakersFirst(tx, |plan.offers|)
  {
    SpendsExactly(w, tx, op, plan, a);
    DistinctCount(plan.offers);
    SeqSetSize(plan.review.foreign);
    assert OfferOutpoints(plan.offers) <= (set o | o in plan.review.foreign);
    SubsetSizes(OfferOutpoints(plan.offers), set o | o in plan.review.foreign);
    assert KindOk(w, tx, SwapTake);
    hide InputsOk, OutputsOk, ListsDeltas, DeltasAre, FeeOf, WalletCoinsIn, WalletCoinsOut, Total, ExternalOutputs,
        Outpoints, Payments;
    hide MakerPayments, MakersFirst, Gives, Wants, DistinctOffers, OfferOutpoints, TxConfidential;
  }
}
