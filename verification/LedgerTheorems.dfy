/** What an accepted transaction does on the ledger, read off its own fields. */
module LedgerTheorems {
  import opened Common
  import opened Coins
  import opened Pset
  import opened Operations
  import opened ReviewTheorems
  import Review

  // ---- Inputs ------------------------------------------------------------------------------------

  /** The output an input spends, as the ledger holds it. */
  function SpentBy(input: Input): TxOut {
    match input.prevout
    case Some(Explicit(asset, amount, script)) => TxOut(asset, amount, script)
    case Some(Confidential(asset, amount, script)) => TxOut(asset, amount, script)
    case _ => TxOut(0, 0, Empty)
  }

  function CreatedBy(output: Output): TxOut {
    TxOut(output.asset.GetOr(0), output.amount.GetOr(0), output.script)
  }

  /** The declared coin is the spent one: in the clear and without proofs, or hidden and proven. */
  predicate DeclaresSpent(input: Input) {
    var coin := SpentBy(input);
    && input.asset == Some(coin.asset) && input.amount == Some(coin.amount) && 0 < coin.amount <= 2_100_000_000_000_000
    && input.prevout.Some? && input.cleanPrevout && input.plain
    && (if input.prevout.value.Explicit? then !input.valueProof && !input.assetProof
        else input.prevout.value.Confidential? && input.valueProof && input.assetProof)
  }

  /** To be signed by the wallet: the key of the spent script, derived by the one path claimed, with this flag. */
  predicate ToSign(input: Input, flag: Sighash) {
    && OwnScript(SpentBy(input).script)
    && input.derivations == [Derivation(true, SpentBy(input).script.key, Some(SpentBy(input).script.key))]
    && input.sighash == Some(flag) && input.final.None?
  }

  /** Signed by somebody else, and nothing for the wallet to sign. */
  predicate SignedAlready(input: Input) {
    && SpentBy(input).script.P2wpkh? && input.derivations == [] && input.sighash.None? && input.final.Some?
  }

  /** An issuance on an input: none at all, or all in the clear, of amounts of money, under a contract. */
  predicate IssuesMoney(input: Input) {
    match input.issuance
    case NoIssuance => true
    case PartialIssuance => false
    case FullIssuance(explicit, amount, tokens, contract) =>
      && explicit && amount.Some? && 0 < amount.value <= 2_100_000_000_000_000 && contract.Some?
      && (tokens.Some? ==> 0 < tokens.value <= 2_100_000_000_000_000)
  }

  lemma InputMeans(kind: Kind, confidential: bool, input: Input, first: bool)
    requires InputOk(kind, confidential, input, first)
    ensures DeclaresSpent(input) && InCoin(input) == Coin(SpentBy(input).asset, SpentBy(input).amount)
    ensures IsWalletInput(input) ==> ToSign(input, if kind.SwapOffer? then SingleAnyoneCanPay else All)
    ensures !IsWalletInput(input) ==> kind.SwapTake? && SignedAlready(input)
    ensures IssuesMoney(input) && (input.issuance.NoIssuance? || (kind.Issuance? && first))
  {
    assert IsWalletInput(input) ==> input.derivations == [input.derivations[0]];
  }

  lemma {:induction false} OutpointSorted(inputs: seq<Input>, i: nat)
    requires i < |inputs|
    ensures inputs[i].outpoint in Outpoints(inputs, inputs[i].derivations != [])
  {
    if i < |inputs| - 1 { OutpointSorted(inputs[..|inputs| - 1], i); }
  }

  lemma {:induction false} OutpointListed(inputs: seq<Input>, wallet: bool, o: OutPoint)
    requires o in Outpoints(inputs, wallet)
    ensures exists i :: 0 <= i < |inputs| && inputs[i].outpoint == o && (inputs[i].derivations != [] <==> wallet)
  {
    var front, last := inputs[..|inputs| - 1], inputs[|inputs| - 1];
    if o in Outpoints(front, wallet) {
      OutpointListed(front, wallet, o);
      var i :| 0 <= i < |front| && front[i].outpoint == o && (front[i].derivations != [] <==> wallet);
      assert inputs[i] == front[i];
    } else {
      assert inputs[|inputs| - 1].outpoint == o;
    }
  }

  /** Every input of an accepted transaction declares exactly the coin it spends. It is listed to be signed, with a
      script, key, path and flag of this wallet, or it is a maker's in a take, signed already. */
  lemma EveryInputSorted(w: Wallet, tx: Transaction, kind: Kind, i: nat)
    requires Accepts(w, tx, kind) && i < |tx.inputs|
    ensures var input := tx.inputs[i];
            && DeclaresSpent(input)
            && (if input.outpoint in Outpoints(tx.inputs, true)
                then ToSign(input, if kind.SwapOffer? then SingleAnyoneCanPay else All)
                else kind.SwapTake? && input.outpoint in Outpoints(tx.inputs, false) && SignedAlready(input))
            && (input.prevout.value.Confidential? ==> !kind.SwapOffer? && !kind.SwapTake? && tx.amountProofs)
            && IssuesMoney(input) && (input.issuance.NoIssuance? || (kind.Issuance? && i == 0))
    ensures forall j :: 0 <= j < |tx.inputs| && j != i ==> tx.inputs[j].outpoint != tx.inputs[i].outpoint
  {
    var input := tx.inputs[i];
    assert InputOk(kind, TxConfidential(tx), input, i == 0) && DistinctInputs(tx.inputs) by {
      hide InputOk, OutputsOk, KindOk, TxConfidential;
    }
    assert InputConfidential(input) ==> TxConfidential(tx);
    assert TxConfidential(tx) ==> !kind.SwapOffer? && !kind.SwapTake? && tx.amountProofs by {
      hide InputsOk, OutputsOk, KindOk, TxConfidential;
    }
    InputMeans(kind, TxConfidential(tx), input, i == 0);
    OutpointSorted(tx.inputs, i);
    hide Accepts, InputOk, TxConfidential, Outpoints, ToSign, SignedAlready, IssuesMoney;
    if input.outpoint in Outpoints(tx.inputs, true) {
      OutpointListed(tx.inputs, true, input.outpoint);
    }
  }

  // ---- Balances --------------------------------------------------------------------------------------

  function SpentOutputs(inputs: seq<Input>): seq<TxOut> {
    seq(|inputs|, i requires 0 <= i < |inputs| => SpentBy(inputs[i]))
  }

  function CreatedOutputs(outputs: seq<Output>): seq<TxOut> {
    seq(|outputs|, v requires 0 <= v < |outputs| => CreatedBy(outputs[v]))
  }

  /** The payments a review lists, as outputs. */
  function ListedOutputs(external: seq<ExternalOutput>): seq<TxOut> {
    seq(|external|, i requires 0 <= i < |external| =>
      TxOut(external[i].asset, external[i].amount, external[i].address.script))
  }

  /** The inputs that claim no path: in a take, those of the makers. */
  function Unclaimed(inputs: seq<Input>): seq<Input> {
    if inputs == [] then []
    else
      var last := inputs[|inputs| - 1];
      Unclaimed(inputs[..|inputs| - 1]) + (if last.derivations == [] then [last] else [])
  }

  /** The inputs that claim a path: those the wallet is asked to sign. */
  function Claimed(inputs: seq<Input>): seq<Input> {
    if inputs == [] then []
    else
      var last := inputs[|inputs| - 1];
      Claimed(inputs[..|inputs| - 1]) + (if last.derivations != [] then [last] else [])
  }

  /** What the scripts of this wallet hold of an asset. */
  function Balance(outs: seq<TxOut>, a: Asset): nat {
    if outs == [] then 0
    else Balance(outs[..|outs| - 1], a) + Held(outs[|outs| - 1], a)
  }

  function Held(out: TxOut, a: Asset): nat {
    if OwnScript(out.script) && out.asset == a then out.amount else 0
  }

  lemma BalanceSnoc(outs: seq<TxOut>, out: TxOut, a: Asset)
    ensures Balance(outs + [out], a) == Balance(outs, a) + Held(out, a)
  {
    assert (outs + [out])[..|outs|] == outs;
  }

  lemma SpentSnoc(inputs: seq<Input>)
    requires inputs != []
    ensures SpentOutputs(inputs) == SpentOutputs(inputs[..|inputs| - 1]) + [SpentBy(inputs[|inputs| - 1])]
  {
    hide SpentBy;
  }

  /** Before: what the wallet's own inputs bring, and what unclaimed ones take from its scripts. */
  lemma {:induction false} BalanceBefore(kind: Kind, confidential: bool, inputs: seq<Input>, a: Asset)
    requires forall i :: 0 <= i < |inputs| ==> InputOk(kind, confidential, inputs[i], i == 0)
    ensures Balance(SpentOutputs(inputs), a)
         == Total(WalletCoinsIn(inputs), a) + Balance(SpentOutputs(Unclaimed(inputs)), a)
  {
    if inputs != [] {
      var front, last := inputs[..|inputs| - 1], inputs[|inputs| - 1];
      BalanceBefore(kind, confidential, front, a);
      InputMeans(kind, confidential, last, |inputs| == 1);
      OwnedInStep(inputs, a);
      SpentSnoc(inputs);
      BalanceSnoc(SpentOutputs(front), SpentBy(last), a);
      UnclaimedStep(inputs, a);
      hide Balance, SpentOutputs, Unclaimed, SpentBy, InputOk, WalletCoinsIn, Total;
    }
  }

  lemma UnclaimedStep(inputs: seq<Input>, a: Asset)
    requires inputs != []
    ensures Balance(SpentOutputs(Unclaimed(inputs)), a)
         == Balance(SpentOutputs(Unclaimed(inputs[..|inputs| - 1])), a)
            + (if inputs[|inputs| - 1].derivations == [] then Held(SpentBy(inputs[|inputs| - 1]), a) else 0)
  {
    var rest, last := Unclaimed(inputs[..|inputs| - 1]), inputs[|inputs| - 1];
    Review.Snoc(rest, last);
    SpentSnoc(rest + [last]);
    BalanceSnoc(SpentOutputs(rest), SpentBy(last), a);
    assert rest + [] == rest;
    hide Balance, SpentBy, SpentOutputs, Held;
  }

  lemma ClaimedStep(inputs: seq<Input>, a: Asset)
    requires inputs != []
    ensures Balance(SpentOutputs(Claimed(inputs)), a)
         == Balance(SpentOutputs(Claimed(inputs[..|inputs| - 1])), a)
            + (if inputs[|inputs| - 1].derivations != [] then Held(SpentBy(inputs[|inputs| - 1]), a) else 0)
  {
    var rest, last := Claimed(inputs[..|inputs| - 1]), inputs[|inputs| - 1];
    Review.Snoc(rest, last);
    SpentSnoc(rest + [last]);
    BalanceSnoc(SpentOutputs(rest), SpentBy(last), a);
    assert rest + [] == rest;
    hide Balance, SpentBy, SpentOutputs, Held;
  }

  /** What the wallet signs for is all on its scripts. */
  lemma {:induction false} ClaimedBalance(kind: Kind, confidential: bool, inputs: seq<Input>, a: Asset)
    requires forall i :: 0 <= i < |inputs| ==> InputOk(kind, confidential, inputs[i], i == 0)
    ensures Balance(SpentOutputs(Claimed(inputs)), a) == Total(WalletCoinsIn(inputs), a)
  {
    if inputs == [] {
      assert SpentOutputs([]) == [];
    } else {
      var front, last := inputs[..|inputs| - 1], inputs[|inputs| - 1];
      ClaimedBalance(kind, confidential, front, a);
      InputMeans(kind, confidential, last, |inputs| == 1);
      OwnedInStep(inputs, a);
      ClaimedStep(inputs, a);
      hide Balance, SpentOutputs, Claimed, SpentBy, InputOk, WalletCoinsIn, Total;
    }
  }

  lemma CreatedSnoc(outputs: seq<Output>)
    requires outputs != []
    ensures CreatedOutputs(outputs) == CreatedOutputs(outputs[..|outputs| - 1]) + [CreatedBy(outputs[|outputs| - 1])]
  {
    hide CreatedBy;
  }

  lemma ListedStep(outputs: seq<Output>, a: Asset)
    requires outputs != []
    ensures var front, last := outputs[..|outputs| - 1], outputs[|outputs| - 1];
            (Balance(ListedOutputs(ExternalOutputs(outputs)), a)
             == Balance(ListedOutputs(ExternalOutputs(front)), a)
                + (if last.script != Empty && !IsWalletOutput(last) then Held(CreatedBy(last), a) else 0))
  {
    var front, last := outputs[..|outputs| - 1], outputs[|outputs| - 1];
    var external := ExternalOutputs(front);
    assert external + [] == external;
    assert ListedOutputs(external + [ExternalOf(last)]) == ListedOutputs(external) + [CreatedBy(last)];
    BalanceSnoc(ListedOutputs(external), CreatedBy(last), a);
    hide Balance, Held, IsWalletOutput, ListedOutputs;
  }

  /** After: the wallet's own coins, and what is paid to its scripts as if to others. */
  lemma {:induction false} BalanceAfter(w: Wallet, outputs: seq<Output>, count: nat, inputs: nat, a: Asset)
    requires OutputsOk(w, outputs, count, inputs)
    ensures Balance(CreatedOutputs(outputs), a)
         == Total(WalletCoinsOut(outputs), a) + Balance(ListedOutputs(ExternalOutputs(outputs)), a)
  {
    if outputs != [] {
      var front, last := outputs[..|outputs| - 1], outputs[|outputs| - 1];
      Review.OutputsOkPrefix(w, outputs, count, inputs, |outputs| - 1);
      BalanceAfter(w, front, count, inputs, a);
      assert OutputOk(w, last, |outputs| == count, inputs);
      OutputSorted(w, last, |outputs| == count, inputs);
      CoinsOutStep(outputs, a);
      CreatedSnoc(outputs);
      BalanceSnoc(CreatedOutputs(front), CreatedBy(last), a);
      ListedStep(outputs, a);
      hide Balance, CreatedOutputs, ListedOutputs, ExternalOutputs, WalletCoinsOut, CoinsOut, FeeCoins, Total, OutputOk,
          OutputsOk, IsWalletOutput;
    }
  }

  /** On the ledger an approved transaction costs the scripts of this wallet the requested effect and the reviewed
      fee, but for what it takes from them unclaimed and pays them as if to others. */
  lemma LedgerEffect(w: Wallet, tx: Transaction, op: Operation, plan: PreparedPlan, a: Asset)
    requires Approved(w, tx, op, plan)
    ensures Balance(SpentOutputs(tx.inputs), a) + Balance(ListedOutputs(plan.review.external), a)
         == Balance(CreatedOutputs(tx.outputs), a) + Balance(SpentOutputs(Unclaimed(tx.inputs)), a)
            + (if a == w.policy then plan.review.fee else 0) - Effect(op, plan, a)
  {
    ApprovedParts(w, tx, op, plan);
    hide *;
    SpendsExactly(w, tx, op, plan, a);
    BalanceBefore(plan.review.kind, TxConfidential(tx), tx.inputs, a);
    BalanceAfter(w, tx.outputs, |tx.outputs|, |tx.inputs|, a);
  }

  lemma ApprovedParts(w: Wallet, tx: Transaction, op: Operation, plan: PreparedPlan)
    requires Approved(w, tx, op, plan)
    ensures Accepts(w, tx, plan.review.kind) && StructureOk(op, plan)
    ensures forall i :: 0 <= i < |tx.inputs| ==> InputOk(plan.review.kind, TxConfidential(tx), tx.inputs[i], i == 0)
    ensures OutputsOk(w, tx.outputs, |tx.outputs|, |tx.inputs|)
    ensures plan.review.fee == FeeOf(tx.outputs) && plan.review.external == ExternalOutputs(tx.outputs)
    ensures plan.review.signed == Outpoints(tx.inputs, true) && plan.review.foreign == Outpoints(tx.inputs, false)
    ensures plan.review.issuance == IssuanceOfTx(w, tx.inputs)
    ensures plan.review.kind.SwapOffer? || 0 < plan.review.fee <= op.feeRate * 100_000
  {
    hide InputOk, OutputOk, KindOk, ListsDeltas, DeltasAre, TxConfidential, FeeOf, ExternalOutputs, Outpoints,
        StructureOk, Conserves, Bounded;
  }

  // ---- The fee ------------------------------------------------------------------------------------------

  lemma {:induction false} NoFeeCounted(outputs: seq<Output>)
    requires forall v :: 0 <= v < |outputs| ==> outputs[v].script != Empty
    ensures FeeOutputs(outputs) == 0
  {
    if outputs != [] { NoFeeCounted(outputs[..|outputs| - 1]); }
  }

  /** Amounts are of money; what is blinded is proven, against a blinder among the inputs. */
  predicate DeclaresCreated(output: Output, inputs: nat) {
    && output.plain && output.asset.Some? && output.amount.Some? && 0 < output.amount.value <= 2_100_000_000_000_000
    && (output.blinding.Blinded? ==>
          && output.blinding.proven && output.blinding.blinderIndex.Some?
          && output.blinding.blinderIndex.value < inputs)
  }

  /** An accepted transaction other than an offer ends with its one fee output; every amount it creates is declared,
      and proven where it is hidden. */
  lemma OutputsDeclared(w: Wallet, tx: Transaction, kind: Kind)
    requires Accepts(w, tx, kind)
    ensures forall v :: 0 <= v < |tx.outputs| ==> DeclaresCreated(tx.outputs[v], |tx.inputs|)
    ensures forall v :: 0 <= v < |tx.outputs| && tx.outputs[v].blinding.Blinded? ==>
              !kind.SwapOffer? && !kind.SwapTake? && tx.amountProofs
    ensures forall v :: 0 <= v < |tx.outputs| - 1 ==> tx.outputs[v].script != Empty
    ensures !kind.SwapOffer? ==> PaysFee(w, tx.outputs[|tx.outputs| - 1], FeeOf(tx.outputs))
  {
    var last := |tx.outputs| - 1;
    forall v | 0 <= v < |tx.outputs|
      ensures OutputOk(w, tx.outputs[v], v == last, |tx.inputs|)
    {
      hide OutputOk, InputsOk, KindOk, TxConfidential;
    }
    if !kind.SwapOffer? {
      if tx.outputs[last].script != Empty { NoFeeCounted(tx.outputs); }
      OutputSorted(w, tx.outputs[last], true, |tx.inputs|);
    }
    hide InputsOk, OutputsOk, KindOk, IsWalletOutput, FeeOutputs, InputConfidential;
  }

  // ---- Each operation ------------------------------------------------------------------------------------

  lemma {:induction false} NoneUnclaimed(inputs: seq<Input>)
    requires Outpoints(inputs, false) == []
    ensures Unclaimed(inputs) == [] && forall i :: 0 <= i < |inputs| ==> inputs[i].outpoint in Outpoints(inputs, true)
  {
    if inputs != [] { NoneUnclaimed(inputs[..|inputs| - 1]); }
  }

  /** Every input is this wallet's, for the wallet to sign as a whole. */
  lemma AllOwn(w: Wallet, tx: Transaction, kind: Kind)
    requires Accepts(w, tx, kind) && Outpoints(tx.inputs, false) == [] && !kind.SwapOffer?
    ensures forall i :: 0 <= i < |tx.inputs| ==> ToSign(tx.inputs[i], All)
    ensures forall a :: Balance(SpentOutputs(Unclaimed(tx.inputs)), a) == 0
  {
    NoneUnclaimed(tx.inputs);
    assert SpentOutputs([]) == [];
    hide *;
    forall i | 0 <= i < |tx.inputs|
      ensures ToSign(tx.inputs[i], All)
    {
      EveryInputSorted(w, tx, kind, i);
    }
    forall a
      ensures Balance([], a) == 0
    {
      BalanceNone(a);
    }
  }

  lemma BalanceNone(a: Asset)
    ensures Balance([], a) == 0 && ListedOutputs([]) == []
  {}

  lemma BalanceOne(out: TxOut, a: Asset)
    ensures Balance([out], a) == Held(out, a)
  {
    BalanceNone(a);
    BalanceSnoc([], out, a);
    assert [] + [out] == [out];
    hide Balance, Held;
  }

  /** An approved transfer: all inputs are this wallet's, and its scripts lose the fee and the amount, nothing else;
      the amount stays when the recipient is one of them. */
  lemma TransferLedger(w: Wallet, tx: Transaction, op: Operation, plan: PreparedPlan)
    requires Approved(w, tx, op, plan) && op.TransferOp?
    ensures forall i :: 0 <= i < |tx.inputs| ==> ToSign(tx.inputs[i], All)
    ensures forall a :: Balance(SpentOutputs(tx.inputs), a) - Balance(CreatedOutputs(tx.outputs), a)
                     == (if a == w.policy then plan.review.fee else 0)
                        + (if a == op.asset && !OwnScript(op.recipient.script) then op.amount else 0)
    ensures PaysFee(w, tx.outputs[|tx.outputs| - 1], plan.review.fee) && 0 < plan.review.fee <= op.feeRate * 100_000
  {
    ApprovedParts(w, tx, op, plan);
    TransferListed(op, plan);
    hide *;
    AllOwn(w, tx, plan.review.kind);
    OutputsDeclared(w, tx, plan.review.kind);
    forall a
      ensures Balance(SpentOutputs(tx.inputs), a) - Balance(CreatedOutputs(tx.outputs), a)
           == (if a == w.policy then plan.review.fee else 0)
              + (if a == op.asset && !OwnScript(op.recipient.script) then op.amount else 0)
    {
      LedgerEffect(w, tx, op, plan, a);
      BalanceOne(TxOut(op.asset, op.amount, op.recipient.script), a);
      EffectOfTransfer(op, plan, a);
    }
  }

  lemma TransferListed(op: Operation, plan: PreparedPlan)
    requires op.TransferOp? && StructureOk(op, plan)
    ensures plan.review.foreign == [] && !plan.review.kind.SwapOffer?
    ensures ListedOutputs(plan.review.external) == [TxOut(op.asset, op.amount, op.recipient.script)]
  {
    OnePayment(plan.review.external, Payment(op.recipient, op.asset, op.amount));
  }

  lemma EffectOfTransfer(op: Operation, plan: PreparedPlan, a: Asset)
    requires op.TransferOp?
    ensures Effect(op, plan, a) + Held(TxOut(op.asset, op.amount, op.recipient.script), a)
         == if a == op.asset && !OwnScript(op.recipient.script) then -(op.amount as int) else 0
  {}

  /** An approved cancel, or the split before an offer, costs this wallet's scripts the fee; every other output is
      the wallet's, and a cancel signs for the cancelled coin. */
  lemma SelfSendLedger(w: Wallet, tx: Transaction, op: Operation, plan: PreparedPlan)
    requires Approved(w, tx, op, plan) && (op.CancelOp? || (op.SwapOfferOp? && plan.offered.SplitFirst?))
    ensures forall i :: 0 <= i < |tx.inputs| ==> ToSign(tx.inputs[i], All)
    ensures forall v :: 0 <= v < |tx.outputs| - 1 ==> PaysWallet(w, tx.outputs[v])
    ensures forall a :: Balance(SpentOutputs(tx.inputs), a) - Balance(CreatedOutputs(tx.outputs), a)
                     == if a == w.policy then plan.review.fee else 0
    ensures PaysFee(w, tx.outputs[|tx.outputs| - 1], plan.review.fee) && 0 < plan.review.fee <= op.feeRate * 100_000
    ensures op.CancelOp? ==> exists i :: 0 <= i < |tx.inputs| && tx.inputs[i].outpoint == op.outpoint
  {
    ApprovedParts(w, tx, op, plan);
    assert plan.review.foreign == [] && plan.review.external == [] && !plan.review.kind.SwapOffer?
        && (op.CancelOp? ==> op.outpoint in plan.review.signed);
    assert forall a :: Effect(op, plan, a) == 0;
    hide *;
    AllOwn(w, tx, plan.review.kind);
    OutputsDeclared(w, tx, plan.review.kind);
    OthersOwn(w, tx, op, plan);
    forall a
      ensures Balance(SpentOutputs(tx.inputs), a) - Balance(CreatedOutputs(tx.outputs), a)
           == if a == w.policy then plan.review.fee else 0
    {
      LedgerEffect(w, tx, op, plan, a);
      BalanceNone(a);
    }
    if op.CancelOp? { OutpointListed(tx.inputs, true, op.outpoint); }
  }

  /** Without listed payments every output but the last is the wallet's. */
  lemma OthersOwn(w: Wallet, tx: Transaction, op: Operation, plan: PreparedPlan)
    requires Approved(w, tx, op, plan) && plan.review.external == []
    ensures forall v :: 0 <= v < |tx.outputs| - 1 ==> PaysWallet(w, tx.outputs[v])
  {
    hide *;
    forall v | 0 <= v < |tx.outputs| - 1
      ensures PaysWallet(w, tx.outputs[v])
    {
      EveryOutputAccounted(w, tx, op, plan, v);
    }
  }

  /** The issuance of exactly these amounts, in the clear, under some contract. */
  predicate IssuesAs(input: Input, issued: nat, tokens: nat, contract: nat) {
    input.issuance == FullIssuance(true, Some(issued), if tokens > 0 then Some(tokens) else None, Some(contract))
  }

  /** An approved issuance issues exactly what was asked for, at the first input alone, and this wallet's scripts
      gain all of it, less the fee. */
  lemma IssuanceLedger(w: Wallet, tx: Transaction, op: Operation, plan: PreparedPlan)
    returns (contract: nat)
    requires Approved(w, tx, op, plan) && op.IssuanceOp?
    ensures tx.inputs != [] && IssuesAs(tx.inputs[0], op.issued, op.tokens, contract)
    ensures 0 < op.issued <= 2_100_000_000_000_000 && op.tokens <= 2_100_000_000_000_000
    ensures forall i :: 0 < i < |tx.inputs| ==> tx.inputs[i].issuance.NoIssuance?
    ensures forall i :: 0 <= i < |tx.inputs| ==> ToSign(tx.inputs[i], All)
    ensures forall v :: 0 <= v < |tx.outputs| - 1 ==> PaysWallet(w, tx.outputs[v])
    ensures var (asset, token) := w.ids(tx.inputs[0].outpoint, contract);
            forall a :: Balance(CreatedOutputs(tx.outputs), a) - Balance(SpentOutputs(tx.inputs), a)
                     == (if op.tokens > 0 && a == token then op.tokens else if a == asset then op.issued else 0)
                        - if a == w.policy then plan.review.fee else 0
    ensures PaysFee(w, tx.outputs[|tx.outputs| - 1], plan.review.fee) && 0 < plan.review.fee <= op.feeRate * 100_000
  {
    ApprovedParts(w, tx, op, plan);
    AcceptedCounts(w, tx, plan.review.kind);
    var first := tx.inputs[0];
    contract := first.issuance.contract.GetOr(0);
    assert plan.review.foreign == [] && plan.review.external == [] && !plan.review.kind.SwapOffer?;
    IssuanceListed(w, first, op, plan, TxConfidential(tx));
    hide *;
    AllOwn(w, tx, plan.review.kind);
    OutputsDeclared(w, tx, plan.review.kind);
    OthersOwn(w, tx, op, plan);
    forall i | 0 < i < |tx.inputs|
      ensures tx.inputs[i].issuance.NoIssuance?
    {
      EveryInputSorted(w, tx, plan.review.kind, i);
    }
    forall a
      ensures Balance(CreatedOutputs(tx.outputs), a) - Balance(SpentOutputs(tx.inputs), a)
           == Effect(op, plan, a) - if a == w.policy then plan.review.fee else 0
    {
      LedgerEffect(w, tx, op, plan, a);
      BalanceNone(a);
    }
  }

  lemma AcceptedCounts(w: Wallet, tx: Transaction, kind: Kind)
    requires Accepts(w, tx, kind)
    ensures 0 < |tx.inputs| <= 256 && 0 < |tx.outputs| <= 256 && tx.plainGlobals && tx.standard
    ensures tx.genesis == Some(w.genesis)
  {
    hide InputsOk, OutputsOk, KindOk, TxConfidential;
  }

  lemma IssuanceListed(w: Wallet, first: Input, op: Operation, plan: PreparedPlan, confidential: bool)
    requires op.IssuanceOp? && StructureOk(op, plan) && InputOk(plan.review.kind, confidential, first, true)
    requires plan.review.issuance == IssuanceReviewOf(w, first)
    ensures var contract := first.issuance.contract.GetOr(0);
            var (asset, token) := w.ids(first.outpoint, contract);
            && IssuesAs(first, op.issued, op.tokens, contract)
            && 0 < op.issued <= 2_100_000_000_000_000 && op.tokens <= 2_100_000_000_000_000
            && forall a :: Effect(op, plan, a)
                        == if op.tokens > 0 && a == token then op.tokens else if a == asset then op.issued else 0
  {
    hide CoinOk, OwnerOk;
  }

  // ---- Offers ------------------------------------------------------------------------------------------------

  /** One coin of this wallet, to be signed so that others may add to it, against one coin for this wallet. */
  predicate Exchanges(w: Wallet, tx: Transaction, o: OutPoint, give: Coin, want: Coin) {
    && |tx.inputs| == 1 && tx.inputs[0].outpoint == o && ToSign(tx.inputs[0], SingleAnyoneCanPay)
    && tx.inputs[0].prevout == Some(Explicit(give.asset, give.amount, SpentBy(tx.inputs[0]).script))
    && |tx.outputs| == 1 && PaysWallet(w, tx.outputs[0]) && tx.outputs[0].blinding.NotBlinded?
    && tx.outputs[0].asset == Some(want.asset) && tx.outputs[0].amount == Some(want.amount)
  }

  /** A transaction whose offer review passed, made directly or after a split, exchanges exactly the coin offered
      for exactly the coin wanted. */
  lemma OfferLedger(w: Wallet, tx: Transaction, op: Operation, plan: PreparedPlan)
    requires op.SwapOfferOp? && OfferStructure(plan.review, plan.offered) && DeltasAre(plan.review, op, plan)
    requires Accepts(w, tx, plan.review.kind) && Describes(w, tx, plan.review.kind, plan.review)
    ensures Exchanges(w, tx, plan.offered.outpoint, Coin(op.giveAsset, op.giveAmount),
        Coin(op.wantAsset, op.wantAmount))
  {
    OfferListed(w, tx, plan.review, plan.offered);
    var input, output := tx.inputs[0], tx.outputs[0];
    OfferGain(w, tx, op, plan, SpentBy(input).asset);
    OfferGain(w, tx, op, plan, CreatedBy(output).asset);
    OfferGain(w, tx, op, plan, op.wantAsset);
    OfferGain(w, tx, op, plan, op.giveAsset);
    hide *;
    ToSignIs(input, SingleAnyoneCanPay);
    OfferSides(op, plan, input, output);
    ExchangesIs(w, tx, plan.offered.outpoint, Coin(op.giveAsset, op.giveAmount), Coin(op.wantAsset, op.wantAmount));
  }

  lemma ToSignIs(input: Input, flag: Sighash)
    requires ToSign(input, flag)
    ensures OwnScript(SpentBy(input).script)
  {}

  lemma ExchangesIs(w: Wallet, tx: Transaction, o: OutPoint, give: Coin, want: Coin)
    requires |tx.inputs| == 1 && tx.inputs[0].outpoint == o && ToSign(tx.inputs[0], SingleAnyoneCanPay)
    requires tx.inputs[0].prevout.Some? && tx.inputs[0].prevout.value.Explicit?
    requires SpentBy(tx.inputs[0]).asset == give.asset && SpentBy(tx.inputs[0]).amount == give.amount
    requires |tx.outputs| == 1 && PaysWallet(w, tx.outputs[0]) && tx.outputs[0].blinding.NotBlinded?
    requires tx.outputs[0].asset == Some(want.asset) && tx.outputs[0].amount == Some(want.amount)
    ensures Exchanges(w, tx, o, give, want)
  {
    hide ToSign, PaysWallet;
  }

  lemma OfferListed(w: Wallet, tx: Transaction, review: TxReview, offered: Offered)
    requires OfferStructure(review, offered)
    requires Accepts(w, tx, review.kind) && Describes(w, tx, review.kind, review)
    ensures |tx.inputs| == 1 && tx.inputs[0].outpoint == offered.outpoint
    ensures ToSign(tx.inputs[0], SingleAnyoneCanPay) && DeclaresSpent(tx.inputs[0])
    ensures tx.inputs[0].prevout.value.Explicit?
    ensures |tx.outputs| == 1 && PaysWallet(w, tx.outputs[0]) && tx.outputs[0].blinding.NotBlinded?
    ensures DeclaresCreated(tx.outputs[0], 1) && tx.inputs[0].asset != tx.outputs[0].asset
    ensures FeeOf(tx.outputs) == 0 && Outpoints(tx.inputs, false) == [] && ExternalOutputs(tx.outputs) == []
  {
    assert KindOk(w, tx, SwapOffer) && review.signed == Outpoints(tx.inputs, true)
        && review.foreign == Outpoints(tx.inputs, false) && review.external == ExternalOutputs(tx.outputs) by {
      hide InputsOk, OutputsOk, ListsDeltas, TxConfidential;
    }
    assert tx.outputs[0].script != Empty && IsWalletOutput(tx.outputs[0]) by {
      assert tx.outputs[..0] == [];
    }
    NoneUnclaimed(tx.inputs);
    EveryInputSorted(w, tx, SwapOffer, 0);
    OutputsDeclared(w, tx, SwapOffer);
    assert OutputOk(w, tx.outputs[0], true, |tx.inputs|) by {
      hide InputsOk, ListsDeltas, TxConfidential, OutputOk;
    }
    OutputSorted(w, tx.outputs[0], true, |tx.inputs|);
    hide Accepts, Describes, OutputOk, IsWalletOutput, Outpoints, ExternalOutputs, ToSign, DeclaresCreated, PaysWallet;
  }

  /** What the offer gains of an asset is the requested effect. */
  lemma OfferGain(w: Wallet, tx: Transaction, op: Operation, plan: PreparedPlan, a: Asset)
    requires op.SwapOfferOp? && OfferStructure(plan.review, plan.offered) && DeltasAre(plan.review, op, plan)
    requires Accepts(w, tx, plan.review.kind) && Describes(w, tx, plan.review.kind, plan.review)
    requires |tx.inputs| == 1 && |tx.outputs| == 1
    ensures Held(CreatedBy(tx.outputs[0]), a) - Held(SpentBy(tx.inputs[0]), a) == Effect(op, plan, a)
  {
    OfferListed(w, tx, plan.review, plan.offered);
    AcceptedParts(w, tx, plan.review.kind);
    assert GetInt(plan.review.changes, a) == Effect(op, plan, a);
    assert ListsDeltas(w, tx, plan.review.changes) by {
      hide Accepts, ListsDeltas;
    }
    DeltaIs(w, tx, a);
    assert SpentOutputs(tx.inputs) == [SpentBy(tx.inputs[0])];
    assert CreatedOutputs(tx.outputs) == [CreatedBy(tx.outputs[0])];
    hide *;
    ChangesAre(w, tx, plan.review.changes, a);
    BalanceBefore(plan.review.kind, TxConfidential(tx), tx.inputs, a);
    BalanceAfter(w, tx.outputs, |tx.outputs|, |tx.inputs|, a);
    NoneUnclaimed(tx.inputs);
    NoOutputs();
    BalanceNone(a);
    BalanceOne(SpentBy(tx.inputs[0]), a);
    BalanceOne(CreatedBy(tx.outputs[0]), a);
  }

  lemma NoOutputs()
    ensures SpentOutputs([]) == []
  {}

  lemma DeltaIs(w: Wallet, tx: Transaction, a: Asset)
    ensures Delta(w, tx, a) == Total(WalletCoinsOut(tx.outputs), a) - Total(WalletCoinsIn(tx.inputs), a)
        + (if a == w.policy then FeeOf(tx.outputs) else 0)
  {}

  lemma AcceptedParts(w: Wallet, tx: Transaction, kind: Kind)
    requires Accepts(w, tx, kind)
    ensures forall i :: 0 <= i < |tx.inputs| ==> InputOk(kind, TxConfidential(tx), tx.inputs[i], i == 0)
    ensures OutputsOk(w, tx.outputs, |tx.outputs|, |tx.inputs|)
  {
    hide InputOk, OutputOk, KindOk, TxConfidential, FeeOutputs, Outpoints, Conserves, Bounded;
  }

  /** Two different assets change, by positive amounts, as the request says. */
  lemma OfferSides(op: Operation, plan: PreparedPlan, input: Input, output: Output)
    requires op.SwapOfferOp? && plan.offered.Direct?
    requires OwnScript(SpentBy(input).script) && OwnScript(output.script)
    requires DeclaresSpent(input) && DeclaresCreated(output, 1) && input.asset != output.asset
    requires Held(CreatedBy(output), SpentBy(input).asset) - Held(SpentBy(input), SpentBy(input).asset)
          == Effect(op, plan, SpentBy(input).asset)
    requires Held(CreatedBy(output), CreatedBy(output).asset) - Held(SpentBy(input), CreatedBy(output).asset)
          == Effect(op, plan, CreatedBy(output).asset)
    ensures SpentBy(input).asset == op.giveAsset && SpentBy(input).amount == op.giveAmount
    ensures output.asset == Some(op.wantAsset) && output.amount == Some(op.wantAmount)
  {
    hide SpentBy;
  }

  /** Approving an offer of the coin `o` signs for `o` alone, against exactly what is wanted. */
  lemma OfferSigns(w: Wallet, tx: Transaction, op: Operation, plan: PreparedPlan, o: OutPoint)
    requires Approved(w, tx, op, plan) && op.SwapOfferOp? && plan.offered == Direct(o)
    ensures Exchanges(w, tx, o, Coin(op.giveAsset, op.giveAmount), Coin(op.wantAsset, op.wantAmount))
  {
    hide Accepts, Describes, OfferStructure, DeltasAre, Exchanges;
    OfferLedger(w, tx, op, plan);
  }

  // ---- Takes --------------------------------------------------------------------------------------------------

  /** A maker's half of a swap: its coin, in the clear, signed by the coin's key over the coin and over the output
      at the same position, and over nothing else. */
  predicate SignedPair(input: Input, output: Output) {
    && SignedAlready(input) && input.prevout.Some? && input.prevout.value.Explicit?
    && input.final == Some(FinalWitness(SpentBy(input).script.key, SingleAnyoneCanPay, input.outpoint,
        SpentBy(input).amount, CreatedBy(output)))
  }

  lemma PairSigned(tx: Transaction, i: nat)
    requires i < |tx.inputs| && MakerSigned(tx, i) && SignedAlready(tx.inputs[i])
    ensures SignedPair(tx.inputs[i], tx.outputs[i])
  {}

  lemma {:induction false} OwnersFrom(inputs: seq<Input>, n: nat)
    requires n <= |inputs| && |Outpoints(inputs, false)| == n
    requires forall i :: 0 <= i < n ==> inputs[i].derivations == []
    ensures forall i :: n <= i < |inputs| ==> inputs[i].derivations != []
    ensures Outpoints(inputs, false) == FirstOutpoints(inputs, n)
  {
    FirstForeign(inputs, n);
    ForeignGrow(inputs, n);
  }

  function FirstOutpoints(inputs: seq<Input>, n: nat): seq<OutPoint>
    requires n <= |inputs|
  {
    seq(n, i requires 0 <= i < n => inputs[i].outpoint)
  }

  lemma {:induction false} FirstForeign(inputs: seq<Input>, n: nat)
    requires n <= |inputs| && forall i :: 0 <= i < n ==> inputs[i].derivations == []
    ensures Outpoints(inputs[..n], false) == FirstOutpoints(inputs, n)
  {
    if n > 0 {
      FirstForeign(inputs, n - 1);
      assert inputs[..n][..n - 1] == inputs[..n - 1];
    }
  }

  /** Past `n` foreign outpoints the list grows by every unclaimed input. */
  lemma {:induction false} ForeignGrow(inputs: seq<Input>, n: nat)
    requires n <= |inputs|
    ensures Outpoints(inputs[..n], false) <= Outpoints(inputs, false)
    ensures |Outpoints(inputs, false)| == |Outpoints(inputs[..n], false)| ==>
              forall i :: n <= i < |inputs| ==> inputs[i].derivations != []
    decreases |inputs|
  {
    if n == |inputs| {
      assert inputs[..n] == inputs;
    } else {
      ForeignGrow(inputs[..|inputs| - 1], n);
      assert inputs[..|inputs| - 1][..n] == inputs[..n];
    }
  }

  /** What the offers want, as outputs. */
  function WantedOutputs(offers: seq<DecodedOffer>): seq<TxOut> {
    seq(|offers|, i requires 0 <= i < |offers| =>
      TxOut(offers[i].wantAsset, offers[i].wantAmount, offers[i].makerAddress.script))
  }

  function PaymentOutputs(payments: seq<Payment>): seq<TxOut> {
    seq(|payments|, i requires 0 <= i < |payments| =>
      TxOut(payments[i].asset, payments[i].amount, payments[i].address.script))
  }

  lemma PaymentOutputsAppend(left: seq<Payment>, right: seq<Payment>)
    ensures PaymentOutputs(left + right) == PaymentOutputs(left) + PaymentOutputs(right)
  {}

  lemma WithoutOne<T>(front: seq<T>, left: seq<T>, x: T, right: seq<T>)
    requires multiset(front + [x]) == multiset(left + [x] + right)
    ensures multiset(front) == multiset(left + right)
  {
    assert multiset(front + [x]) == multiset(front) + multiset{x};
    assert multiset(left + [x] + right) == multiset(left) + multiset{x} + multiset(right);
    assert multiset(left + right) == multiset(left) + multiset(right);
    assert multiset(front) == multiset(front) + multiset{x} - multiset{x};
  }

  /** The same payments in another order make the same outputs in another order. */
  lemma {:induction false} SamePayments(p: seq<Payment>, q: seq<Payment>)
    requires multiset(p) == multiset(q)
    ensures multiset(PaymentOutputs(p)) == multiset(PaymentOutputs(q))
  {
    assert |multiset(p)| == |p| && |multiset(q)| == |q|;
    if p != [] {
      var front, last := p[..|p| - 1], p[|p| - 1];
      assert p == front + [last] && p[|p| - 1] in multiset(p) && last in multiset(q);
      var j :| 0 <= j < |q| && q[j] == last;
      var left, right := q[..j], q[j + 1..];
      assert q == left + [last] + right;
      WithoutOne(front, left, last, right);
      SamePayments(front, left + right);
      PaymentOutputsAppend(front, [last]);
      PaymentOutputsAppend(left + [last], right);
      PaymentOutputsAppend(left, [last]);
      PaymentOutputsAppend(left, right);
      hide PaymentOutputs;
    }
  }

  lemma {:induction false} ListedAreCreated(outputs: seq<Output>)
    ensures multiset(ListedOutputs(ExternalOutputs(outputs))) <= multiset(CreatedOutputs(outputs))
  {
    if outputs != [] {
      var front, last := outputs[..|outputs| - 1], outputs[|outputs| - 1];
      ListedAreCreated(front);
      CreatedSnoc(outputs);
      var external := ExternalOutputs(front);
      assert external + [] == external;
      assert ListedOutputs(external + [ExternalOf(last)]) == ListedOutputs(external) + [CreatedBy(last)];
      hide ListedOutputs, CreatedOutputs, CreatedBy, IsWalletOutput, ExternalOf;
    }
  }

  lemma ListedArePayments(external: seq<ExternalOutput>, offers: seq<DecodedOffer>)
    ensures ListedOutputs(external) == PaymentOutputs(Payments(external))
    ensures WantedOutputs(offers) == PaymentOutputs(MakerPayments(offers))
  {}

  /** An approved take of distinct offers spends exactly the offered coins besides the wallet's own, in the clear,
      each with its maker's signature over the output beside it; it creates what every offer wants, counted with
      repetition, and all other outputs but the fee are the wallet's. */
  lemma TakeLedger(w: Wallet, tx: Transaction, op: Operation, plan: PreparedPlan)
    requires Approved(w, tx, op, plan) && op.SwapTakeOp? && DistinctOffers(plan.offers)
    ensures op.count == |plan.offers| < |tx.inputs| && |plan.offers| < |tx.outputs|
    ensures forall i :: 0 <= i < |plan.offers| ==> SignedPair(tx.inputs[i], tx.outputs[i])
    ensures forall i :: |plan.offers| <= i < |tx.inputs| ==> ToSign(tx.inputs[i], All)
    ensures (set i | 0 <= i < |plan.offers| :: tx.inputs[i].outpoint) == OfferOutpoints(plan.offers)
    ensures multiset(WantedOutputs(plan.offers)) <= multiset(CreatedOutputs(tx.outputs))
    ensures PaysFee(w, tx.outputs[|tx.outputs| - 1], plan.review.fee) && 0 < plan.review.fee <= op.feeRate * 100_000
    ensures forall v :: 0 <= v < |tx.outputs| - 1 ==>
              PaysWallet(w, tx.outputs[v]) || CreatedBy(tx.outputs[v]) in WantedOutputs(plan.offers)
  {
    ApprovedParts(w, tx, op, plan);
    TakeListed(w, tx, op, plan);
    hide *;
    TakePaysExactly(w, tx, op, plan, 0);
    TakeInputs(w, tx, plan.review.kind, |plan.offers|);
    SamePayments(Payments(plan.review.external), MakerPayments(plan.offers));
    ListedArePayments(plan.review.external, plan.offers);
    ListedAreCreated(tx.outputs);
    OutputsDeclared(w, tx, plan.review.kind);
    FirstsAre(tx.inputs, |plan.offers|);
    forall v | 0 <= v < |tx.outputs| - 1
      ensures PaysWallet(w, tx.outputs[v]) || CreatedBy(tx.outputs[v]) in WantedOutputs(plan.offers)
    {
      EveryOutputAccounted(w, tx, op, plan, v);
      if e :| e in plan.review.external && ShownAs(tx.outputs[v], e) {
        ShownIsListed(plan.review.external, e, tx.outputs[v]);
        assert CreatedBy(tx.outputs[v]) in multiset(ListedOutputs(plan.review.external));
        assert CreatedBy(tx.outputs[v]) in multiset(WantedOutputs(plan.offers));
      }
    }
  }

  lemma ShownIsListed(external: seq<ExternalOutput>, e: ExternalOutput, output: Output)
    requires e in external && ShownAs(output, e)
    ensures CreatedBy(output) in ListedOutputs(external)
  {
    var i :| 0 <= i < |external| && external[i] == e;
    assert ListedOutputs(external)[i] == CreatedBy(output);
  }

  lemma FirstsAre(inputs: seq<Input>, n: nat)
    requires n <= |inputs|
    ensures (set o | o in FirstOutpoints(inputs, n)) == (set i | 0 <= i < n :: inputs[i].outpoint)
  {
    forall o
      ensures o in FirstOutpoints(inputs, n) <==> exists i :: 0 <= i < n && inputs[i].outpoint == o
    {
      if i :| 0 <= i < n && inputs[i].outpoint == o {
        assert FirstOutpoints(inputs, n)[i] == o;
      }
    }
  }

  lemma TakeListed(w: Wallet, tx: Transaction, op: Operation, plan: PreparedPlan)
    requires Approved(w, tx, op, plan) && op.SwapTakeOp?
    ensures plan.review.kind == SwapTake && op.count == |plan.offers| == |Outpoints(tx.inputs, false)|
    ensures multiset(Payments(plan.review.external)) == multiset(MakerPayments(plan.offers))
    ensures MakersFirst(tx, |plan.offers|) && Outpoints(tx.inputs, true) != []
  {
    assert KindOk(w, tx, SwapTake) && Outpoints(tx.inputs, true) != [] by {
      hide InputsOk, OutputsOk, KindOk, Matches, Describes, TxConfidential, Outpoints, FeeOutputs, Conserves;
      assert plan.review.kind.SwapTake? by { MatchesTake(op, plan, w.genesis); }
    }
    hide InputsOk, OutputsOk, ListsDeltas, DeltasAre, ExternalOutputs, Outpoints, Payments, MakerPayments, MakersFirst,
        TxConfidential, Conserves, FeeOutputs;
  }

  lemma MatchesTake(op: Operation, plan: PreparedPlan, genesis: nat)
    requires Matches(op, plan, genesis) && op.SwapTakeOp?
    ensures plan.review.kind.SwapTake?
  {
    hide DeltasAre, Payments, MakerPayments;
  }

  lemma TakeInputs(w: Wallet, tx: Transaction, kind: Kind, n: nat)
    requires Accepts(w, tx, kind) && kind.SwapTake? && MakersFirst(tx, n) && |Outpoints(tx.inputs, false)| == n
    requires Outpoints(tx.inputs, true) != []
    ensures n < |tx.inputs| && n < |tx.outputs|
    ensures forall i :: 0 <= i < n ==> SignedPair(tx.inputs[i], tx.outputs[i])
    ensures forall i :: n <= i < |tx.inputs| ==> ToSign(tx.inputs[i], All)
    ensures Outpoints(tx.inputs, false) == FirstOutpoints(tx.inputs, n)
  {
    assert forall i :: 0 <= i < n ==> !IsWalletInput(tx.inputs[i]);
    Review.OwnersCount(tx.inputs);
    OwnersFrom(tx.inputs, n);
    MakersFirstIs(tx, n);
    AcceptedParts(w, tx, kind);
    hide *;
    forall i | 0 <= i < |tx.inputs|
      ensures i < n ==> SignedPair(tx.inputs[i], tx.outputs[i])
      ensures i >= n ==> ToSign(tx.inputs[i], All)
    {
      InputMeans(kind, TxConfidential(tx), tx.inputs[i], i == 0);
      ClaimedIs(tx.inputs[i]);
      if i < n { PairSigned(tx, i); }
    }
  }

  lemma ClaimedIs(input: Input)
    ensures IsWalletInput(input) <==> input.derivations != []
  {}

  lemma MakersFirstIs(tx: Transaction, n: nat)
    requires MakersFirst(tx, n)
    ensures n <= |tx.inputs| && n < |tx.outputs|
    ensures forall i :: 0 <= i < n ==> MakerSigned(tx, i) && tx.inputs[i].derivations == []
  {
    hide MakerSigned;
  }

  lemma {:induction false} NothingHeld(inputs: seq<Input>, a: Asset)
    requires forall i :: 0 <= i < |inputs| && inputs[i].derivations == [] ==> !OwnScript(SpentBy(inputs[i]).script)
    ensures Balance(SpentOutputs(Unclaimed(inputs)), a) == 0
  {
    if inputs == [] {
      assert SpentOutputs([]) == [];
    } else {
      NothingHeld(inputs[..|inputs| - 1], a);
      UnclaimedStep(inputs, a);
      hide Balance, SpentOutputs, SpentBy, Unclaimed, OwnScript;
    }
  }

  lemma {:induction false} NothingPaid(outs: seq<TxOut>, a: Asset)
    requires forall i :: 0 <= i < |outs| ==> !OwnScript(outs[i].script)
    ensures Balance(outs, a) == 0
  {
    if outs != [] { NothingPaid(outs[..|outs| - 1], a); }
  }

  lemma NotPaidTo(external: seq<ExternalOutput>, offers: seq<DecodedOffer>)
    requires multiset(Payments(external)) == multiset(MakerPayments(offers))
    requires forall i :: 0 <= i < |offers| ==> !OwnScript(offers[i].makerAddress.script)
    ensures forall i :: 0 <= i < |ListedOutputs(external)| ==> !OwnScript(ListedOutputs(external)[i].script)
  {
    SamePayments(Payments(external), MakerPayments(offers));
    ListedArePayments(external, offers);
    forall i | 0 <= i < |ListedOutputs(external)|
      ensures !OwnScript(ListedOutputs(external)[i].script)
    {
      hide Payments, MakerPayments, PaymentOutputs, ListedOutputs, OwnScript;
      assert ListedOutputs(external)[i] in multiset(ListedOutputs(external));
      assert ListedOutputs(external)[i] in multiset(WantedOutputs(offers));
      var j :| 0 <= j < |WantedOutputs(offers)| && WantedOutputs(offers)[j] == ListedOutputs(external)[i];
    }
  }

  /** When the makers are others, the take costs this wallet's scripts what the offers want and the fee, and brings
      them what the offers give. */
  lemma TakeBalance(w: Wallet, tx: Transaction, op: Operation, plan: PreparedPlan, a: Asset)
    requires Approved(w, tx, op, plan) && op.SwapTakeOp? && DistinctOffers(plan.offers)
    requires forall i :: 0 <= i < |tx.inputs| && tx.inputs[i].derivations == [] ==>
               !OwnScript(SpentBy(tx.inputs[i]).script)
    requires forall i :: 0 <= i < |plan.offers| ==> !OwnScript(plan.offers[i].makerAddress.script)
    ensures Balance(SpentOutputs(tx.inputs), a) + Total(Gives(plan.offers), a)
         == Balance(CreatedOutputs(tx.outputs), a) + Total(Wants(plan.offers), a)
            + (if a == w.policy then plan.review.fee else 0)
  {
    assert Effect(op, plan, a) == Total(Gives(plan.offers), a) - Total(Wants(plan.offers), a);
    hide *;
    LedgerEffect(w, tx, op, plan, a);
    TakeListed(w, tx, op, plan);
    NothingHeld(tx.inputs, a);
    NotPaidTo(plan.review.external, plan.offers);
    NothingPaid(ListedOutputs(plan.review.external), a);
  }
}
