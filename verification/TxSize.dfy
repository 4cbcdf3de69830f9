/** The serialized size of what is built, field by field: the estimate the fee is computed from is never below it. */
module TxSize {
  import opened Common
  import opened Coins
  import opened Funding
  import opened Pset
  import opened Drafts
  import opened Builder
  import BuilderTheorems
  import FundingTheorems

  /** The lengths, by position, of what signing and blinding fill in. */
  datatype Proofs = Proofs(signature: nat -> nat, surjection: nat -> nat, range: nat -> nat)

  /** A signature with its flag has at most 73 bytes; a surjection proof picks at most 3 of 256 inputs; a range proof
      covers 52 bits. */
  ghost predicate Usual(p: Proofs) {
    && (forall i :: p.signature(i) <= 73) && (forall v :: p.surjection(v) <= 162) && (forall v :: p.range(v) <= 4_174)
  }

  // ---- Elements serialization ----------------------------------------------------------------------

  /** A count, or the length before a byte string. */
  function VarInt(n: nat): nat {
    if n < 253 then 1 else if n < 0x1_0000 then 3 else if n < 0x1_0000_0000 then 5 else 9
  }

  function VarBytes(n: nat): nat {
    VarInt(n) + n
  }

  /** Nonce, entropy, and the two amounts, in the clear or null. */
  function IssuanceBytes(issuance: IssuanceFields): nat {
    match issuance
    case FullIssuance(_, amount, tokens, _) =>
      32 + 32 + (if amount.Some? then 9 else 1) + (if tokens.Some? then 9 else 1)
    case _ => 0
  }

  /** Outpoint, empty script signature, sequence, and issuance; four times, and once each in the witness: two empty
      range proofs, a stack of signature and key, and an empty peg-in stack. */
  function InputWeight(input: Input, signature: nat): nat {
    4 * (32 + 4 + VarBytes(0) + 4 + IssuanceBytes(input.issuance))
    + VarBytes(0) + VarBytes(0) + VarInt(2) + VarBytes(signature) + VarBytes(33) + VarInt(0)
  }

  /** Asset, amount, nonce and script, four times; and the two proofs in the witness. */
  function OutputWeight(output: Output, surjection: nat, range: nat): nat {
    if output.blinding.Blinded?
    then 4 * (33 + 33 + 33 + VarBytes(ScriptLength(output.script))) + VarBytes(surjection) + VarBytes(range)
    else 4 * (33 + 9 + 1 + VarBytes(ScriptLength(output.script))) + VarBytes(0) + VarBytes(0)
  }

  function InputsWeight(inputs: seq<Input>, p: Proofs): nat {
    if inputs == [] then 0
    else
      var n := |inputs| - 1;
      InputsWeight(inputs[..n], p) + InputWeight(inputs[n], p.signature(n))
  }

  function OutputsWeight(outputs: seq<Output>, p: Proofs): nat {
    if outputs == [] then 0
    else
      var n := |outputs| - 1;
      OutputsWeight(outputs[..n], p) + OutputWeight(outputs[n], p.surjection(n), p.range(n))
  }

  /** Version, flag, two counts and lock time, four times; inputs and outputs. */
  function TxWeight(tx: Transaction, p: Proofs): nat {
    4 * (4 + 1 + VarInt(|tx.inputs|) + VarInt(|tx.outputs|) + 4)
    + InputsWeight(tx.inputs, p) + OutputsWeight(tx.outputs, p)
  }

  function VirtualSize(tx: Transaction, p: Proofs): nat {
    (TxWeight(tx, p) + 3) / 4
  }

  // ---- The estimate covers it ------------------------------------------------------------------------

  lemma InputCovered(input: Input, signature: nat)
    requires signature <= 73
    ensures InputWeight(input, signature)
         <= 4 * INPUT_BASE + INPUT_WITNESS + (if input.issuance.FullIssuance? then 4 * ISSUANCE_BASE else 0)
  {}

  /** Only the input at `issuer` issues. */
  lemma {:induction false} InputsCovered(inputs: seq<Input>, issuer: nat, p: Proofs)
    requires Usual(p) && forall i :: 0 <= i < |inputs| && inputs[i].issuance.FullIssuance? ==> i == issuer
    ensures InputsWeight(inputs, p)
         <= |inputs| * (4 * INPUT_BASE + INPUT_WITNESS)
            + (if issuer < |inputs| && inputs[issuer].issuance.FullIssuance? then 4 * ISSUANCE_BASE else 0)
  {
    if inputs != [] {
      var n := |inputs| - 1;
      InputsCovered(inputs[..n], issuer, p);
      InputCovered(inputs[n], p.signature(n));
      hide InputWeight;
    }
  }

  function BlindedIn(outputs: seq<Output>): nat {
    if outputs == [] then 0
    else BlindedIn(outputs[..|outputs| - 1]) + (if outputs[|outputs| - 1].blinding.Blinded? then 1 else 0)
  }

  lemma OutputCovered(output: Output, surjection: nat, range: nat)
    requires surjection <= 162 && range <= 4_174 && ScriptLength(output.script) <= 42
    ensures OutputWeight(output, surjection, range)
         <= 4 * (OUTPUT_BASE + ScriptLength(output.script)) + OUTPUT_WITNESS
            + (if output.blinding.Blinded?
               then 4 * BLINDED_OUTPUT_EXTRA_BASE + (BLINDED_OUTPUT_EXTRA_WITNESS - OUTPUT_WITNESS) else 0)
  {}

  lemma {:induction false} OutputsCovered(outputs: seq<Output>, scripts: seq<nat>, p: Proofs)
    requires Usual(p) && |scripts| == |outputs|
    requires forall v :: 0 <= v < |outputs| ==> ScriptLength(outputs[v].script) == scripts[v] <= 42
    ensures OutputsWeight(outputs, p)
         <= 4 * OutputsBase(scripts) + |scripts| * OUTPUT_WITNESS
            + BlindedIn(outputs) * (4 * BLINDED_OUTPUT_EXTRA_BASE + (BLINDED_OUTPUT_EXTRA_WITNESS - OUTPUT_WITNESS))
  {
    if outputs != [] {
      var n := |outputs| - 1;
      OutputsCovered(outputs[..n], scripts[..n], p);
      OutputCovered(outputs[n], p.surjection(n), p.range(n));
      hide OutputWeight, ScriptLength;
    }
  }

  /** A transaction with at most 256 inputs and outputs, one issuer and short scripts is no larger than estimated. */
  lemma EstimateCovers(tx: Transaction, issuer: nat, scripts: seq<nat>, p: Proofs)
    requires Usual(p) && |tx.inputs| <= 256 && |scripts| == |tx.outputs| <= 256
    requires forall i :: 0 <= i < |tx.inputs| && tx.inputs[i].issuance.FullIssuance? ==> i == issuer
    requires forall v :: 0 <= v < |tx.outputs| ==> ScriptLength(tx.outputs[v].script) == scripts[v] <= 42
    ensures VirtualSize(tx, p)
         <= Vsize(|tx.inputs|, issuer < |tx.inputs| && tx.inputs[issuer].issuance.FullIssuance?, scripts,
                  BlindedIn(tx.outputs))
  {
    hide *;
    var issues := issuer < |tx.inputs| && tx.inputs[issuer].issuance.FullIssuance?;
    InputsCovered(tx.inputs, issuer, p);
    OutputsCovered(tx.outputs, scripts, p);
    WeightIs(tx, p);
    EstimateIs(|tx.inputs|, issues, scripts, BlindedIn(tx.outputs));
    Quarter(TxWeight(tx, p), Weight(|tx.inputs|, issues, scripts, BlindedIn(tx.outputs)));
    VsizeIs(tx, p, |tx.inputs|, issues, scripts, BlindedIn(tx.outputs));
  }

  lemma WeightIs(tx: Transaction, p: Proofs)
    requires |tx.inputs| <= 256 && |tx.outputs| <= 256
    ensures TxWeight(tx, p) <= 4 * TX_OVERHEAD_BASE + InputsWeight(tx.inputs, p) + OutputsWeight(tx.outputs, p)
  {
    hide InputsWeight, OutputsWeight;
  }

  lemma EstimateIs(inputs: nat, issuance: bool, scripts: seq<nat>, blinded: nat)
    ensures Weight(inputs, issuance, scripts, blinded)
         == 4 * TX_OVERHEAD_BASE + inputs * (4 * INPUT_BASE + INPUT_WITNESS)
            + (if issuance then 4 * ISSUANCE_BASE else 0) + 4 * OutputsBase(scripts) + |scripts| * OUTPUT_WITNESS
            + blinded * (4 * BLINDED_OUTPUT_EXTRA_BASE + (BLINDED_OUTPUT_EXTRA_WITNESS - OUTPUT_WITNESS))
  {
    hide OutputsBase;
  }

  lemma Quarter(a: nat, b: nat)
    requires a <= b
    ensures (a + 3) / 4 <= (b + 3) / 4
  {}

  lemma VsizeIs(tx: Transaction, p: Proofs, inputs: nat, issuance: bool, scripts: seq<nat>, blinded: nat)
    ensures VirtualSize(tx, p) == (TxWeight(tx, p) + 3) / 4
    ensures Vsize(inputs, issuance, scripts, blinded) == (Weight(inputs, issuance, scripts, blinded) + 3) / 4
  {
    hide TxWeight, Weight;
  }

  // ---- What is built -----------------------------------------------------------------------------------

  /** The part of a request's transaction that is fixed before funding. */
  function JobShape(job: Job): Shape {
    match job
    case Transfers(payee) => Shape(0, false, [22], if payee.blinder.Some? then 1 else 0)
    case Splits(_, _) => Shape(0, false, [22], 0)
    case Issues(issue, _) => Shape(0, true, if issue.tokens > 0 then [22, 22] else [22], 0)
    case Cancels => Shape(0, false, [], 0)
    case Takes(offers, own, _) =>
      Shape(|offers|, false, seq(|offers|, i requires 0 <= i < |offers| => ScriptLength(offers[i].script))
          + seq(|own|, _ => 22), 0)
  }

  /** The five requests ask for exactly these shapes. */
  lemma RequestShapes(k: Keys, payee: Payee, coin: Coin, issue: Issue, utxo: Utxo, offers: seq<Offer>,
      own: seq<Coin>, needs: map<Asset, nat>, rate: nat, utxos: seq<Utxo>, index: nat)
    ensures PaymentRequest(k, payee.coin, payee.blinder.Some?, rate, utxos).shape == JobShape(Transfers(payee))
    ensures PaymentRequest(k, coin, false, rate, utxos).shape == JobShape(Splits(coin, index))
    ensures IssuanceRequest(k, issue.tokens, rate, utxos).shape == JobShape(Issues(issue, index))
    ensures CancelRequest(k, utxo, rate, utxos).shape == JobShape(Cancels)
    ensures TakeRequest(k, offers, needs, |own|, rate, utxos).shape == JobShape(Takes(offers, own, index))
  {}

  lemma {:induction false} BlindedAppend(left: seq<Output>, right: seq<Output>)
    ensures BlindedIn(left + right) == BlindedIn(left) + BlindedIn(right)
  {
    if right == [] {
      assert left + right == left;
    } else {
      BlindedAppend(left, right[..|right| - 1]);
      assert (left + right)[..|left + right| - 1] == left + right[..|right| - 1];
    }
  }

  lemma {:induction false} NoneBlinded(outputs: seq<Output>)
    requires forall v :: 0 <= v < |outputs| ==> !outputs[v].blinding.Blinded?
    ensures BlindedIn(outputs) == 0
  {
    if outputs != [] { NoneBlinded(outputs[..|outputs| - 1]); }
  }

  lemma {:induction false} BlindedAtMost(outputs: seq<Output>)
    ensures BlindedIn(outputs) <= |outputs|
  {
    if outputs != [] { BlindedAtMost(outputs[..|outputs| - 1]); }
  }

  lemma BlindedChanges(k: Keys, d: Draft)
    ensures BlindedIn(OwnOutputs(k, d)) <= if AnyConfidential(d.utxos) then |d.changes| else 0
  {
    var own := WalletOutputs(k, d.own, false, d.receiveIndex, false);
    var changes := WalletOutputs(k, d.changes, true, d.changeIndex, AnyConfidential(d.utxos));
    NoneBlinded(own);
    BlindedAppend(own, changes);
    if AnyConfidential(d.utxos) { BlindedAtMost(changes); } else { NoneBlinded(changes); }
    hide BlindedIn, AnyConfidential;
  }

  lemma BlindedBuilt(k: Keys, d: Draft)
    ensures BlindedIn(Outputs(k, d))
         <= (if d.payee.Some? && d.payee.value.blinder.Some? then 1 else 0)
            + (if AnyConfidential(d.utxos) then |d.changes| else 0)
  {
    var makers, payee, own, fee := MakerOutputs(d.offers), PayeeOutputs(d.payee), OwnOutputs(k, d),
        [FeeOutput(k, d.fee)];
    NoneBlinded(makers);
    NoneBlinded(fee);
    if d.payee.None? || d.payee.value.blinder.None? { NoneBlinded(payee); }
    BlindedAtMost(payee);
    BlindedChanges(k, d);
    BlindedAppend(makers, payee);
    BlindedAppend(makers + payee, own);
    BlindedAppend(makers + payee + own, fee);
    hide BlindedIn, AnyConfidential, MakerOutputs, OwnOutputs;
  }

  /** The scripts of what is built are those the estimate counts. */
  lemma ScriptsBuilt(k: Keys, job: Job, changeIndex: nat, f: Funding, v: nat)
    requires f.inputs != [] && v < |Outputs(k, DraftFor(k, job, changeIndex, f))|
    ensures var scripts, outputs := ChangeScripts(JobShape(job), |f.changes|),
                Outputs(k, DraftFor(k, job, changeIndex, f));
            |scripts| == |outputs| && scripts[v] == ScriptLength(outputs[v].script)
  {
    BuilderTheorems.DraftIs(k, job, changeIndex, f);
    var d := DraftFor(k, job, changeIndex, f);
    BuilderTheorems.OutputIs(k, d, v);
    hide Outputs, DraftFor;
  }

  lemma ScriptsShort(job: Job, changes: nat)
    requires forall i :: 0 <= i < |BuilderTheorems.OffersOf(job)| ==>
               ScriptLength(BuilderTheorems.OffersOf(job)[i].script) <= 42
    ensures forall v :: 0 <= v < |ChangeScripts(JobShape(job), changes)| ==>
              ChangeScripts(JobShape(job), changes)[v] <= 42
  {
    var fixed := JobShape(job).fixedScripts;
    forall v | 0 <= v < |fixed|
      ensures fixed[v] <= 42
    {
      if job.Takes? && v < |job.offers| {
        assert fixed[v] == ScriptLength(BuilderTheorems.OffersOf(job)[v].script);
      }
    }
    hide JobShape;
  }

  lemma IssuesOnce(k: Keys, job: Job, changeIndex: nat, f: Funding)
    requires f.inputs != []
    ensures var inputs, issuer := Inputs(k, DraftFor(k, job, changeIndex, f)), |BuilderTheorems.OffersOf(job)|;
            && |inputs| == issuer + |f.inputs|
            && (forall i :: 0 <= i < |inputs| && inputs[i].issuance.FullIssuance? ==> i == issuer)
            && (inputs[issuer].issuance.FullIssuance? ==> JobShape(job).hasIssuance)
  {
    BuilderTheorems.DraftIs(k, job, changeIndex, f);
    var d := DraftFor(k, job, changeIndex, f);
    InputIs(k, d, 0);
    hide DraftFor;
    forall i: nat | i < |d.offers| + |d.utxos|
      ensures Inputs(k, d)[i].issuance.FullIssuance? ==> i == |d.offers| && JobShape(job).hasIssuance
    {
      InputIs(k, d, i);
      hide Inputs;
    }
  }

  lemma VsizeMono(inputs: nat, some: bool, all: bool, scripts: seq<nat>, few: nat, many: nat)
    requires few <= many && (some ==> all)
    ensures Vsize(inputs, some, scripts, few) <= Vsize(inputs, all, scripts, many)
  {
    hide OutputsBase;
  }

  lemma SizeIs(req: Request, inputs: seq<Utxo>, changes: nat)
    ensures SizeWith(req, inputs, changes)
         == Vsize(req.shape.foreignInputs + |inputs|, req.shape.hasIssuance, ChangeScripts(req.shape, changes),
                  req.shape.blindedFixed + (if AnyConfidential(inputs) then changes else 0))
  {
    hide Vsize, AnyConfidential, ChangeScripts;
  }

  /** What is built of a funded request, signed and blinded, is no larger than the estimate its fee was computed
      from. */
  lemma BuiltWithinEstimate(k: Keys, job: Job, changeIndex: nat, req: Request, f: Funding, p: Proofs)
    requires Usual(p) && f.inputs != [] && req.shape == JobShape(job) && Within(k, DraftFor(k, job, changeIndex, f))
    requires forall i :: 0 <= i < |BuilderTheorems.OffersOf(job)| ==>
               ScriptLength(BuilderTheorems.OffersOf(job)[i].script) <= 42
    ensures VirtualSize(Tx(k, DraftFor(k, job, changeIndex, f)), p) <= SizeWith(req, f.inputs, |f.changes|)
  {
    hide *;
    var d, scripts := DraftFor(k, job, changeIndex, f), ChangeScripts(JobShape(job), |f.changes|);
    var tx, issuer := Tx(k, d), |BuilderTheorems.OffersOf(job)|;
    WithinCounts(k, d);
    ShapeIs(job);
    TxIs(k, d);
    BuilderTheorems.DraftIs(k, job, changeIndex, f);
    IssuesOnce(k, job, changeIndex, f);
    BlindedBuilt(k, d);
    ScriptsShort(job, |f.changes|);
    forall v | 0 <= v < |tx.outputs|
      ensures |scripts| == |tx.outputs| && ScriptLength(tx.outputs[v].script) == scripts[v] <= 42
    {
      ScriptsBuilt(k, job, changeIndex, f, v);
    }
    ScriptsBuilt(k, job, changeIndex, f, 0);
    EstimateCovers(tx, issuer, scripts, p);
    SizeIs(req, f.inputs, |f.changes|);
    VsizeMono(|tx.inputs|, tx.inputs[issuer].issuance.FullIssuance?, req.shape.hasIssuance, scripts,
        BlindedIn(tx.outputs), req.shape.blindedFixed + if AnyConfidential(f.inputs) then |f.changes| else 0);
  }

  lemma WithinCounts(k: Keys, d: Draft)
    requires Within(k, d)
    ensures |d.offers| + |d.utxos| <= 256 && |Outputs(k, d)| <= 256
  {
    hide Outputs;
  }

  lemma ShapeIs(job: Job)
    ensures JobShape(job).foreignInputs == |BuilderTheorems.OffersOf(job)|
    ensures JobShape(job).blindedFixed == if job.Transfers? && job.payee.blinder.Some? then 1 else 0
  {}

  /** Every funded request that is built pays at least the rate asked for, on its serialized size. */
  lemma PaysRequestedRate(k: Keys, job: Job, changeIndex: nat, req: Request, plan: Plan, f: Funding, p: Proofs)
    requires Usual(p) && Funded(req, plan, f) && f.inputs != [] && req.shape == JobShape(job)
    requires Within(k, DraftFor(k, job, changeIndex, f))
    requires forall i :: 0 <= i < |BuilderTheorems.OffersOf(job)| ==>
               ScriptLength(BuilderTheorems.OffersOf(job)[i].script) <= 42
    ensures f.fee >= VirtualSize(Tx(k, DraftFor(k, job, changeIndex, f)), p) * req.feeRate
  {
    var size := SizeWith(req, f.inputs, |f.changes|);
    assert FeeFor(size, req.feeRate) == size * req.feeRate;
    hide *;
    BuiltWithinEstimate(k, job, changeIndex, req, f, p);
    FundingTheorems.FeePaysRate(req, plan, f);
    Grows(VirtualSize(Tx(k, DraftFor(k, job, changeIndex, f)), p), size, req.feeRate);
  }

  lemma Grows(a: nat, b: nat, c: nat)
    requires a <= b
    ensures a * c <= b * c
  {}
}
