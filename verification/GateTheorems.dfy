/** What the signing gate signs, in terms of the ledger and of what was approved. */
module GateTheorems {
  import opened Common
  import opened Coins
  import opened Pset
  import opened SpendPolicy
  import opened SigningGate
  import opened LedgerTheorems
  import ReviewTheorems

  /** What signing a transaction takes from the scripts of this wallet: what it signs for, less what comes back. */
  function Drain(tx: Transaction, a: Asset): int {
    Balance(SpentOutputs(Claimed(tx.inputs)), a) - Balance(CreatedOutputs(tx.outputs), a)
  }

  function TotalDrain(steps: seq<Step>, a: Asset): int {
    if steps == [] then 0 else TotalDrain(steps[..|steps| - 1], a) + Drain(steps[|steps| - 1].tx, a)
  }

  /** The policy counts at least what a signature takes. */
  lemma DrainCounted(w: Wallet, tx: Transaction, review: TxReview, a: Asset)
    requires Accepts(w, tx, review.kind) && Describes(w, tx, review.kind, review)
    ensures Drain(tx, a) <= Spent(review, w.policy, a)
  {
    AcceptedParts(w, tx, review.kind);
    assert ListsDeltas(w, tx, review.changes) && review.fee == FeeOf(tx.outputs) by {
      hide ListsDeltas, FeeOf, Accepts;
    }
    LossIs(w, tx, review, a);
    hide *;
    ClaimedBalance(review.kind, TxConfidential(tx), tx.inputs, a);
    BalanceAfter(w, tx.outputs, |tx.outputs|, |tx.inputs|, a);
    DrainIs(tx, a);
  }

  lemma DrainIs(tx: Transaction, a: Asset)
    ensures Drain(tx, a) == Balance(SpentOutputs(Claimed(tx.inputs)), a) - Balance(CreatedOutputs(tx.outputs), a)
  {}

  lemma LossIs(w: Wallet, tx: Transaction, review: TxReview, a: Asset)
    requires ListsDeltas(w, tx, review.changes) && review.fee == FeeOf(tx.outputs)
    ensures Total(WalletCoinsIn(tx.inputs), a) - Total(WalletCoinsOut(tx.outputs), a) <= Spent(review, w.policy, a)
  {
    hide FeeOf, WalletCoinsIn, WalletCoinsOut, Total;
    assert a in review.changes <==> Delta(w, tx, a) != 0;
  }

  lemma {:induction false} DrainsCounted(ctx: Context, steps: seq<Step>, a: Asset)
    requires forall i :: 0 <= i < |steps| ==> StepSound(ctx, steps[i])
    ensures TotalDrain(steps, a) <= TotalSpent(StepReviews(steps), ctx.w.policy, a)
  {
    hide Drain, Spent, StepSound;
    if steps != [] {
      var front, last := steps[..|steps| - 1], steps[|steps| - 1];
      DrainsCounted(ctx, front, a);
      assert StepReviews(steps)[..|steps| - 1] == StepReviews(front);
      StepParts(ctx, last);
      DrainCounted(ctx.w, last.tx, last.review, a);
    }
  }

  function StepReviews(steps: seq<Step>): seq<TxReview> {
    seq(|steps|, i requires 0 <= i < |steps| => steps[i].review)
  }

  lemma StepParts(ctx: Context, step: Step)
    requires StepSound(ctx, step)
    ensures Accepts(ctx.w, step.tx, step.review.kind)
    ensures Describes(ctx.w, step.tx, step.review.kind, step.review) && step.hash == ctx.hashOf(step.tx, step.review)
  {
    hide Accepts, Describes;
  }

  /** Whatever the gate signs in one call, bundles summed and in both modes: of an asset with a per-transaction limit
      this wallet's scripts lose no more than the limit; in auto mode each asset lost has a limit. */
  lemma SignsWithinPerTx(ctx: Context, bundle: Bundle, history: seq<SpendRecord>, now: nat, a: Asset)
    requires BundleSound(ctx, bundle) && Allowed(ctx.policy, history, RequestOf(ctx, bundle), now)
    ensures a in ctx.policy.limits && ctx.policy.limits[a].perTx.Some? ==>
              TotalDrain(bundle.steps, a) <= ctx.policy.limits[a].perTx.value
    ensures ctx.policy.mode.Auto? && TotalDrain(bundle.steps, a) > 0 ==>
              a in ctx.policy.limits && (ctx.policy.limits[a].perTx.Some? || ctx.policy.limits[a].per24h.Some?)
  {
    assert forall i :: 0 <= i < |bundle.steps| ==> StepSound(ctx, bundle.steps[i]);
    assert RequestOf(ctx, bundle).reviews == StepReviews(bundle.steps);
    hide Allowed, StepSound, TotalDrain, TotalSpent, Recent;
    DrainsCounted(ctx, bundle.steps, a);
    AllowedMeans(ctx.policy, history, RequestOf(ctx, bundle), now);
  }

  /** What is signed is for this network, was hashed as it is, and was asked for: by the hash over all of it, or by an
      answer, or by the policy's auto mode; parking never signs. An offer is never signed as anything else. */
  lemma SignsWhatWasApproved(ctx: Context, bundle: Bundle, approval: SigningGate.Approval, answer: Option<bool>)
    requires BundleSound(ctx, bundle) && Confirmed(ctx, bundle, approval, answer)
    ensures bundle.genesis == ctx.w.genesis
    ensures forall step :: step in bundle.steps ==>
              && step.tx.genesis == Some(ctx.w.genesis) && step.hash == ctx.hashOf(step.tx, step.review)
              && (step.offer <==> step.review.kind == SwapOffer)
    ensures |bundle.steps| == 1 ==> bundle.approvalHash == bundle.steps[0].hash
    ensures |bundle.steps| != 1 ==>
              forall hashes: seq<nat> ::
                |hashes| == |bundle.steps| && (forall i :: 0 <= i < |hashes| ==> hashes[i] == bundle.steps[i].hash) ==>
                  bundle.approvalHash == ctx.digest(hashes)
    ensures approval.Approved? ==> approval.hash == bundle.approvalHash
    ensures !approval.PrepareOnly?
    ensures ctx.policy.mode.Confirm? ==> approval.Approved? || (approval.Interactive? && answer == Some(true))
  {
    forall step | step in bundle.steps
      ensures step.tx.genesis == Some(ctx.w.genesis) && step.hash == ctx.hashOf(step.tx, step.review)
      ensures step.offer <==> step.review.kind == SwapOffer
    {
      assert StepSound(ctx, step);
      StepGenesis(ctx, step);
      hide StepSound;
    }
    forall hashes: seq<nat> | |bundle.steps| != 1 && |hashes| == |bundle.steps|
        && forall i :: 0 <= i < |hashes| ==> hashes[i] == bundle.steps[i].hash
      ensures bundle.approvalHash == ctx.digest(hashes)
    {
      HashesAre(ctx, bundle.steps, hashes);
    }
    hide StepSound;
  }

  lemma HashesAre(ctx: Context, steps: seq<Step>, hashes: seq<nat>)
    requires |steps| != 1 && |hashes| == |steps| && forall i :: 0 <= i < |hashes| ==> hashes[i] == steps[i].hash
    ensures ApprovalHash(ctx, steps) == ctx.digest(hashes)
  {
    assert hashes == seq(|steps|, i requires 0 <= i < |steps| => steps[i].hash);
  }

  lemma StepGenesis(ctx: Context, step: Step)
    requires StepSound(ctx, step)
    ensures step.tx.genesis == Some(ctx.w.genesis) && step.hash == ctx.hashOf(step.tx, step.review)
    ensures step.offer <==> step.review.kind == SwapOffer
  {
    hide InputsOk, OutputsOk, KindOk, TxConfidential, Describes;
  }
}
