/** The single signing entry point and the audit log its limits are computed from. */
module SigningGate {
  import opened Common
  import opened Coins
  import opened Pset
  import opened SpendPolicy
  import Review
  import ReviewTheorems

  // ---- The audit log ---------------------------------------------------------------------------

  datatype Entry = Signed(record: SpendRecord) | Note(time: nat)

  /** How far the line of an append got: to its line end, short of it, or only in part. */
  datatype Ending = Ended | Open | Torn

  datatype Piece = Piece(entry: Entry, ending: Ending)

  /** What every append since the beginning has left in the file, and how much of it is certain to survive a
      power cut. A piece without line end forms one line with the next piece. */
  datatype Log = Log(pieces: seq<Piece>, durable: nat)

  /** How appending can fail: nothing written, part of the line, all but its end, or all of it but not synced. */
  datatype AppendFault = Lost | Broken | Unended | Unsynced

  /** The recorded signatures, torn ones aside. */
  function Records(pieces: seq<Piece>): seq<SpendRecord> {
    if pieces == [] then []
    else
      var last := pieces[|pieces| - 1];
      Records(pieces[..|pieces| - 1]) + (if last.entry.Signed? && !last.ending.Torn? then [last.entry.record] else [])
  }

  predicate AllEnded(pieces: seq<Piece>) {
    forall i :: 0 <= i < |pieces| ==> pieces[i].ending.Ended?
  }

  /** Every line is one whole entry; only the last may lack its line end. Two entries on a line, or an entry on
      the rest of another, are not JSON. */
  predicate Readable(pieces: seq<Piece>) {
    ReadableTo(pieces, |pieces|)
  }

  predicate ReadableTo(pieces: seq<Piece>, n: nat)
    requires n <= |pieces|
  {
    forall i :: 0 <= i < n ==> LineOk(pieces, i)
  }

  predicate LineOk(pieces: seq<Piece>, i: nat)
    requires i < |pieces|
  {
    pieces[i].ending.Ended? || (i == |pieces| - 1 && pieces[i].ending.Open?)
  }

  function Appended(log: Log, entry: Entry, fault: Option<AppendFault>): Log {
    match fault
    case None => Log(log.pieces + [Piece(entry, Ended)], |log.pieces| + 1)
    case Some(Lost) => log
    case Some(Broken) => log.(pieces := log.pieces + [Piece(entry, Torn)])
    case Some(Unended) => log.(pieces := log.pieces + [Piece(entry, Open)])
    case Some(Unsynced) => log.(pieces := log.pieces + [Piece(entry, Ended)])
  }

  /** The entry reached the file whole. */
  predicate Written(fault: Option<AppendFault>) {
    fault.None? || fault.value.Unended? || fault.value.Unsynced?
  }

  /** Appending rewrites nothing, and a success makes all of the file durable. A log that does not read never
      reads again, whatever is appended; one that reads keeps reading unless its last line is left without end
      or the new one in part. Records are added by whole entries only. */
  lemma AppendFailsClosed(log: Log, entry: Entry, fault: Option<AppendFault>)
    ensures var after := Appended(log, entry, fault);
            && log.pieces <= after.pieces
            && after.durable == (if fault.None? then |after.pieces| else log.durable)
            && (Readable(after.pieces) ==> Readable(log.pieces))
            && (Readable(after.pieces) <==>
                  if fault == Some(Lost) then Readable(log.pieces)
                  else fault != Some(Broken) && forall piece :: piece in log.pieces ==> piece.ending == Ended)
            && Records(after.pieces)
               == Records(log.pieces) + (if entry.Signed? && fault != Some(Lost) && fault != Some(Broken)
                                         then [entry.record] else [])
  {
    RecordsAppended(log, entry, fault);
    if fault != Some(Lost) {
      ReadsAppended(log.pieces, Piece(entry, EndingOf(fault)));
      AppendedIs(log, entry, fault);
    }
    AllEndedIs(log.pieces);
    hide Records, Readable, AllEnded, EndingOf;
  }

  lemma AllEndedIs(pieces: seq<Piece>)
    ensures AllEnded(pieces) <==> forall piece :: piece in pieces ==> piece.ending == Ended
  {
    forall i | 0 <= i < |pieces|
      ensures pieces[i] in pieces
    {}
  }

  /** How the line of an append that wrote something ends. */
  function EndingOf(fault: Option<AppendFault>): Ending {
    if fault == Some(Broken) then Torn else if fault == Some(Unended) then Open else Ended
  }

  lemma AppendedIs(log: Log, entry: Entry, fault: Option<AppendFault>)
    requires fault != Some(Lost)
    ensures Appended(log, entry, fault).pieces == log.pieces + [Piece(entry, EndingOf(fault))]
    ensures EndingOf(fault).Torn? <==> fault == Some(Broken)
  {}

  lemma RecordsAppended(log: Log, entry: Entry, fault: Option<AppendFault>)
    ensures Records(Appended(log, entry, fault).pieces)
         == Records(log.pieces) + if entry.Signed? && Written(fault) then [entry.record] else []
  {
    assert Records(log.pieces) + [] == Records(log.pieces);
    if fault != Some(Lost) {
      AppendedIs(log, entry, fault);
      RecordsSnoc(log.pieces, Piece(entry, EndingOf(fault)));
    }
    hide Records;
  }

  lemma ReadsAppended(pieces: seq<Piece>, piece: Piece)
    ensures Readable(pieces + [piece]) <==> AllEnded(pieces) && !piece.ending.Torn?
    ensures AllEnded(pieces) ==> Readable(pieces)
  {
    var more := pieces + [piece];
    assert more[|pieces|] == piece;
    forall i | 0 <= i < |pieces|
      ensures LineOk(more, i) <==> pieces[i].ending.Ended?
    {
      assert more[i] == pieces[i];
    }
    assert LineOk(more, |pieces|) <==> !piece.ending.Torn?;
    hide LineOk;
  }

  lemma RecordsSnoc(pieces: seq<Piece>, piece: Piece)
    ensures Records(pieces + [piece])
         == Records(pieces) + (if piece.entry.Signed? && !piece.ending.Torn? then [piece.entry.record] else [])
  {
    assert (pieces + [piece])[..|pieces|] == pieces;
  }

  lemma LineOkIs(pieces: seq<Piece>, i: nat)
    requires i < |pieces|
    ensures LineOk(pieces, i) <==> !(pieces[i].ending.Torn? || (pieces[i].ending.Open? && i + 1 < |pieces|))
    ensures Readable(pieces) ==> LineOk(pieces, i)
    ensures ReadableTo(pieces, i) && LineOk(pieces, i) ==> ReadableTo(pieces, i + 1)
  {}

  lemma ReadableIs(pieces: seq<Piece>)
    ensures Readable(pieces) <==> forall i :: 0 <= i < |pieces| ==>
              pieces[i].ending == Ended || (i == |pieces| - 1 && pieces[i].ending == Open)
  {
    assert forall i :: 0 <= i < |pieces| ==>
      (LineOk(pieces, i) <==> pieces[i].ending == Ended || (i == |pieces| - 1 && pieces[i].ending == Open));
  }

  lemma ReadNone(pieces: seq<Piece>)
    ensures ReadableTo(pieces, 0) && Records([]) == []
  {}

  class AuditLog {
    var file: Log

    constructor (file: Log)
      ensures this.file == file
    {
      this.file := file;
    }

    method Append(entry: Entry, fault: Option<AppendFault>) returns (ok: bool)
      modifies this
      ensures ok <==> fault.None?
      ensures file == Appended(old(file), entry, fault)
      ensures old(file.pieces) <= file.pieces && (ok ==> file.durable == |file.pieces|)
    {
      match fault {
        case None => file := Log(file.pieces + [Piece(entry, Ended)], |file.pieces| + 1);
        case Some(Lost) =>
        case Some(Broken) => file := file.(pieces := file.pieces + [Piece(entry, Torn)]);
        case Some(Unended) => file := file.(pieces := file.pieces + [Piece(entry, Open)]);
        case Some(Unsynced) => file := file.(pieces := file.pieces + [Piece(entry, Ended)]);
      }
      ok := fault.None?;
    }

    /** The spend history; a log with a line that is not one whole entry is refused. */
    method History() returns (history: Option<seq<SpendRecord>>)
      ensures history.Some? <==> Readable(file.pieces)
      ensures history.Some? <==> forall i :: 0 <= i < |file.pieces| ==>
                file.pieces[i].ending == Ended || (i == |file.pieces| - 1 && file.pieces[i].ending == Open)
      ensures history.Some? ==> history.value == Records(file.pieces)
    {
      var records, pieces := [], file.pieces;
      ReadableIs(pieces);
      assert pieces[..0] == [] && pieces[..|pieces|] == pieces;
      hide Records, LineOk;
      ReadNone(pieces);
      for i := 0 to |pieces|
        invariant ReadableTo(pieces, i) && records == Records(pieces[..i])
      {
        LineOkIs(pieces, i);
        if pieces[i].ending.Torn? || (pieces[i].ending.Open? && i + 1 < |pieces|) { return None; }
        assert pieces[..i + 1] == pieces[..i] + [pieces[i]];
        RecordsSnoc(pieces[..i], pieces[i]);
        if pieces[i].entry.Signed? { records := records + [pieces[i].entry.record]; }
      }
      history := Some(records);
    }
  }

  // ---- Bundles --------------------------------------------------------------------------------------

  datatype Step = Step(tx: Transaction, review: TxReview, hash: nat, offer: bool)

  datatype Bundle = Bundle(genesis: nat, dexUrl: Option<nat>, steps: seq<Step>, approvalHash: nat)

  /** `hashOf` is the review commitment, `digest` the hash over several of them. */
  datatype Context = Context(w: Wallet, policy: Policy, hashOf: (Transaction, TxReview) -> nat, digest: seq<nat> -> nat)

  function ApprovalHash(ctx: Context, steps: seq<Step>): nat {
    if |steps| == 1 then steps[0].hash else ctx.digest(seq(|steps|, i requires 0 <= i < |steps| => steps[i].hash))
  }

  datatype Approval = Interactive | Deferred | PrepareOnly | Approved(hash: nat)

  datatype Outcome = SignedAll | Parked | Refused | Failed

  /** What happens around one step: whether signing works, the clock when its line is written, and the write. */
  datatype Moment = Moment(signs: bool, stamp: nat, fault: Option<AppendFault>)

  function ReviewsOf(bundle: Bundle): seq<TxReview> {
    seq(|bundle.steps|, i requires 0 <= i < |bundle.steps| => bundle.steps[i].review)
  }

  function RequestOf(ctx: Context, bundle: Bundle): Request {
    Request(ReviewsOf(bundle), ctx.w.policy, ctx.w.genesis, bundle.dexUrl)
  }

  /** The stored review of a step is the one its transaction deserves. */
  ghost predicate StepSound(ctx: Context, step: Step) {
    && Accepts(ctx.w, step.tx, step.review.kind) && Describes(ctx.w, step.tx, step.review.kind, step.review)
    && step.hash == ctx.hashOf(step.tx, step.review) && (step.offer <==> step.review.kind.SwapOffer?)
  }

  ghost predicate BundleSound(ctx: Context, bundle: Bundle) {
    && bundle.genesis == ctx.w.genesis && bundle.approvalHash == ApprovalHash(ctx, bundle.steps)
    && forall i :: 0 <= i < |bundle.steps| ==> StepSound(ctx, bundle.steps[i])
  }

  /** The confirmation the policy asks for has been given. */
  predicate Confirmed(ctx: Context, bundle: Bundle, approval: Approval, answer: Option<bool>) {
    match approval
    case PrepareOnly => false
    case Approved(hash) => hash == bundle.approvalHash
    case Deferred => ctx.policy.mode.Auto?
    case Interactive => ctx.policy.mode.Auto? || answer == Some(true)
  }

  method RecomputeReviews(ctx: Context, bundle: Bundle) returns (ok: bool)
    ensures ok <==> forall i :: 0 <= i < |bundle.steps| ==> StepSound(ctx, bundle.steps[i])
  {
    for i := 0 to |bundle.steps|
      invariant forall j :: 0 <= j < i ==> StepSound(ctx, bundle.steps[j])
    {
      var step := bundle.steps[i];
      hide Accepts, Describes;
      var recomputed := Review.Analyze(ctx.w, step.tx, step.review.kind);
      if recomputed.Err? { return false; }
      if StepSound(ctx, step) {
        ReviewTheorems.ReviewUnique(ctx.w, step.tx, step.review.kind, recomputed.value, step.review);
      }
      if recomputed.value != step.review || ctx.hashOf(step.tx, recomputed.value) != step.hash { return false; }
      if step.offer != step.review.kind.SwapOffer? { return false; }
    }
    ok := true;
  }

  /** What one signature spends, as it is recorded. */
  function SpendMap(review: TxReview, policyAsset: Asset): map<Asset, nat> {
    map a | a in review.changes.Keys + {policyAsset}
        && Spent(review, policyAsset, a) > 0 :: Spent(review, policyAsset, a)
  }

  lemma SpendMapIs(spend: map<Asset, nat>, review: TxReview, policyAsset: Asset)
    requires IsSpend(spend, [review], policyAsset)
    ensures spend == SpendMap(review, policyAsset)
  {
    assert [review][..0] == [];
    forall a
      ensures a in spend <==> a in SpendMap(review, policyAsset)
      ensures a in spend ==> spend[a] == Spent(review, policyAsset, a)
    {
      assert Get(spend, a) == TotalSpent([review], policyAsset, a) == Spent(review, policyAsset, a);
    }
  }

  /** The records of the first `k` signatures. */
  function Recorded(reviews: seq<TxReview>, policyAsset: Asset, moments: seq<Moment>, k: nat): seq<SpendRecord>
    requires k <= |reviews| && k <= |moments|
  {
    seq(k, i requires 0 <= i < k => SpendRecord(moments[i].stamp, SpendMap(reviews[i], policyAsset)))
  }

  lemma RecordedSnoc(reviews: seq<TxReview>, policyAsset: Asset, moments: seq<Moment>, k: nat)
    requires k < |reviews| && k < |moments|
    ensures Recorded(reviews, policyAsset, moments, k + 1)
         == Recorded(reviews, policyAsset, moments, k)
             + [SpendRecord(moments[k].stamp, SpendMap(reviews[k], policyAsset))]
  {}

  lemma OneCountable(reviews: seq<TxReview>, i: nat, policyAsset: Asset)
    requires i < |reviews| && Countable(reviews, policyAsset)
    ensures Countable([reviews[i]], policyAsset)
  {
    assert [reviews[i]][..0] == [];
    forall a
      ensures TotalSpent([reviews[i]], policyAsset, a) <= MAX_U64
    {
      assert TotalSpent([reviews[i]], policyAsset, a) == Spent(reviews[i], policyAsset, a);
      SpentSnoc(reviews, i, policyAsset);
      SpentGrows(reviews, i + 1, policyAsset, a);
    }
  }

  /** Signs one step and records it; `written` says whether the record reached the file whole. */
  method SignOne(ctx: Context, review: TxReview, log: AuditLog, moment: Moment)
      returns (ok: bool, ghost written: bool)
    requires Countable([review], ctx.w.policy)
    modifies log
    ensures ok <==> moment.signs && moment.fault.None?
    ensures Records(log.file.pieces) == Records(old(log.file.pieces))
        + if written then [SpendRecord(moment.stamp, SpendMap(review, ctx.w.policy))] else []
    ensures ok ==> written && log.file.durable == |log.file.pieces|
    ensures old(log.file.pieces) <= log.file.pieces
  {
    if !moment.signs {
      assert Records(log.file.pieces) + [] == Records(log.file.pieces);
      return false, false;
    }
    var spend := SpendOf([review], ctx.w.policy);
    SpendMapIs(spend.value, review, ctx.w.policy);
    var entry := Signed(SpendRecord(moment.stamp, spend.value));
    RecordsAppended(log.file, entry, moment.fault);
    assert moment.fault.None? ==> Written(moment.fault);
    hide *;
    ok := log.Append(entry, moment.fault);
    written := Written(moment.fault);
  }

  /** Signs step by step, recording each signature before the next. */
  method SignSteps(ctx: Context, reviews: seq<TxReview>, log: AuditLog, moments: seq<Moment>)
      returns (outcome: Outcome, ghost k: nat)
    requires |moments| == |reviews| && Countable(reviews, ctx.w.policy)
    modifies log
    ensures k <= |reviews| && Records(log.file.pieces)
        == Records(old(log.file.pieces)) + Recorded(reviews, ctx.w.policy, moments, k)
    ensures outcome.SignedAll? || outcome.Failed?
    ensures outcome.SignedAll? <==> forall i :: 0 <= i < |moments| ==> moments[i].signs && moments[i].fault.None?
    ensures outcome.SignedAll? ==> k == |reviews|
    ensures old(log.file.pieces) <= log.file.pieces
    ensures outcome.SignedAll? && reviews != [] ==> log.file.durable == |log.file.pieces|
  {
    k := 0;
    hide *;
    RecordedNone(reviews, ctx.w.policy, moments);
    for i := 0 to |reviews|
      invariant k == i && forall j :: 0 <= j < i ==> moments[j].signs && moments[j].fault.None?
      invariant Records(log.file.pieces) == Records(old(log.file.pieces)) + Recorded(reviews, ctx.w.policy, moments, i)
      invariant old(log.file.pieces) <= log.file.pieces
      invariant i > 0 ==> log.file.durable == |log.file.pieces|
    {
      OneCountable(reviews, i, ctx.w.policy);
      RecordedSnoc(reviews, ctx.w.policy, moments, i);
      var ok, written := SignOne(ctx, reviews[i], log, moments[i]);
      if written { k := i + 1; }
      if !ok { return Failed, k; }
    }
    outcome := SignedAll;
  }

  lemma RecordedNone(reviews: seq<TxReview>, policyAsset: Asset, moments: seq<Moment>)
    ensures Recorded(reviews, policyAsset, moments, 0) == []
  {}

  /** The call leaves the records of the first `k` signatures behind, and none at all unless the
      bundle is sound, allowed and confirmed. */
  ghost predicate RecordsFor(ctx: Context, bundle: Bundle, approval: Approval, answer: Option<bool>, now: nat,
      moments: seq<Moment>, before: seq<SpendRecord>, after: seq<SpendRecord>, k: nat)
  {
    && k <= |bundle.steps| && k <= |moments|
    && after == before + Recorded(ReviewsOf(bundle), ctx.w.policy, moments, k)
    && (k > 0 ==> BundleSound(ctx, bundle) && Allowed(ctx.policy, before, RequestOf(ctx, bundle), now)
                  && Confirmed(ctx, bundle, approval, answer))
  }

  /** Everything before the first signature; `stop` says how the call ends without one. */
  method Authorize(ctx: Context, bundle: Bundle, approval: Approval, answer: Option<bool>, log: AuditLog,
                   now: nat, note: Moment)
    returns (stop: Option<Outcome>)
    modifies log
    ensures Records(log.file.pieces) == Records(old(log.file.pieces))
    ensures stop.None? <==>
              && Readable(old(log.file.pieces)) && BundleSound(ctx, bundle) && Confirmed(ctx, bundle, approval, answer)
              && Allowed(ctx.policy, Records(old(log.file.pieces)), RequestOf(ctx, bundle), now)
    ensures stop.Some? ==> !stop.value.SignedAll?
    ensures old(log.file.pieces) <= log.file.pieces
    ensures stop.None? ==> log.file == old(log.file)
    ensures !Readable(old(log.file.pieces)) || !BundleSound(ctx, bundle) ==>
              stop == Some(Failed) && log.file == old(log.file)
    ensures Readable(old(log.file.pieces)) && BundleSound(ctx, bundle) && stop.Some? ==>
              var allowed := Allowed(ctx.policy, Records(old(log.file.pieces)), RequestOf(ctx, bundle), now);
              if allowed && approval.Approved? then stop == Some(Failed) && log.file == old(log.file)
              else
                && log.file == Appended(old(log.file), Note(note.stamp), note.fault)
                && stop == Some(if note.fault.Some? then Failed
                                else if !allowed then Refused
                                else if approval.Interactive? && answer.Some? then Failed
                                else Parked)
  {
    if bundle.genesis != ctx.w.genesis
        || bundle.approvalHash != ApprovalHash(ctx, bundle.steps) { return Some(Failed); }
    var recomputed := RecomputeReviews(ctx, bundle);
    if !recomputed { return Some(Failed); }
    hide StepSound, Allowed, Records, Appended, ApprovalHash, ReviewsOf;
    var history := log.History();
    if history.None? { return Some(Failed); }
    var decision := Evaluate(ctx.policy, history.value, RequestOf(ctx, bundle), now);
    if !decision.allowed {
      stop := AddNote(log, note, Refused);
      return;
    }
    match approval {
      case PrepareOnly =>
        stop := AddNote(log, note, Parked);
      case Approved(hash) => stop := if hash != bundle.approvalHash then Some(Failed) else None;
      case Deferred =>
        stop := None;
        if decision.requiresConfirmation {
          stop := AddNote(log, note, Parked);
        }
      case Interactive =>
        stop := None;
        if decision.requiresConfirmation && answer != Some(true) {
          stop := AddNote(log, note, if answer.None? then Parked else Failed);
        }
    }
  }

  /** Notes how a call without signatures ended; a failed write fails the call. */
  method AddNote(log: AuditLog, note: Moment, outcome: Outcome) returns (stop: Option<Outcome>)
    modifies log
    ensures Records(log.file.pieces) == Records(old(log.file.pieces))
    ensures stop == Some(if note.fault.None? then outcome else Failed)
    ensures log.file == Appended(old(log.file), Note(note.stamp), note.fault)
    ensures old(log.file.pieces) <= log.file.pieces
  {
    AppendFailsClosed(log.file, Note(note.stamp), note.fault);
    var ok := log.Append(Note(note.stamp), note.fault);
    stop := Some(if ok then outcome else Failed);
  }

  /** Reviews again, applies the policy, obtains confirmation, then signs and records. */
  method AuthorizeAndSign(ctx: Context, bundle: Bundle, approval: Approval, answer: Option<bool>, log: AuditLog,
                          now: nat, note: Moment, moments: seq<Moment>)
    returns (outcome: Outcome, ghost k: nat)
    requires |moments| == |bundle.steps|
    modifies log
    ensures RecordsFor(ctx, bundle, approval, answer, now, moments, Records(old(log.file.pieces)),
        Records(log.file.pieces), k)
    ensures outcome.SignedAll? ==> k == |bundle.steps| > 0
    ensures old(log.file.pieces) <= log.file.pieces
    ensures outcome.SignedAll? ==> log.file.durable == |log.file.pieces|
    ensures outcome.SignedAll? <==>
              && Readable(old(log.file.pieces)) && BundleSound(ctx, bundle) && Confirmed(ctx, bundle, approval, answer)
              && Allowed(ctx.policy, Records(old(log.file.pieces)), RequestOf(ctx, bundle), now)
              && forall i :: 0 <= i < |moments| ==> moments[i].signs && moments[i].fault.None?
    ensures !Readable(old(log.file.pieces)) ==> outcome.Failed? && log.file.pieces == old(log.file.pieces)
    ensures outcome.Refused? <==>
              && Readable(old(log.file.pieces)) && BundleSound(ctx, bundle) && note.fault.None?
              && !Allowed(ctx.policy, Records(old(log.file.pieces)), RequestOf(ctx, bundle), now)
    ensures outcome.Parked? <==>
              && Readable(old(log.file.pieces)) && BundleSound(ctx, bundle) && note.fault.None?
              && Allowed(ctx.policy, Records(old(log.file.pieces)), RequestOf(ctx, bundle), now)
              && (approval.PrepareOnly?
                  || (ctx.policy.mode.Confirm? && (approval.Deferred? || (approval.Interactive? && answer.None?))))
  {
    ghost var before := Records(log.file.pieces);
    NothingRecorded(ctx, bundle, approval, answer, now, moments, before);
    var stop := Authorize(ctx, bundle, approval, answer, log, now, note);
    if stop.Some? { return stop.value, 0; }
    AllowedCountable(ctx.policy, before, RequestOf(ctx, bundle), now);
    hide BundleSound, Recorded, Allowed, Records;
    outcome, k := SignSteps(ctx, ReviewsOf(bundle), log, moments);
  }

  lemma NothingRecorded(ctx: Context, bundle: Bundle, approval: Approval, answer: Option<bool>, now: nat,
      moments: seq<Moment>, before: seq<SpendRecord>)
    requires |moments| == |bundle.steps|
    ensures RecordsFor(ctx, bundle, approval, answer, now, moments, before, before, 0)
  {
    assert before + Recorded(ReviewsOf(bundle), ctx.w.policy, moments, 0) == before;
  }

  lemma AllowedCountable(policy: Policy, history: seq<SpendRecord>, request: Request, now: nat)
    requires Allowed(policy, history, request, now)
    ensures Countable(request.reviews, request.policyAsset) && request.reviews != []
  {}
}
