/** Every interleaving of the controller's one serialized task with locking, expiry, rejection and the clock. */
module ApprovalSafety {
  import opened Common
  import opened Coins
  import opened Pset
  import opened Operations
  import opened Controller
  import opened LedgerTheorems

  /** The serialized task, wherever it is waiting. */
  datatype Task =
    | Idle
    | Preparing(session: nat, op: Operation, origin: nat)
    | Broadcasting(approval: Approval)
    | PlanningOffer(approval: Approval)
    | Elsewhere                          // any wait after which the call only ends or changes session or settings

  /** A signature, with what was presented for it and the session in force. */
  datatype Signature =
    | First(approval: Approval, token: nat, hash: nat, at: nat, inForce: Option<nat>)
    | Second(approval: Approval, plan: PreparedPlan, at: nat, inForce: Option<nat>)

  /** `issued` are the approval ids and `sessions` the sessions made so far; `filed` the approvals
      ever filed and `signed` the signatures made, in order. */
  datatype System = System(
    c: Control, task: Task, issued: set<nat>, sessions: set<nat>, filed: set<Approval>, signed: seq<Signature>)

  datatype Event =
    // at any time
    | RejectCall(id: nat)
    | UnlockedCall(now: nat)
    | SnapshotCall(now: nat)
    // when the queue is free
    | StartPrepare(op: Operation, origin: nat, now: nat)
    | StartApprove(id: nat, token: nat, hash: nat, fromUi: bool, signs: bool, offered: bool, now: nat)
    | StartOther(now: nat)
    | TimerFires(now: nat)
    // when the call resumes
    | PlanReady(plan: PreparedPlan, hash: nat, id: nat, token: nat, timeout: nat, now: nat)
    | BroadcastDone(accepted: bool, now: nat)
    | OfferPlanned(review: TxReview, outpoint: OutPoint, signs: bool, now: nat)
    | SessionOpened(session: nat, autoLock: nat, now: nat)
    | SettingsSaved(autoLock: nat, relock: bool, now: nat)
    | LockRequested
    | TaskEnds

  /** Approval ids and sessions are never reused. */
  predicate Enabled(s: System, e: Event) {
    match e
    case RejectCall(_) => true
    case UnlockedCall(_) => true
    case SnapshotCall(_) => true
    case StartPrepare(_, _, _) => s.task.Idle?
    case StartApprove(_, _, _, _, _, _, _) => s.task.Idle?
    case StartOther(_) => s.task.Idle?
    case TimerFires(_) => s.task.Idle?
    case PlanReady(_, _, id, _, _, _) => s.task.Preparing? && id !in s.issued
    case BroadcastDone(_, _) => s.task.Broadcasting?
    case OfferPlanned(_, _, _, _) => s.task.PlanningOffer?
    case SessionOpened(session, _, _) => s.task.Elsewhere? && session !in s.sessions
    case SettingsSaved(_, _, _) => s.task.Elsewhere?
    case LockRequested => s.task.Elsewhere?
    case TaskEnds => !s.task.Idle?
  }

  /** After a first signature: an offer ends the call, as does a mismatch; anything else is broadcast. */
  function AfterSigning(a: Approval, offered: bool): Task {
    if offered || (a.op.SwapOfferOp? && !a.plan.offered.SplitFirst?) then Elsewhere else Broadcasting(a)
  }

  function Approve(s: System, id: nat, token: nat, hash: nat, fromUi: bool, signs: bool, offered: bool,
      now: nat): System {
    var idle := IdleExpired(s.c, now);
    var c := if fromUi then ApprovalsExpired(idle, now) else idle;
    if !MayApprove(c, id, token, hash, now) || !signs then s.(c := Rejected(c, id), task := Elsewhere)
    else
      var a := c.pending[id];
      s.(c := Rejected(c, id).(lastActivity := now), task := AfterSigning(a, offered),
         signed := s.signed + [First(a, token, hash, now, c.session)])
  }

  ghost predicate OfferOk(a: Approval, plan: PreparedPlan) {
    a.op.SwapOfferOp? && OfferStructure(plan.review, plan.offered) && DeltasAre(plan.review, a.op, plan)
  }

  ghost function Planned(genesis: nat, s: System, plan: PreparedPlan, hash: nat, id: nat, token: nat, expires: nat,
      now: nat): System {
    if !s.task.Preparing? || !Matches(s.task.op, plan, genesis) then s.(task := Elsewhere)
    else
      var a := Approval(id, token, s.task.origin, s.task.op, plan, hash, s.task.session, expires);
      s.(c := Filed(s.c, a, now), task := Elsewhere, issued := s.issued + {id}, filed := s.filed + {a})
  }

  ghost function Next(genesis: nat, s: System, e: Event): System {
    match e
    case RejectCall(id) => s.(c := Rejected(s.c, id))
    case UnlockedCall(now) => s.(c := IdleExpired(s.c, now))
    case SnapshotCall(now) => if s.c.session.None? then s else s.(c := s.c.(lastActivity := now))
    case StartPrepare(op, origin, now) =>
      var c := ApprovalsExpired(IdleExpired(s.c, now), now);
      s.(c := c, task := if c.session.None? || |c.pending| >= MAX_PENDING_APPROVALS then Elsewhere
                         else Preparing(c.session.value, op, origin))
    case StartApprove(id, token, hash, fromUi, signs, offered, now) => Approve(s, id, token, hash, fromUi, signs,
        offered, now)
    case StartOther(now) => s.(c := ApprovalsExpired(IdleExpired(s.c, now), now), task := Elsewhere)
    case TimerFires(now) => s.(c := IdleExpired(s.c, now))
    case PlanReady(plan, hash, id, token, timeout, now) => Planned(genesis, s, plan, hash, id, token, now + timeout,
        now)
    case BroadcastDone(accepted, now) =>
      if !s.task.Broadcasting? || !accepted then s.(task := Elsewhere)
      else
        var a := s.task.approval;
        s.(c := s.c.(lastActivity := now),
           task := if a.op.SwapOfferOp? && a.session !in s.c.destroyed then PlanningOffer(a) else Elsewhere)
    case OfferPlanned(review, outpoint, signs, now) =>
      var plan := PreparedPlan(review, Direct(outpoint), []);
      if !s.task.PlanningOffer? || !signs || !OfferOk(s.task.approval, plan) || s.task.approval.session in s.c.destroyed
      then s.(task := Elsewhere)
      else s.(task := Elsewhere, signed := s.signed + [Second(s.task.approval, plan, now, s.c.session)])
    case SessionOpened(session, autoLock, now) =>
      s.(c := Adopted(Locked(s.c), session, autoLock, now), sessions := s.sessions + {session})
    case SettingsSaved(autoLock, relock, now) =>
      var c := s.c.(autoLock := autoLock);
      s.(c := if relock then Locked(c) else if c.session.Some? then c.(lastActivity := now) else c)
    case LockRequested => s.(c := Locked(s.c))
    case TaskEnds => s.(task := Idle)
  }

  // ---- What every event keeps ----------------------------------------------------------------------

  /** The approval was filed, and so passed the exact-request check. */
  ghost predicate Genuine(genesis: nat, s: System, a: Approval) {
    a in s.filed && Matches(a.op, a.plan, genesis) && a.id in s.issued
  }

  ghost predicate PendingSound(genesis: nat, s: System) {
    && |s.c.pending| <= MAX_PENDING_APPROVALS
    && (s.task.Preparing? ==> |s.c.pending| < MAX_PENDING_APPROVALS)
    && (forall id :: id in s.c.pending ==> s.c.pending[id].id == id && Genuine(genesis, s, s.c.pending[id]))
  }

  ghost predicate SessionsSound(s: System) {
    s.c.destroyed <= s.sessions && (s.c.session.Some?
        ==> s.c.session.value in s.sessions && s.c.session.value !in s.c.destroyed)
  }

  /** Signed in the approval's own session, before it expired, with its own token and hash. */
  predicate FirstSound(g: Signature)
    requires g.First?
  {
    g.inForce == Some(g.approval.session) && g.at < g.approval.expires && g.token == g.approval.token
        && g.hash == g.approval.hash
  }

  ghost predicate SignaturesSound(genesis: nat, s: System) {
    && (forall i ::
        0 <= i < |s.signed| ==> Genuine(genesis, s, s.signed[i].approval) && s.signed[i].approval.id !in s.c.pending)
    && (forall i :: 0 <= i < |s.signed| && s.signed[i].First? ==> FirstSound(s.signed[i]))
    && (forall i, j :: 0 <= i < j < |s.signed| && s.signed[i].First? && s.signed[j].First? ==>
          s.signed[i].approval.id != s.signed[j].approval.id)
  }

  predicate SplitOffer(a: Approval) {
    a.op.SwapOfferOp? && a.plan.offered.SplitFirst?
  }

  /** The approval has a first signature among the first `n`. */
  ghost predicate HasFirst(signed: seq<Signature>, n: nat, a: Approval) {
    exists i :: 0 <= i < n && i < |signed| && signed[i].First? && signed[i].approval == a
  }

  /** A second signature follows the first one of the same split offer, and there is one at most. */
  ghost predicate SecondsSound(s: System) {
    && (forall j :: 0 <= j < |s.signed| && s.signed[j].Second? ==>
          && SplitOffer(s.signed[j].approval) && OfferOk(s.signed[j].approval, s.signed[j].plan)
          && HasFirst(s.signed, j, s.signed[j].approval))
    && (forall i, j :: 0 <= i < j < |s.signed| && s.signed[i].Second? && s.signed[j].Second? ==>
          s.signed[i].approval.id != s.signed[j].approval.id)
  }

  /** An approval in flight has been signed once, is a split if it is an offer, and has no second signature. */
  ghost predicate FlightSound(s: System) {
    s.task.Broadcasting? || s.task.PlanningOffer? ==>
      && HasFirst(s.signed, |s.signed|, s.task.approval)
      && (s.task.approval.op.SwapOfferOp? ==> s.task.approval.plan.offered.SplitFirst?)
      && (s.task.PlanningOffer? ==> s.task.approval.op.SwapOfferOp?)
      && (forall i :: 0 <= i < |s.signed| && s.signed[i].Second? ==> s.signed[i].approval.id != s.task.approval.id)
  }

  ghost predicate Sound(genesis: nat, s: System) {
    PendingSound(genesis, s) && SessionsSound(s) && SignaturesSound(genesis, s) && SecondsSound(s) && FlightSound(s)
  }

  const EMPTY := System(Control(None, map[], 0, 0, {}), Idle, {}, {}, {}, [])

  /** `c` has no more pending than before, and the same session or none. */
  ghost predicate Shrinks(before: Control, after: Control) {
    && after.pending.Keys <= before.pending.Keys
        && (forall id :: id in after.pending ==> after.pending[id] == before.pending[id])
    && ((after.session == before.session && after.destroyed == before.destroyed)
        || (after.session.None?
            && after.destroyed == before.destroyed + if before.session.Some? then {before.session.value} else {}))
  }

  lemma SubmapSize(small: map<nat, Approval>, large: map<nat, Approval>)
    requires small.Keys <= large.Keys
    ensures |small| <= |large|
  {
    SubsetSize(small.Keys, large.Keys);
    assert |small.Keys| == |small| && |large.Keys| == |large|;
  }

  lemma SubsetSize(a: set<nat>, b: set<nat>)
    requires a <= b
    ensures |a| <= |b|
  {
    assert b == a + (b - a);
  }

  lemma PendingShrinks(genesis: nat, s: System, next: System)
    requires PendingSound(genesis, s) && SessionsSound(s) && Shrinks(s.c, next.c)
    requires next.issued == s.issued && next.sessions == s.sessions && next.filed == s.filed
    requires next.task.Preparing? ==> |next.c.pending| < MAX_PENDING_APPROVALS
    ensures PendingSound(genesis, next) && SessionsSound(next)
  {
    SubmapSize(next.c.pending, s.c.pending);
    hide Matches;
  }

  lemma SignaturesShrink(genesis: nat, s: System, next: System)
    requires SignaturesSound(genesis, s) && SecondsSound(s) && Shrinks(s.c, next.c)
    requires next.issued == s.issued && next.filed == s.filed && next.signed == s.signed
    ensures SignaturesSound(genesis, next) && SecondsSound(next)
  {
    hide Matches, OfferOk, FirstSound, HasFirst, SplitOffer;
  }

  /** Locking, expiry, rejection and touching keep everything, whatever the call becomes outside a signature. */
  lemma ShrinkSound(genesis: nat, s: System, next: System)
    requires Sound(genesis, s) && Shrinks(s.c, next.c)
    requires next.issued == s.issued && next.sessions == s.sessions && next.filed == s.filed && next.signed == s.signed
    requires next.task == s.task || next.task.Idle? || next.task.Elsewhere?
             || (next.task.Preparing? && |next.c.pending| < MAX_PENDING_APPROVALS)
             || (s.task.Broadcasting? && s.task.approval.op.SwapOfferOp? && next.task == PlanningOffer(s.task.approval))
    ensures Sound(genesis, next)
  {
    assert PendingSound(genesis, s) && SessionsSound(s) && SignaturesSound(genesis, s) && SecondsSound(s)
        && FlightSound(s);
    PreparingFits(genesis, s, next);
    FlightKept(s, next);
    hide PendingSound, SessionsSound, SignaturesSound, SecondsSound, FlightSound, Shrinks;
    PendingShrinks(genesis, s, next);
    SignaturesShrink(genesis, s, next);
  }

  lemma PreparingFits(genesis: nat, s: System, next: System)
    requires PendingSound(genesis, s) && Shrinks(s.c, next.c)
    requires next.task == s.task || !next.task.Preparing? || |next.c.pending| < MAX_PENDING_APPROVALS
    ensures next.task.Preparing? ==> |next.c.pending| < MAX_PENDING_APPROVALS
  {
    SubmapSize(next.c.pending, s.c.pending);
    hide Genuine;
  }

  lemma FlightKept(s: System, next: System)
    requires FlightSound(s) && next.signed == s.signed
    requires next.task == s.task || next.task.Idle? || next.task.Elsewhere? || next.task.Preparing?
             || (s.task.Broadcasting? && s.task.approval.op.SwapOfferOp? && next.task == PlanningOffer(s.task.approval))
    ensures FlightSound(next)
  {
    hide HasFirst;
  }

  lemma FirstKept(signed: seq<Signature>, g: Signature, n: nat, a: Approval)
    ensures HasFirst(signed, n, a) ==> HasFirst(signed + [g], n, a)
  {
    if HasFirst(signed, n, a) {
      var i :| 0 <= i < n && i < |signed| && signed[i].First? && signed[i].approval == a;
      assert (signed + [g])[i] == signed[i];
    }
  }

  lemma SecondsKept(s: System, next: System, g: Signature)
    requires SecondsSound(s) && next.signed == s.signed + [g]
    requires g.Second? ==>
               && SplitOffer(g.approval) && OfferOk(g.approval, g.plan) && HasFirst(s.signed, |s.signed|, g.approval)
               && forall i :: 0 <= i < |s.signed| && s.signed[i].Second? ==> s.signed[i].approval.id != g.approval.id
    ensures SecondsSound(next)
  {
    hide OfferOk, HasFirst, SplitOffer;
    forall j | 0 <= j < |next.signed| && next.signed[j].Second?
      ensures SplitOffer(next.signed[j].approval) && OfferOk(next.signed[j].approval, next.signed[j].plan)
      ensures HasFirst(next.signed, j, next.signed[j].approval)
    {
      FirstKept(s.signed, g, j, next.signed[j].approval);
      assert j < |s.signed| ==> next.signed[j] == s.signed[j];
    }
  }

  lemma EffectsShrink(c: Control, now: nat, id: nat, autoLock: nat)
    ensures Shrinks(c, IdleExpired(c, now)) && Shrinks(c, ApprovalsExpired(IdleExpired(c, now), now))
        && Shrinks(c, Locked(c))
    ensures Shrinks(c, Rejected(c, id)) && Shrinks(c, c.(lastActivity := now))
    ensures Shrinks(c, Locked(c.(autoLock := autoLock))) && Shrinks(c, c.(autoLock := autoLock))
    ensures Shrinks(c, c.(autoLock := autoLock, lastActivity := now))
    ensures Shrinks(c, Rejected(IdleExpired(c, now), id))
        && Shrinks(c, Rejected(ApprovalsExpired(IdleExpired(c, now), now), id))
  {}

  /** The controller when the approval is looked up. */
  function AtLookup(s: System, fromUi: bool, now: nat): Control {
    if fromUi then ApprovalsExpired(IdleExpired(s.c, now), now) else IdleExpired(s.c, now)
  }

  lemma TakenSound(genesis: nat, s: System, id: nat, fromUi: bool, now: nat)
    requires Sound(genesis, s)
    ensures var c := AtLookup(s, fromUi, now);
            && Sound(genesis, s.(c := Rejected(c, id), task := Elsewhere))
            && (id in c.pending ==>
                  && Genuine(genesis, s, c.pending[id]) && c.pending[id].id == id
                  && forall i :: 0 <= i < |s.signed| ==> s.signed[i].approval.id != id)
  {
    EffectsShrink(s.c, now, id, 0);
    var c := AtLookup(s, fromUi, now);
    assert id in c.pending ==> id in s.c.pending && c.pending[id] == s.c.pending[id];
    assert PendingSound(genesis, s) && SignaturesSound(genesis, s);
    hide Sound, Shrinks, Genuine, Rejected, IdleExpired, ApprovalsExpired, FirstSound;
    ShrinkSound(genesis, s, s.(c := Rejected(c, id), task := Elsewhere));
  }

  lemma ApproveSound(genesis: nat, s: System, id: nat, token: nat, hash: nat, fromUi: bool, signs: bool,
      offered: bool, now: nat)
    requires Sound(genesis, s)
    ensures Sound(genesis, Approve(s, id, token, hash, fromUi, signs, offered, now))
  {
    TakenSound(genesis, s, id, fromUi, now);
    hide Sound, Genuine, IdleExpired, ApprovalsExpired;
    var c := AtLookup(s, fromUi, now);
    if MayApprove(c, id, token, hash, now) && signs {
      var a := c.pending[id];
      SignedSound(genesis, s.(c := Rejected(c, id), task := Elsewhere),
          Approve(s, id, token, hash, fromUi, signs, offered, now),
                  a, First(a, token, hash, now, c.session));
    }
  }

  /** Signing an approval just taken out of the pending ones. */
  lemma SignedSound(genesis: nat, s: System, next: System, a: Approval, g: Signature)
    requires Sound(genesis, s) && s.task.Elsewhere? && g.First? && g.approval == a && FirstSound(g)
        && Genuine(genesis, s, a)
    requires a.id !in s.c.pending && forall i :: 0 <= i < |s.signed| ==> s.signed[i].approval.id != a.id
    requires next.c == s.c.(lastActivity := next.c.lastActivity)
    requires next.issued == s.issued && next.sessions == s.sessions && next.filed == s.filed
        && next.signed == s.signed + [g]
    requires next.task.Elsewhere? || (next.task == Broadcasting(a)
        && (a.op.SwapOfferOp? ==> a.plan.offered.SplitFirst?))
    ensures Sound(genesis, next)
  {
    hide Matches, OfferOk, FirstSound;
    forall i | 0 <= i < |next.signed|
      ensures Genuine(genesis, next, next.signed[i].approval) && next.signed[i].approval.id !in next.c.pending
    {
      assert i < |s.signed| ==> next.signed[i] == s.signed[i];
    }
    assert next.signed[|s.signed|] == g;
    SecondsKept(s, next, g);
    assert HasFirst(next.signed, |next.signed|, a);
    hide HasFirst, SecondsSound;
  }

  /** Filing takes one place at most. */
  lemma FiledSize(pending: map<nat, Approval>, a: Approval)
    requires |pending| < MAX_PENDING_APPROVALS
    ensures |KeptFor(pending, a.origin)[a.id := a]| <= MAX_PENDING_APPROVALS
  {
    var kept := KeptFor(pending, a.origin);
    assert kept.Keys <= pending.Keys;
    SubmapSize(kept, pending);
    hide KeptFor;
    assert kept[a.id := a].Keys == kept.Keys + {a.id};
    assert |kept[a.id := a]| == |kept[a.id := a].Keys| && |kept| == |kept.Keys|;
    UnionOne(kept.Keys, a.id);
  }

  lemma UnionOne(s: set<nat>, x: nat)
    ensures |s + {x}| <= |s| + 1
  {
    if x in s { assert s + {x} == s; }
  }

  lemma GenuineKept(genesis: nat, s: System, next: System, a: Approval, b: Approval)
    requires Genuine(genesis, s, b) && a.id !in s.issued
    requires next.issued == s.issued + {a.id} && next.filed == s.filed + {a}
    ensures Genuine(genesis, next, b) && b.id != a.id
  {
    hide Matches;
  }

  lemma FiledPending(genesis: nat, s: System, next: System, a: Approval, now: nat)
    requires PendingSound(genesis, s) && s.task.Preparing? && a.id !in s.issued && Matches(a.op, a.plan, genesis)
    requires next == s.(c := Filed(s.c, a, now), task := Elsewhere, issued := s.issued + {a.id}, filed := s.filed + {a})
    ensures PendingSound(genesis, next)
  {
    FiledSize(s.c.pending, a);
    hide Matches;
    forall id | id in next.c.pending
      ensures next.c.pending[id].id == id && Genuine(genesis, next, next.c.pending[id])
    {
      if id != a.id { GenuineKept(genesis, s, next, a, s.c.pending[id]); }
    }
  }

  lemma FiledSignatures(genesis: nat, s: System, next: System, a: Approval, now: nat)
    requires SignaturesSound(genesis, s) && a.id !in s.issued
    requires next == s.(c := Filed(s.c, a, now), task := Elsewhere, issued := s.issued + {a.id}, filed := s.filed + {a})
    ensures SignaturesSound(genesis, next)
  {
    hide FirstSound;
    forall i | 0 <= i < |next.signed|
      ensures Genuine(genesis, next, next.signed[i].approval) && next.signed[i].approval.id !in next.c.pending
    {
      GenuineKept(genesis, s, next, a, s.signed[i].approval);
      hide Genuine;
    }
    hide Genuine;
  }

  lemma FiledSound(genesis: nat, s: System, next: System, a: Approval, now: nat)
    requires Sound(genesis, s) && s.task.Preparing? && a.id !in s.issued && Matches(a.op, a.plan, genesis)
    requires next == s.(c := Filed(s.c, a, now), task := Elsewhere, issued := s.issued + {a.id}, filed := s.filed + {a})
    ensures Sound(genesis, next)
  {
    assert SecondsSound(next) && FlightSound(next) && SessionsSound(next) by {
      hide OfferOk, HasFirst, SplitOffer, PendingSound, SignaturesSound;
    }
    assert PendingSound(genesis, s) && SignaturesSound(genesis, s);
    hide Matches, Filed, PendingSound, SignaturesSound, SecondsSound, FlightSound, SessionsSound;
    FiledPending(genesis, s, next, a, now);
    FiledSignatures(genesis, s, next, a, now);
  }

  lemma PlanReadySound(genesis: nat, s: System, plan: PreparedPlan, hash: nat, id: nat, token: nat, expires: nat,
      now: nat)
    requires Sound(genesis, s) && s.task.Preparing? && id !in s.issued
    ensures Sound(genesis, Planned(genesis, s, plan, hash, id, token, expires, now))
  {
    EffectsShrink(s.c, s.c.lastActivity, 0, 0);
    assert s.c.(lastActivity := s.c.lastActivity) == s.c;
    hide Matches, Sound, Shrinks, Filed;
    if !Matches(s.task.op, plan, genesis) {
      ShrinkSound(genesis, s, s.(task := Elsewhere));
    } else {
      var a := Approval(id, token, s.task.origin, s.task.op, plan, hash, s.task.session, expires);
      FiledSound(genesis, s, Planned(genesis, s, plan, hash, id, token, expires, now), a, now);
    }
  }

  lemma BroadcastSound(genesis: nat, s: System, e: Event)
    requires Sound(genesis, s) && e.BroadcastDone? && Enabled(s, e)
    ensures Sound(genesis, Next(genesis, s, e))
  {
    EffectsShrink(s.c, e.now, 0, 0);
    EffectsShrink(s.c, s.c.lastActivity, 0, 0);
    assert s.c.(lastActivity := s.c.lastActivity) == s.c;
    hide Matches, Sound, Shrinks;
    ShrinkSound(genesis, s, Next(genesis, s, e));
  }

  lemma OfferPlannedSound(genesis: nat, s: System, e: Event)
    requires Sound(genesis, s) && e.OfferPlanned? && Enabled(s, e)
    ensures Sound(genesis, Next(genesis, s, e))
  {
    var next := Next(genesis, s, e);
    var a, plan := s.task.approval, PreparedPlan(e.review, Direct(e.outpoint), []);
    EffectsShrink(s.c, s.c.lastActivity, 0, 0);
    assert s.c.(lastActivity := s.c.lastActivity) == s.c;
    if !e.signs || !OfferOk(a, plan) || a.session in s.c.destroyed {
      hide OfferOk, Matches, Sound, Shrinks;
      ShrinkSound(genesis, s, next);
    } else {
      var g := Second(a, plan, e.now, s.c.session);
      assert HasFirst(s.signed, |s.signed|, a) && SplitOffer(a);
      hide OfferOk, Matches;
      SecondsKept(s, next, g);
      SecondGenuine(genesis, s, next, g);
    }
  }

  lemma AlreadyGenuine(genesis: nat, s: System, a: Approval)
    requires SignaturesSound(genesis, s) && HasFirst(s.signed, |s.signed|, a)
    ensures Genuine(genesis, s, a) && a.id !in s.c.pending
  {
    var i :| 0 <= i < |s.signed| && s.signed[i].First? && s.signed[i].approval == a;
    hide Genuine, FirstSound;
  }

  /** A second signature is for an approval already signed once. */
  lemma SecondGenuine(genesis: nat, s: System, next: System, g: Signature)
    requires Sound(genesis, s) && g.Second? && HasFirst(s.signed, |s.signed|, g.approval)
    requires next == s.(task := Elsewhere, signed := s.signed + [g]) && SecondsSound(next)
    ensures Sound(genesis, next)
  {
    AlreadyGenuine(genesis, s, g.approval);
    hide HasFirst, SecondsSound, FirstSound, OfferOk, Matches;
    forall j | 0 <= j < |next.signed|
      ensures Genuine(genesis, next, next.signed[j].approval) && next.signed[j].approval.id !in next.c.pending
      ensures next.signed[j].First? ==> j < |s.signed| && next.signed[j] == s.signed[j]
    {
      assert j < |s.signed| ==> next.signed[j] == s.signed[j];
    }
  }

  lemma SessionOpenedSound(genesis: nat, s: System, e: Event)
    requires Sound(genesis, s) && e.SessionOpened? && Enabled(s, e)
    ensures Sound(genesis, Next(genesis, s, e))
  {
    hide Matches, OfferOk, FirstSound, HasFirst, SplitOffer;
  }

  lemma StepSound(genesis: nat, s: System, e: Event)
    requires Sound(genesis, s) && Enabled(s, e)
    ensures Sound(genesis, Next(genesis, s, e))
  {
    hide Sound, Planned, Approve, Filed, ApprovalsExpired, IdleExpired, Locked, Adopted, OfferOk;
    match e {
      case StartApprove(id, token, hash, fromUi, signs, offered, now) =>
        ApproveSound(genesis, s, id, token, hash, fromUi, signs, offered, now);
      case PlanReady(plan, hash, id, token, timeout, now) => PlanReadySound(genesis, s, plan, hash, id, token,
          now + timeout, now);
      case BroadcastDone(_, _) => BroadcastSound(genesis, s, e);
      case OfferPlanned(_, _, _, _) => OfferPlannedSound(genesis, s, e);
      case SessionOpened(_, _, _) => SessionOpenedSound(genesis, s, e);
      case _ => QuietSound(genesis, s, e);
    }
  }

  /** The events that neither file nor sign nor open anything. */
  predicate Quiet(e: Event) {
    !e.StartApprove? && !e.PlanReady? && !e.BroadcastDone? && !e.OfferPlanned? && !e.SessionOpened?
  }

  lemma QuietShrinks(genesis: nat, s: System, e: Event)
    requires Enabled(s, e) && Quiet(e)
    ensures var next := Next(genesis, s, e);
            && Shrinks(s.c, next.c)
            && next.issued == s.issued && next.sessions == s.sessions && next.filed == s.filed
                && next.signed == s.signed
            && (next.task == s.task || next.task.Idle? || next.task.Elsewhere?
                || (next.task.Preparing? && |next.c.pending| < MAX_PENDING_APPROVALS))
  {
    var now := match e {
      case UnlockedCall(now) => now case SnapshotCall(now) => now case StartPrepare(_, _, now) => now
      case StartOther(now) => now case TimerFires(now) => now case SettingsSaved(_, _, now) => now
      case _ => s.c.lastActivity };
    EffectsShrink(s.c, now, if e.RejectCall? then e.id else 0, if e.SettingsSaved? then e.autoLock else 0);
    assert s.c.(lastActivity := s.c.lastActivity) == s.c;
    hide Planned, Approve, Shrinks, Locked, IdleExpired, ApprovalsExpired, Rejected, Adopted, OfferOk;
  }

  lemma QuietSound(genesis: nat, s: System, e: Event)
    requires Sound(genesis, s) && Enabled(s, e) && Quiet(e)
    ensures Sound(genesis, Next(genesis, s, e))
  {
    hide *;
    QuietShrinks(genesis, s, e);
    ShrinkSound(genesis, s, Next(genesis, s, e));
  }

  // ---- Whole runs ------------------------------------------------------------------------------------

  ghost predicate Reaches(genesis: nat, s: System, events: seq<Event>, end: System)
    decreases |events|
  {
    if events == [] then s == end
    else Enabled(s, events[0]) && Reaches(genesis, Next(genesis, s, events[0]), events[1..], end)
  }

  lemma {:induction false} RunSound(genesis: nat, s: System, events: seq<Event>, end: System)
    requires Sound(genesis, s) && Reaches(genesis, s, events, end)
    ensures Sound(genesis, end)
    decreases |events|
  {
    if events != [] {
      hide Sound, Next, Enabled;
      StepSound(genesis, s, events[0]);
      RunSound(genesis, Next(genesis, s, events[0]), events[1..], end);
    }
  }

  /** The signature was made in the approval's session, in time, with its own token and hash. */
  lemma FirstMeans(g: Signature)
    requires g.First? && FirstSound(g)
    ensures g.inForce == Some(g.approval.session) && g.at < g.approval.expires
    ensures g.token == g.approval.token && g.hash == g.approval.hash
  {}

  /** Whatever transaction the plan of a second signature reviews exchanges exactly the coin offered for exactly the
      coin that was asked for in the first place. */
  lemma SecondExchanges(w: Wallet, tx: Transaction, g: Signature)
    requires g.Second? && OfferOk(g.approval, g.plan)
    requires Accepts(w, tx, g.plan.review.kind) && Describes(w, tx, g.plan.review.kind, g.plan.review)
    ensures var op := g.approval.op;
            && op.SwapOfferOp? && g.plan.offered.Direct?
            && Exchanges(w, tx, g.plan.offered.outpoint, Coin(op.giveAsset, op.giveAmount),
                Coin(op.wantAsset, op.wantAmount))
  {
    assert g.plan.offered.Direct? by {
      hide DeltasAre, Accepts, Describes;
    }
    hide OfferStructure, DeltasAre, Accepts, Describes, Exchanges;
    OfferLedger(w, tx, g.approval.op, g.plan);
  }

  /** Each first-stage signature consumes its own filed approval, checked against its request, not yet
      expired, with matching token and hash, in the approval's own session; a second one only completes a split offer
      signed before, once, and signs for nothing but the coin offered, against what the same request wants. */
  lemma OneApprovalOneSigning(genesis: nat, events: seq<Event>, end: System)
    requires Reaches(genesis, EMPTY, events, end)
    ensures |end.c.pending| <= 8
    ensures forall i :: 0 <= i < |end.signed| ==>
              end.signed[i].approval in end.filed
                  && Matches(end.signed[i].approval.op, end.signed[i].approval.plan, genesis)
    ensures forall g :: g in end.signed && g.First? ==>
              && g.inForce == Some(g.approval.session) && g.at < g.approval.expires
              && g.token == g.approval.token && g.hash == g.approval.hash
    ensures forall i, j :: 0 <= i < j < |end.signed| && end.signed[i].First? == end.signed[j].First? ==>
              end.signed[i].approval.id != end.signed[j].approval.id
    ensures forall j :: 0 <= j < |end.signed| && end.signed[j].Second? ==>
              && end.signed[j].approval.op.SwapOfferOp? && end.signed[j].approval.plan.offered == SplitFirst
              && end.signed[j].plan.offered.Direct?
              && exists i :: 0 <= i < j && end.signed[i].First? && end.signed[i].approval == end.signed[j].approval
    ensures forall w, tx, g | g in end.signed && g.Second?
              && Accepts(w, tx, g.plan.review.kind) && Describes(w, tx, g.plan.review.kind, g.plan.review) ::
              Exchanges(w, tx, g.plan.offered.outpoint, Coin(g.approval.op.giveAsset, g.approval.op.giveAmount),
                  Coin(g.approval.op.wantAsset, g.approval.op.wantAmount))
  {
    assert Sound(genesis, EMPTY) by {
      hide Matches, OfferOk, HasFirst;
    }
    RunSound(genesis, EMPTY, events, end);
    hide Matches, OfferOk, FirstSound, Reaches, Accepts, Describes, Exchanges;
    forall g | g in end.signed && g.First?
      ensures g.inForce == Some(g.approval.session) && g.at < g.approval.expires
      ensures g.token == g.approval.token && g.hash == g.approval.hash
    {
      FirstMeans(g);
    }
    forall w, tx, g | g in end.signed && g.Second?
        && Accepts(w, tx, g.plan.review.kind) && Describes(w, tx, g.plan.review.kind, g.plan.review)
      ensures Exchanges(w, tx, g.plan.offered.outpoint, Coin(g.approval.op.giveAsset, g.approval.op.giveAmount),
          Coin(g.approval.op.wantAsset, g.approval.op.wantAmount))
    {
      SecondExchanges(w, tx, g);
    }
    forall j | 0 <= j < |end.signed| && end.signed[j].Second?
      ensures end.signed[j].plan.offered.Direct?
    {
      SecondDirect(end.signed[j]);
    }
    assert forall i :: 0 <= i < |end.signed| ==> Genuine(genesis, end, end.signed[i].approval);
  }

  lemma SecondDirect(g: Signature)
    requires g.Second? && OfferOk(g.approval, g.plan)
    ensures g.approval.op.SwapOfferOp? && g.plan.offered.Direct?
  {
    hide DeltasAre;
  }

  /** Signatures after `n` are made in sessions that had not been destroyed at the start. */
  ghost predicate NoneStale(signed: seq<Signature>, n: nat, destroyed: set<nat>) {
    forall i :: n <= i < |signed| ==> signed[i].approval.session !in destroyed
  }

  lemma StepNeverStale(genesis: nat, s: System, e: Event)
    requires Sound(genesis, s) && Enabled(s, e)
    ensures var next := Next(genesis, s, e);
            s.c.destroyed <= next.c.destroyed && s.signed <= next.signed
                && NoneStale(next.signed, |s.signed|, s.c.destroyed)
  {
    hide Matches, OfferOk, HasFirst, FirstSound, SplitOffer, PendingSound, SignaturesSound, SecondsSound, FlightSound;
  }

  /** Once a session has been destroyed, none of its approvals is ever signed, at either stage. */
  lemma {:induction false} StaleNeverSigns(genesis: nat, s: System, events: seq<Event>, end: System)
    requires Sound(genesis, s) && Reaches(genesis, s, events, end)
    ensures s.signed <= end.signed && s.c.destroyed <= end.c.destroyed
        && NoneStale(end.signed, |s.signed|, s.c.destroyed)
    decreases |events|
  {
    if events != [] {
      var next := Next(genesis, s, events[0]);
      StepSound(genesis, s, events[0]);
      StepNeverStale(genesis, s, events[0]);
      hide Sound, Next, Enabled;
      StaleNeverSigns(genesis, next, events[1..], end);
    }
  }

  // ---- Approvals that are gone --------------------------------------------------------------------------

  /** No first signature after `n` is for the approval `id`. */
  ghost predicate NoFirst(signed: seq<Signature>, n: nat, id: nat) {
    forall i :: n <= i < |signed| && signed[i].First? ==> signed[i].approval.id != id
  }

  lemma GoneStaysGone(genesis: nat, s: System, e: Event, id: nat)
    requires Sound(genesis, s) && Enabled(s, e) && id in s.issued && id !in s.c.pending
    ensures var next := Next(genesis, s, e);
            && id in next.issued && id !in next.c.pending
            && s.signed <= next.signed && NoFirst(next.signed, |s.signed|, id)
  {
    if Quiet(e) {
      QuietShrinks(genesis, s, e);
      hide Next, Sound, Enabled;
    } else if e.StartApprove? {
      GoneNotTaken(genesis, s, e, id);
    } else if e.PlanReady? {
      GoneNotFiled(genesis, s, e, id);
    } else if e.OfferPlanned? {
      GoneNotSecond(genesis, s, e, id);
    } else {
      hide Matches, OfferOk, Sound;
    }
  }

  lemma GoneNotFiled(genesis: nat, s: System, e: Event, id: nat)
    requires Enabled(s, e) && e.PlanReady? && id in s.issued && id !in s.c.pending
    ensures var next := Next(genesis, s, e);
            && id in next.issued && id !in next.c.pending
            && s.signed <= next.signed && NoFirst(next.signed, |s.signed|, id)
  {
    hide Matches, OfferOk;
  }

  lemma GoneNotSecond(genesis: nat, s: System, e: Event, id: nat)
    requires e.OfferPlanned? && id in s.issued && id !in s.c.pending
    ensures var next := Next(genesis, s, e);
            && id in next.issued && id !in next.c.pending
            && s.signed <= next.signed && NoFirst(next.signed, |s.signed|, id)
  {
    hide Matches, OfferOk;
  }

  lemma GoneNotTaken(genesis: nat, s: System, e: Event, id: nat)
    requires Sound(genesis, s) && e.StartApprove? && id !in s.c.pending
    ensures var next := Next(genesis, s, e);
            && next.issued == s.issued && id !in next.c.pending
            && s.signed <= next.signed && NoFirst(next.signed, |s.signed|, id)
  {
    TakenSound(genesis, s, e.id, e.fromUi, e.now);
    LookupShrinks(s, e.fromUi, e.now);
    hide *;
    NextApproves(genesis, s, e);
    ApproveAdds(s, e.id, e.token, e.hash, e.fromUi, e.signs, e.offered, e.now);
    var next := Next(genesis, s, e);
    NoFirstSnoc(s.signed, next.signed, id);
  }

  lemma LookupShrinks(s: System, fromUi: bool, now: nat)
    ensures AtLookup(s, fromUi, now).pending.Keys <= s.c.pending.Keys
  {
    EffectsShrink(s.c, now, 0, 0);
    hide IdleExpired, ApprovalsExpired;
  }

  lemma NextApproves(genesis: nat, s: System, e: Event)
    requires e.StartApprove?
    ensures Next(genesis, s, e) == Approve(s, e.id, e.token, e.hash, e.fromUi, e.signs, e.offered, e.now)
  {
    hide Approve;
  }

  /** An approval adds at most the first signature of what was pending under its id. */
  lemma ApproveAdds(s: System, id: nat, token: nat, hash: nat, fromUi: bool, signs: bool, offered: bool, now: nat)
    ensures var next, c := Approve(s, id, token, hash, fromUi, signs, offered, now), AtLookup(s, fromUi, now);
            && next.issued == s.issued && next.c.pending.Keys <= c.pending.Keys
            && (next.signed == s.signed
                || (id in c.pending && next.signed == s.signed + [First(c.pending[id], token, hash, now, c.session)]))
  {
    hide IdleExpired, ApprovalsExpired;
  }

  lemma NoFirstSnoc(signed: seq<Signature>, more: seq<Signature>, id: nat)
    requires more == signed || exists g: Signature :: g.approval.id != id && more == signed + [g]
    ensures signed <= more && NoFirst(more, |signed|, id)
  {}

  /** An approval that was rejected, expired, taken or dropped by locking never gets a first signature again. */
  lemma {:induction false} GoneNeverSigns(genesis: nat, s: System, events: seq<Event>, end: System, id: nat)
    requires Sound(genesis, s) && Reaches(genesis, s, events, end) && id in s.issued && id !in s.c.pending
    ensures s.signed <= end.signed && id in end.issued && id !in end.c.pending && NoFirst(end.signed, |s.signed|, id)
    decreases |events|
  {
    if events != [] {
      var next := Next(genesis, s, events[0]);
      StepSound(genesis, s, events[0]);
      GoneStaysGone(genesis, s, events[0], id);
      hide Sound, Next, Enabled;
      GoneNeverSigns(genesis, next, events[1..], end, id);
    }
  }

  /** A first signature is made only in a session whose idle time has not run out. */
  lemma SignsOnlyActive(genesis: nat, s: System, e: Event)
    requires Enabled(s, e)
    ensures var next := Next(genesis, s, e);
            |next.signed| > |s.signed| && next.signed[|s.signed|].First? ==>
              && s.c.session == Some(next.signed[|s.signed|].approval.session)
              && next.signed[|s.signed|].at as int - s.c.lastActivity < s.c.autoLock
  {
    hide Matches, OfferOk;
  }

  /** A new session starts with nothing pending: only approvals filed afterwards are ever signed first in it, and
      the session before it is destroyed. */
  lemma SessionStartsClean(genesis: nat, s: System, e: Event, events: seq<Event>, end: System)
    requires Sound(genesis, s) && Enabled(s, e) && e.SessionOpened?
    requires Reaches(genesis, Next(genesis, s, e), events, end)
    ensures var next := Next(genesis, s, e);
            && next.c.session == Some(e.session) && next.c.pending == map[] && e.session !in next.c.destroyed
            && (s.c.session.Some? ==> s.c.session.value in next.c.destroyed)
    ensures forall i :: |s.signed| <= i < |end.signed| && end.signed[i].First? ==>
              end.signed[i].approval.id !in s.issued
  {
    var next := Next(genesis, s, e);
    assert SessionsSound(s) && next.signed == s.signed && next.issued == s.issued && next.c.pending == map[];
    StepSound(genesis, s, e);
    hide Sound, Reaches, SessionsSound, Next;
    forall i | |s.signed| <= i < |end.signed| && end.signed[i].First?
      ensures end.signed[i].approval.id !in s.issued
    {
      var id := end.signed[i].approval.id;
      if id in s.issued { GoneNeverSigns(genesis, next, events, end, id); }
    }
  }

  // ---- The wallet's own pages --------------------------------------------------------------------------

  /** At most one approval prepared from the wallet's own pages is pending. */
  predicate OneOwn(pending: map<nat, Approval>) {
    forall i, j :: i in pending && j in pending && pending[i].origin == 0 && pending[j].origin == 0 ==> i == j
  }

  lemma FiledOneOwn(c: Control, a: Approval, now: nat)
    requires OneOwn(c.pending)
    ensures var next := Filed(c, a, now);
            && OneOwn(next.pending) && a.id in next.pending && next.pending[a.id] == a
            && forall id :: id in c.pending && id != a.id && (a.origin != 0 || c.pending[id].origin != 0) ==>
                 id in next.pending && next.pending[id] == c.pending[id]
  {}

  lemma FewerOneOwn(before: Control, after: Control)
    requires OneOwn(before.pending) && Shrinks(before, after)
    ensures OneOwn(after.pending)
  {}

  lemma StepOneOwn(genesis: nat, s: System, e: Event)
    requires Enabled(s, e) && OneOwn(s.c.pending)
    ensures OneOwn(Next(genesis, s, e).c.pending)
  {
    if Quiet(e) {
      QuietShrinks(genesis, s, e);
      FewerOneOwn(s.c, Next(genesis, s, e).c);
    } else if e.StartApprove? {
      EffectsShrink(s.c, e.now, e.id, 0);
      FewerOneOwn(s.c, Rejected(AtLookup(s, e.fromUi, e.now), e.id));
      hide OneOwn, Shrinks, IdleExpired, ApprovalsExpired, MayApprove;
    } else if e.PlanReady? && Matches(s.task.op, e.plan, genesis) {
      FiledOneOwn(s.c, Approval(e.id, e.token, s.task.origin, s.task.op, e.plan, e.hash, s.task.session,
          e.now + e.timeout), e.now);
      hide OneOwn, Filed, Matches;
    }
    hide Matches, OfferOk, Filed;
  }

  /** Over every run: of the wallet's own pages at most one approval is pending; filing one replaces it and leaves
      the approvals of every other origin as they are. */
  lemma {:induction false} OwnReplacesOwn(genesis: nat, s: System, events: seq<Event>, end: System, a: Approval,
      now: nat)
    requires OneOwn(s.c.pending) && Reaches(genesis, s, events, end)
    ensures OneOwn(end.c.pending)
    ensures var next := Filed(end.c, a, now);
            && OneOwn(next.pending) && a.id in next.pending && next.pending[a.id] == a
            && forall id :: id in end.c.pending && id != a.id && (a.origin != 0 || end.c.pending[id].origin != 0) ==>
                 id in next.pending && next.pending[id] == end.c.pending[id]
    decreases |events|
  {
    if events == [] {
      FiledOneOwn(end.c, a, now);
    } else {
      StepOneOwn(genesis, s, events[0]);
      hide OneOwn, Next, Enabled, Filed;
      OwnReplacesOwn(genesis, Next(genesis, s, events[0]), events[1..], end, a, now);
    }
  }
}
