/** The wallet controller's approvals, session and locking, one uninterrupted stretch of code at a time. */
module Controller {
  import opened Common
  import opened Coins
  import opened Pset
  import opened Operations

  const MAX_PENDING_APPROVALS: nat := 8

  /** The origin of approvals prepared from the wallet's own pages. */
  const WALLET_ORIGIN: nat := 0

  datatype Approval = Approval(
    id: nat, token: nat, origin: nat, op: Operation, plan: PreparedPlan, hash: nat, session: nat, expires: nat)

  /** The controller's fields, and the sessions destroyed so far. */
  datatype Control = Control(
    session: Option<nat>, pending: map<nat, Approval>, lastActivity: nat, autoLock: nat, destroyed: set<nat>)

  // ---- Effects -----------------------------------------------------------------------------------

  function Locked(c: Control): Control {
    c.(session := None, pending := map[], lastActivity := 0,
       destroyed := c.destroyed + if c.session.Some? then {c.session.value} else {})
  }

  /** Locks after `autoLock` without activity. */
  function IdleExpired(c: Control, now: nat): Control {
    if c.session.Some? && (now as int) - c.lastActivity >= c.autoLock then Locked(c) else c
  }

  function ApprovalsExpired(c: Control, now: nat): Control {
    c.(pending := map id | id in c.pending && c.pending[id].expires > now :: c.pending[id])
  }

  function Rejected(c: Control, id: nat): Control {
    c.(pending := c.pending - {id})
  }

  /** A new session with fresh activity; the callers have locked before. */
  function Adopted(c: Control, session: nat, autoLock: nat, now: nat): Control {
    c.(session := Some(session), autoLock := autoLock, lastActivity := now)
  }

  /** What stays pending when an approval of this origin is filed: the wallet's own pages replace their previous one. */
  function KeptFor(pending: map<nat, Approval>, origin: nat): map<nat, Approval> {
    if origin == WALLET_ORIGIN then map id | id in pending && pending[id].origin != WALLET_ORIGIN :: pending[id]
        else pending
  }

  function Filed(c: Control, a: Approval, now: nat): Control {
    c.(pending := KeptFor(c.pending, a.origin)[a.id := a], lastActivity := now)
  }

  /** What an approval needs to be signed. */
  predicate MayApprove(c: Control, id: nat, token: nat, hash: nat, now: nat) {
    && id in c.pending && c.session == Some(c.pending[id].session) && c.pending[id].expires > now
    && c.pending[id].token == token && c.pending[id].hash == hash
  }

  // ---- The controller object -------------------------------------------------------------------------

  class WalletController {
    var session: Option<nat>
    var pending: map<nat, Approval>
    var lastActivity: nat
    var autoLock: nat
    ghost var destroyed: set<nat>

    ghost function State(): Control
      reads this
    {
      Control(session, pending, lastActivity, autoLock, destroyed)
    }

    constructor (autoLock: nat)
      ensures State() == Control(None, map[], 0, autoLock, {})
    {
      this.session, this.pending, this.lastActivity, this.autoLock, this.destroyed := None, map[], 0, autoLock, {};
    }

    method Lock()
      modifies this
      ensures State() == Locked(old(State()))
      ensures session.None? && pending == map[] && old(destroyed) <= destroyed
      ensures old(session).Some? ==> old(session).value in destroyed
    {
      destroyed := destroyed + if session.Some? then {session.value} else {};
      session, pending, lastActivity := None, map[], 0;
    }

    method ExpireIfIdle(now: nat)
      modifies this
      ensures State() == IdleExpired(old(State()), now)
      ensures session.Some? ==> old(session) == session && (now as int) - lastActivity < autoLock
    {
      if session.Some? && (now as int) - lastActivity >= autoLock { Lock(); }
    }

    method ExpireApprovals(now: nat)
      modifies this
      ensures State() == ApprovalsExpired(old(State()), now)
      ensures forall id :: id in pending <==> id in old(pending) && old(pending)[id].expires > now
      ensures forall id :: id in pending ==> pending[id] == old(pending)[id]
      ensures session == old(session) && lastActivity == old(lastActivity)
    {
      var left := pending.Keys;
      ghost var before := pending;
      while left != {}
        invariant left <= before.Keys && session == old(session) && lastActivity == old(lastActivity)
        invariant autoLock == old(autoLock) && destroyed == old(destroyed)
        invariant pending == map id | id in before && (id in left || before[id].expires > now) :: before[id]
      {
        var id :| id in left;
        if pending[id].expires <= now { pending := pending - {id}; }
        left := left - {id};
      }
    }

    method Touch(now: nat)
      modifies this
      ensures State() == old(State()).(lastActivity := now)
    {
      lastActivity := now;
    }

    method IsUnlocked(now: nat) returns (unlocked: bool)
      modifies this
      ensures State() == IdleExpired(old(State()), now)
      ensures unlocked <==> old(session).Some? && (now as int) - old(lastActivity) < old(autoLock)
      ensures !unlocked ==> session.None? && (old(session).Some? ==> pending == map[])
    {
      ExpireIfIdle(now);
      unlocked := session.Some?;
    }

    method Reject(id: nat)
      modifies this
      ensures State() == Rejected(old(State()), id)
      ensures forall token, hash, now :: !MayApprove(State(), id, token, hash, now)
    {
      pending := pending - {id};
    }

    method Adopt(next: nat, autoLock: nat, now: nat)
      modifies this
      ensures State() == Adopted(old(State()), next, autoLock, now)
      ensures session == Some(next) && this.autoLock == autoLock && lastActivity == now && pending == old(pending)
    {
      session, this.autoLock := Some(next), autoLock;
      Touch(now);
    }

    /** Up to the plan: the session the plan is made in, unless locked or too much is pending. */
    method BeginPrepare(now: nat) returns (planning: Option<nat>)
      modifies this
      ensures State() == ApprovalsExpired(IdleExpired(old(State()), now), now)
      ensures planning == if |State().pending| >= MAX_PENDING_APPROVALS then None else State().session
      ensures planning.Some? ==> planning == old(session) && (now as int) - old(lastActivity) < old(autoLock)
      ensures planning.Some? ==> |pending| < 8 && forall id :: id in pending ==> pending[id].expires > now
      ensures planning.None? ==>
              old(session).None? || (now as int) - old(lastActivity) >= old(autoLock) || |pending| >= 8
    {
      ExpireIfIdle(now);
      ExpireApprovals(now);
      planning := if session.None? || |pending| >= MAX_PENDING_APPROVALS then None else session;
    }

    /** From the plan: checks that it is exactly what was asked for and files the approval. */
    method FinishPrepare(a: Approval, genesis: nat, now: nat) returns (ok: bool)
      modifies this
      ensures ok <==> Matches(a.op, a.plan, genesis)
      ensures State() == if ok then Filed(old(State()), a, now) else old(State())
      ensures ok ==> a.id in pending && pending[a.id] == a && lastActivity == now && session == old(session)
      ensures ok ==> forall id :: id != a.id ==>
                (id in pending <==> id in old(pending) && (a.origin != 0 || old(pending)[id].origin != 0))
    {
      ok := CheckReview(a.op, a.plan, genesis);
      if !ok { return; }
      if a.origin == WALLET_ORIGIN {
        var left := pending.Keys;
        ghost var before := pending;
        while left != {}
          invariant left <= before.Keys && session == old(session) && lastActivity == old(lastActivity)
          invariant autoLock == old(autoLock) && destroyed == old(destroyed)
          invariant pending == map id | id in before && (id in left || before[id].origin != WALLET_ORIGIN) :: before[id]
        {
          var id :| id in left;
          if pending[id].origin == WALLET_ORIGIN { pending := pending - {id}; }
          left := left - {id};
        }
      }
      pending := pending[a.id := a];
      Touch(now);
    }

    /** Consumes the approval before anything is compared; what comes back may be signed once. */
    method TakeApproval(id: nat, token: nat, hash: nat, now: nat) returns (a: Option<Approval>)
      modifies this
      ensures State() == Rejected(old(State()), id)
      ensures a == if MayApprove(old(State()), id, token, hash, now) then Some(old(pending)[id]) else None
      ensures id !in pending && forall other :: other in old(pending) && other != id ==>
                other in pending && pending[other] == old(pending)[other]
      ensures a.Some? <==>
                && id in old(pending) && old(session) == Some(old(pending)[id].session)
                && now < old(pending)[id].expires
                && token == old(pending)[id].token && hash == old(pending)[id].hash
    {
      var found := if id in pending then Some(pending[id]) else None;
      pending := pending - {id};
      if found.None? || session != Some(found.value.session) || found.value.expires <= now
        || found.value.token != token || found.value.hash != hash
      {
        return None;
      }
      a := found;
    }
  }
}
