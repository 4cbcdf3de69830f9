/** Whole runs of the signer: concurrent calls, failed appends, crashes, restarts and power cuts. */
module JournalSafety {
  import opened Common
  import opened Coins
  import opened Journal

  /** A preconfirmation call: past its check for a prior decision, holding a receipt it may
      release, or ended. */
  datatype Call = Checked(receipt: Receipt) | Holding(receipt: Receipt) | Ended

  /** `released` and `accepted` are history: the receipts ever released, and how much of the
      file some open or append has accepted. */
  datatype System = System(disk: Disk, up: Option<Memory>, calls: seq<Call>, released: set<Receipt>, accepted: nat)

  const INITIAL := System(Disk([], 0), None, [], {}, 0)

  /** `syncOnOpen`: opening makes what it reads durable (the signer does not).
      `keepsAccepted`: power cuts never take back bytes that were accepted. */
  datatype Policy = Policy(syncOnOpen: bool, keepsAccepted: bool)

  datatype Step =
    | Start(fault: Option<nat>)
    | Ask(receipt: Receipt)
    | Commit(call: nat, fault: Option<nat>)
    | Release(call: nat)
    | Crash
    | PowerCut(kept: nat)

  predicate Enabled(p: Policy, s: System, step: Step) {
    match step
    case Start(_) => s.up.None?
    case Ask(_) => s.up.Some?
    case Commit(call, _) => s.up.Some? && call < |s.calls| && s.calls[call].Checked?
    case Release(call) => s.up.Some? && call < |s.calls| && s.calls[call].Holding?
    case Crash => s.up.Some?
    case PowerCut(kept) => s.disk.durable <= kept <= |s.disk.bytes| && (p.keepsAccepted ==> s.accepted <= kept)
  }

  function Next(c: Codec, p: Policy, s: System, step: Step): System
    requires Enabled(p, s, step)
  {
    match step
    case Start(fault) =>
      var (disk, decisions) := Opened(c, s.disk, fault);
      if decisions.None? then s.(disk := disk)
      else
        var synced := if p.syncOnOpen then Disk(disk.bytes, |disk.bytes|) else disk;
        s.(disk := synced, up := Some(Memory(decisions.value, false)), calls := [], accepted := |disk.bytes|)
    case Ask(receipt) =>
      (match Existing(s.up.value, receipt.bond, receipt.txid)
       case Same(existing) => s.(calls := s.calls + [Holding(existing)])
       case Conflict => s
       case Unknown => s.(calls := s.calls + [Checked(receipt)]))
    case Commit(call, fault) =>
      var (memory, disk, outcome) := Committed(c, s.up.value, s.disk, s.calls[call].receipt, fault);
      s.(disk := disk, up := Some(memory),
         calls := s.calls[call := if outcome.Accepted? then Holding(outcome.receipt) else Ended],
         accepted := if outcome.Accepted? then |disk.bytes| else s.accepted)
    case Release(call) => s.(released := s.released + {s.calls[call].receipt})
    case Crash => s.(up := None, calls := [])
    case PowerCut(kept) =>
      s.(disk := Disk(s.disk.bytes[..kept], kept), up := None, calls := [], accepted := if kept < s.accepted then kept
          else s.accepted)
  }

  /** The state after a run, if every step of it is enabled. */
  function Run(c: Codec, p: Policy, s: System, steps: seq<Step>): Option<System>
    decreases |steps|
  {
    if steps == [] then Some(s)
    else if !Enabled(p, s, steps[0]) then None
    else Run(c, p, Next(c, p, s, steps[0]), steps[1..])
  }

  // ---- What every step keeps ---------------------------------------------------------------------

  /** The decisions in the accepted part of the file. */
  function Log(c: Codec, s: System): map<OutPoint, Receipt> {
    if s.accepted == 0 || s.accepted > |s.disk.bytes| then map[]
    else Replay(c, s.disk.bytes[..s.accepted]).GetOr(map[])
  }

  predicate Logged(log: map<OutPoint, Receipt>, r: Receipt) {
    r.bond in log && log[r.bond] == r
  }

  ghost predicate FileSound(c: Codec, s: System) {
    && s.disk.durable <= |s.disk.bytes| && s.accepted <= |s.disk.bytes|
    && (s.accepted > 0 ==> Replay(c, s.disk.bytes[..s.accepted]).Some?)
  }

  /** While the signer runs, its decisions are the accepted log; until an append fails, the whole file. */
  ghost predicate MemorySound(c: Codec, s: System) {
    s.up.Some? ==>
      && s.accepted > 0 && s.up.value.decisions == Log(c, s)
      && (!s.up.value.failed ==> s.accepted == |s.disk.bytes|)
  }

  ghost predicate ReceiptsSound(c: Codec, s: System) {
    && (forall r :: r in s.released ==> Logged(Log(c, s), r))
    && (forall i :: 0 <= i < |s.calls| && s.calls[i].Holding? ==> Logged(Log(c, s), s.calls[i].receipt))
  }

  ghost predicate Sound(c: Codec, p: Policy, s: System) {
    && FileSound(c, s) && MemorySound(c, s) && ReceiptsSound(c, s)
    && (p.syncOnOpen ==> s.accepted <= s.disk.durable)
  }

  predicate Safe(p: Policy) {
    p.syncOnOpen || p.keepsAccepted
  }

  lemma Extended(c: Codec, s: System, next: System)
    requires ReceiptsSound(c, s) && Extends(Log(c, next), Log(c, s)) && next.released == s.released
    requires forall i :: 0 <= i < |next.calls| && next.calls[i].Holding? ==>
               Logged(Log(c, next), next.calls[i].receipt) || next.calls[i] in s.calls
    ensures ReceiptsSound(c, next)
  {
    hide Log;
  }

  /** An accepted file extends the log that was accepted before. */
  lemma OpenKeeps(c: Codec, s: System, fault: Option<nat>)
    requires Faithful(c) && FileSound(c, s) && Opened(c, s.disk, fault).1.Some?
    ensures var (disk, decisions) := Opened(c, s.disk, fault);
            && Replay(c, disk.bytes) == decisions && |disk.bytes| > 0 && disk.durable <= |disk.bytes|
            && Extends(decisions.value, Log(c, s))
  {
    if s.disk.bytes == [] {
      HeaderOnly(c);
      assert Opened(c, s.disk, fault).0.bytes == c.header + [NEWLINE];
    } else if s.accepted > 0 {
      hide Replay;
      ReplayKeeps(c, s.disk.bytes, s.accepted);
    }
  }

  lemma StartSound(c: Codec, p: Policy, s: System, fault: Option<nat>)
    requires Faithful(c) && Safe(p) && Sound(c, p, s) && s.up.None?
    ensures Sound(c, p, Next(c, p, s, Start(fault)))
  {
    var next := Next(c, p, s, Start(fault));
    var (disk, decisions) := Opened(c, s.disk, fault);
    if decisions.None? {
      assert next.disk.bytes[..s.accepted] == s.disk.bytes[..s.accepted];
      assert Log(c, next) == Log(c, s);
      hide Log, Replay;
    } else {
      OpenKeeps(c, s, fault);
      assert next.disk.bytes[..next.accepted] == next.disk.bytes;
      assert Log(c, next) == decisions.value;
      hide Log, Replay, Opened, Faithful;
      Extended(c, s, next);
    }
  }

  lemma LogKeyed(c: Codec, s: System)
    requires FileSound(c, s)
    ensures forall b :: b in Log(c, s) ==> Log(c, s)[b].bond == b
  {
    if s.accepted > 0 {
      ReplayIs(c, s.disk.bytes[..s.accepted]);
      hide ReplayLines, Split;
      ReplayKeyed(c, Split(s.disk.bytes[..s.accepted][..s.accepted - 1])[1..]);
    }
  }

  lemma AskSound(c: Codec, p: Policy, s: System, receipt: Receipt)
    requires Sound(c, p, s) && s.up.Some?
    ensures Sound(c, p, Next(c, p, s, Ask(receipt)))
  {
    var next := Next(c, p, s, Ask(receipt));
    assert Log(c, next) == Log(c, s);
    LogKeyed(c, s);
    hide Log;
    forall i | 0 <= i < |next.calls| && next.calls[i].Holding?
      ensures Logged(Log(c, next), next.calls[i].receipt)
    {
      if i < |s.calls| { assert next.calls[i] == s.calls[i]; }
    }
    hide Log;
  }

  lemma CommitSound(c: Codec, p: Policy, s: System, call: nat, fault: Option<nat>)
    requires Faithful(c) && Sound(c, p, s) && Enabled(p, s, Commit(call, fault))
    ensures Sound(c, p, Next(c, p, s, Commit(call, fault)))
  {
    var next := Next(c, p, s, Commit(call, fault));
    var receipt, memory := s.calls[call].receipt, s.up.value;
    LogKeyed(c, s);
    if memory.failed || !c.valid(receipt) || receipt.bond in memory.decisions {
      assert Log(c, next) == Log(c, s);
      assert next.accepted == s.accepted;
      CallsKept(c, s, next, call);
    } else {
      AppendSound(c, p, s, call, fault);
    }
  }

  lemma CallsKept(c: Codec, s: System, next: System, call: nat)
    requires ReceiptsSound(c, s) && Extends(Log(c, next), Log(c, s)) && next.released == s.released
    requires call < |s.calls| == |next.calls| && next.calls == s.calls[call := next.calls[call]]
    requires next.calls[call].Holding? ==> Logged(Log(c, next), next.calls[call].receipt)
    ensures ReceiptsSound(c, next)
  {
    hide Log, Logged;
    forall i | 0 <= i < |next.calls| && next.calls[i].Holding?
      ensures Logged(Log(c, next), next.calls[i].receipt) || next.calls[i] in s.calls
    {
      if i != call { assert next.calls[i] == s.calls[i]; }
    }
    Extended(c, s, next);
  }

  lemma AppendSound(c: Codec, p: Policy, s: System, call: nat, fault: Option<nat>)
    requires Faithful(c) && Sound(c, p, s) && Enabled(p, s, Commit(call, fault))
    requires var receipt, memory := s.calls[call].receipt, s.up.value;
             !memory.failed && c.valid(receipt) && receipt.bond !in memory.decisions
    ensures Sound(c, p, Next(c, p, s, Commit(call, fault)))
  {
    var next := Next(c, p, s, Commit(call, fault));
    var receipt, memory := s.calls[call].receipt, s.up.value;
    var (after, ok) := Appended(s.disk, c.encode(receipt), fault);
    assert s.disk.bytes[..s.accepted] == s.disk.bytes;
    if ok {
      CommitExtends(c, s.disk.bytes, memory.decisions, receipt);
      assert after.bytes[..|after.bytes|] == after.bytes;
      assert Log(c, next) == memory.decisions[receipt.bond := receipt];
    } else {
      assert after.bytes[..s.accepted] == s.disk.bytes;
      assert Log(c, next) == Log(c, s);
    }
    hide Log, Replay, Appended;
    CallsKept(c, s, next, call);
  }

  lemma ReleaseSound(c: Codec, p: Policy, s: System, call: nat)
    requires Sound(c, p, s) && Enabled(p, s, Release(call))
    ensures Sound(c, p, Next(c, p, s, Release(call)))
  {
    assert Log(c, Next(c, p, s, Release(call))) == Log(c, s);
    hide Log;
  }

  lemma StopSound(c: Codec, p: Policy, s: System, step: Step)
    requires Safe(p) && Sound(c, p, s) && Enabled(p, s, step) && (step.Crash? || step.PowerCut?)
    ensures Sound(c, p, Next(c, p, s, step))
  {
    var next := Next(c, p, s, step);
    if step.PowerCut? {
      assert s.accepted <= step.kept;
      assert next.disk.bytes[..s.accepted] == s.disk.bytes[..s.accepted];
    }
    assert Log(c, next) == Log(c, s);
    hide Log;
  }

  lemma StepSound(c: Codec, p: Policy, s: System, step: Step)
    requires Faithful(c) && Safe(p) && Sound(c, p, s) && Enabled(p, s, step)
    ensures Sound(c, p, Next(c, p, s, step))
  {
    match step {
      case Start(fault) => StartSound(c, p, s, fault);
      case Ask(receipt) => AskSound(c, p, s, receipt);
      case Commit(call, fault) => CommitSound(c, p, s, call, fault);
      case Release(call) => ReleaseSound(c, p, s, call);
      case Crash => StopSound(c, p, s, step);
      case PowerCut(_) => StopSound(c, p, s, step);
    }
  }

  lemma {:induction false} RunSound(c: Codec, p: Policy, s: System, steps: seq<Step>)
    requires Faithful(c) && Safe(p) && Sound(c, p, s) && Run(c, p, s, steps).Some?
    ensures Sound(c, p, Run(c, p, s, steps).value)
    decreases |steps|
  {
    if steps != [] {
      hide Sound, Next;
      StepSound(c, p, s, steps[0]);
      RunSound(c, p, Next(c, p, s, steps[0]), steps[1..]);
    }
  }

  // ---- No equivocation ----------------------------------------------------------------------------------

  predicate NoEquivocation(released: set<Receipt>) {
    forall r, q :: r in released && q in released && r.bond == q.bond ==> r.txid == q.txid
  }

  /** Every released receipt stands in the log, and memory is the replay of the file until an append fails. */
  lemma ReleasedAreLogged(c: Codec, p: Policy, steps: seq<Step>)
    requires Faithful(c) && Safe(p) && Run(c, p, INITIAL, steps).Some?
    ensures var s := Run(c, p, INITIAL, steps).value;
            && NoEquivocation(s.released)
            && (forall r :: r in s.released ==> Logged(Log(c, s), r))
            && (p.syncOnOpen ==> s.accepted <= s.disk.durable)
            && (s.up.Some? && !s.up.value.failed ==> Replay(c, s.disk.bytes) == Some(s.up.value.decisions))
  {
    RunSound(c, p, INITIAL, steps);
    var s := Run(c, p, INITIAL, steps).value;
    if s.up.Some? && !s.up.value.failed {
      assert s.disk.bytes[..s.accepted] == s.disk.bytes;
    }
    hide Run;
  }

  // ---- The run that equivocates -----------------------------------------------------------------------------

  /** Two valid receipts for one bond and different transactions. */
  ghost predicate Conflicting(c: Codec, r: Receipt, q: Receipt) {
    && r.bond == q.bond && r.txid != q.txid && c.valid(r) && c.valid(q)
    && |c.encode(r)| <= MAX_RECORD && |c.encode(q)| <= MAX_RECORD
  }

  function HeaderBytes(c: Codec): Bytes {
    c.header + [NEWLINE]
  }

  function RecordBytes(c: Codec, r: Receipt): Bytes {
    c.encode(r) + [NEWLINE]
  }

  const LENIENT := Policy(false, false)

  lemma Then(c: Codec, p: Policy, s: System, step: Step, rest: seq<Step>)
    requires Enabled(p, s, step)
    ensures Run(c, p, s, [step] + rest) == Run(c, p, Next(c, p, s, step), rest)
  {
    assert ([step] + rest)[1..] == rest;
    hide Next;
  }

  function Fresh(c: Codec, released: set<Receipt>): System {
    System(Disk(HeaderBytes(c), |HeaderBytes(c)|), Some(Memory(map[], false)), [], released, |HeaderBytes(c)|)
  }

  lemma FirstStart(c: Codec)
    requires Faithful(c)
    ensures Next(c, LENIENT, INITIAL, Start(None)) == Fresh(c, {})
  {}

  /** The failed append leaves the whole line behind, unsynced. */
  function Torn(c: Codec, r: Receipt): System {
    System(Disk(HeaderBytes(c) + RecordBytes(c, r), |HeaderBytes(c)|), None, [], {}, |HeaderBytes(c)|)
  }

  /** A receipt line is written, its sync fails, and the signer stops. */
  lemma FailedAppend(c: Codec, r: Receipt)
    requires Faithful(c) && c.valid(r) && |c.encode(r)| <= MAX_RECORD
    ensures Run(c, LENIENT, Fresh(c, {}), [Ask(r)] + ([Commit(0, Some(|RecordBytes(c, r)|))] + [Crash]))
        == Some(Torn(c, r))
  {
    var s := Fresh(c, {});
    var asked := s.(calls := [Checked(r)]);
    var write := Commit(0, Some(|RecordBytes(c, r)|));
    Then(c, LENIENT, s, Ask(r), [write] + [Crash]);
    assert Next(c, LENIENT, s, Ask(r)) == asked;
    Then(c, LENIENT, asked, write, [Crash]);
    var written := Next(c, LENIENT, asked, write);
    assert RecordBytes(c, r)[..|RecordBytes(c, r)|] == RecordBytes(c, r);
    Then(c, LENIENT, written, Crash, []);
    assert [Crash] + [] == [Crash];
  }

  /** The signer that read the unsynced line back and released it. */
  function ReadBack(c: Codec, r: Receipt): System {
    var bytes := HeaderBytes(c) + RecordBytes(c, r);
    System(Disk(bytes, |HeaderBytes(c)|), Some(Memory(map[r.bond := r], false)), [Holding(r)], {r}, |bytes|)
  }

  /** After a restart the line is read back and released. */
  lemma ReadBackRun(c: Codec, r: Receipt)
    requires Faithful(c) && c.valid(r) && |c.encode(r)| <= MAX_RECORD
    ensures Run(c, LENIENT, Torn(c, r), [Start(None)] + ([Ask(r)] + [Release(0)])) == Some(ReadBack(c, r))
  {
    var s := Torn(c, r);
    HeaderOnly(c);
    CommitExtends(c, HeaderBytes(c), map[], r);
    Then(c, LENIENT, s, Start(None), [Ask(r)] + [Release(0)]);
    var started := ReadBack(c, r).(calls := [], released := {});
    assert Next(c, LENIENT, s, Start(None)) == started;
    hide Replay, Split;
    Then(c, LENIENT, started, Ask(r), [Release(0)]);
    var asked := ReadBack(c, r).(released := {});
    assert Next(c, LENIENT, started, Ask(r)) == asked;
    Then(c, LENIENT, asked, Release(0), []);
    assert [Release(0)] + [] == [Release(0)];
    assert {} + {r} == {r};
  }

  /** The power fails and the line is gone. */
  lemma CutAndRestart(c: Codec, r: Receipt)
    requires Faithful(c)
    ensures Run(c, LENIENT, ReadBack(c, r), [PowerCut(|HeaderBytes(c)|)] + [Start(None)]) == Some(Fresh(c, {r}))
  {
    var s := ReadBack(c, r);
    var cut := PowerCut(|HeaderBytes(c)|);
    HeaderOnly(c);
    Then(c, LENIENT, s, cut, [Start(None)]);
    var down := Fresh(c, {r}).(up := None);
    assert s.disk.bytes[..|HeaderBytes(c)|] == HeaderBytes(c);
    assert Next(c, LENIENT, s, cut) == down;
    Then(c, LENIENT, down, Start(None), []);
    assert [Start(None)] + [] == [Start(None)];
  }

  lemma Confirms(c: Codec, q: Receipt, released: set<Receipt>)
    requires Faithful(c) && c.valid(q) && |c.encode(q)| <= MAX_RECORD
    ensures var end := Run(c, LENIENT, Fresh(c, released), [Ask(q)] + ([Commit(0, None)] + [Release(0)]));
            end.Some? && end.value.released == released + {q}
  {
    var s := Fresh(c, released);
    var asked := s.(calls := [Checked(q)]);
    Then(c, LENIENT, s, Ask(q), [Commit(0, None)] + [Release(0)]);
    assert Next(c, LENIENT, s, Ask(q)) == asked;
    Then(c, LENIENT, asked, Commit(0, None), [Release(0)]);
    var written := Next(c, LENIENT, asked, Commit(0, None));
    assert written.calls == [Holding(q)];
    Then(c, LENIENT, written, Release(0), []);
    assert [Release(0)] + [] == [Release(0)];
  }

  lemma {:induction false} RunAppend(c: Codec, p: Policy, s: System, first: seq<Step>, second: seq<Step>)
    requires Run(c, p, s, first).Some?
    ensures Run(c, p, s, first + second) == Run(c, p, Run(c, p, s, first).value, second)
    decreases |first|
  {
    if first == [] {
      assert first + second == second;
    } else {
      RunAppend(c, p, Next(c, p, s, first[0]), first[1..], second);
      assert (first + second)[1..] == first[1..] + second;
      assert first + second != [] && (first + second)[0] == first[0];
      hide Next;
    }
  }

  /** A line is written but its sync fails; a restart reads it back and it is released; the power
      fails and the line is gone; then another transaction is confirmed for the same bond. */
  function Equivocating(c: Codec, r: Receipt, q: Receipt): seq<Step> {
    [Start(None)] + ([Ask(r)] + ([Commit(0, Some(|RecordBytes(c, r)|))] + [Crash]))
    + ([Start(None)] + ([Ask(r)] + [Release(0)]))
    + ([PowerCut(|HeaderBytes(c)|)] + [Start(None)])
    + ([Ask(q)] + ([Commit(0, None)] + [Release(0)]))
  }

  lemma UnsyncedLineEquivocates(c: Codec, r: Receipt, q: Receipt)
    requires Faithful(c) && Conflicting(c, r, q)
    ensures var end := Run(c, LENIENT, INITIAL, Equivocating(c, r, q));
            end.Some? && end.value.released == {r, q} && !NoEquivocation(end.value.released)
  {
    var write := [Ask(r)] + ([Commit(0, Some(|RecordBytes(c, r)|))] + [Crash]);
    var back := [Start(None)] + ([Ask(r)] + [Release(0)]);
    var cut := [PowerCut(|HeaderBytes(c)|)] + [Start(None)];
    var confirm := [Ask(q)] + ([Commit(0, None)] + [Release(0)]);
    assert Equivocating(c, r, q) == [Start(None)] + write + back + cut + confirm;
    assert Enabled(LENIENT, INITIAL, Start(None));
    FirstStart(c);
    FailedAppend(c, r);
    ReadBackRun(c, r);
    CutAndRestart(c, r);
    Confirms(c, q, {r});
    hide Run, Next, Fresh, Torn, ReadBack, Enabled, Equivocating;
    Then(c, LENIENT, INITIAL, Start(None), write);
    RunAppend(c, LENIENT, INITIAL, [Start(None)] + write, back);
    RunAppend(c, LENIENT, INITIAL, [Start(None)] + write + back, cut);
    RunAppend(c, LENIENT, INITIAL, [Start(None)] + write + back + cut, confirm);
    assert {r} + {q} == {r, q};
  }

  /** Under a policy, no run equivocates exactly when opening syncs what it accepts, or accepted
      bytes survive every power cut. */
  lemma SafeIff(c: Codec, p: Policy, r: Receipt, q: Receipt)
    requires Faithful(c) && Conflicting(c, r, q)
    ensures (forall steps ::
        Run(c, p, INITIAL, steps).Some? ==> NoEquivocation(Run(c, p, INITIAL, steps).value.released))
            <==> p.syncOnOpen || p.keepsAccepted
  {
    if Safe(p) {
      forall steps | Run(c, p, INITIAL, steps).Some?
        ensures NoEquivocation(Run(c, p, INITIAL, steps).value.released)
      {
        ReleasedAreLogged(c, p, steps);
      }
    } else {
      UnsyncedLineEquivocates(c, r, q);
      assert p == LENIENT;
    }
    hide Run, NoEquivocation;
  }
}
