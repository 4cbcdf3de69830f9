/** Whole runs of the signing gate against the rolling 24-hour limits. */
module LimitSafety {
  import opened Common
  import opened Coins
  import opened Pset
  import opened SpendPolicy
  import opened SigningGate

  /** A call that passed the policy at `now`: what it has left to sign and record, and what it has recorded but
      not yet returned. */
  datatype Call = Call(now: nat, left: seq<TxReview>, done: seq<SpendRecord>)

  /** The audit log, the calls under way, and the signatures ever returned to a caller, as recorded. */
  datatype State = State(log: Log, calls: seq<Call>, returned: seq<SpendRecord>)

  /** `exclusive`: no call passes the policy while another still has something to record.
      `steady`: within one call the clock never reads earlier than when the policy was applied. */
  datatype Discipline = Discipline(exclusive: bool, steady: bool)

  datatype Event =
    | Begin(request: Request, now: nat)
    | Record(call: nat, stamp: nat)                              // signed, and the line written and synced
    | AppendFails(call: nat, stamp: nat, fault: AppendFault)     // signed, but the call ends with an error
    | Return(call: nat)                                          // all steps done: the signatures are handed out
    | Stop(call: nat)                                            // signing fails, or the process crashes
    | Noted(time: nat, outcome: Option<AppendFault>)             // any other entry, by any process
    | PowerCut(kept: nat, rest: Option<Ending>)                  // and a restart: all processes are gone

  predicate Idle(calls: seq<Call>) {
    forall i :: 0 <= i < |calls| ==> calls[i].left == []
  }

  /** A power cut may leave part of a piece, but never more than was written of it. */
  predicate Remains(piece: Piece, rest: Ending) {
    rest.Torn? || (rest.Open? && !piece.ending.Torn?)
  }

  ghost predicate Enabled(d: Discipline, policy: Policy, policyAsset: Asset, s: State, e: Event) {
    match e
    case Begin(request, now) =>
      && request.policyAsset == policyAsset && Readable(s.log.pieces)
      && Allowed(policy, Records(s.log.pieces), request, now) && (d.exclusive ==> Idle(s.calls))
    case Record(call, stamp) =>
      call < |s.calls| && s.calls[call].left != [] && (d.steady ==> stamp >= s.calls[call].now)
    case AppendFails(call, stamp, _) =>
      call < |s.calls| && s.calls[call].left != [] && (d.steady ==> stamp >= s.calls[call].now)
    case Return(call) => call < |s.calls| && s.calls[call].left == []
    case Stop(call) => call < |s.calls|
    case Noted(_, _) => true
    case PowerCut(kept, rest) =>
      && s.log.durable <= kept <= |s.log.pieces|
      && (rest.Some? ==> kept < |s.log.pieces| && Remains(s.log.pieces[kept], rest.value))
  }

  function RecordOf(c: Call, policyAsset: Asset, stamp: nat): SpendRecord
    requires c.left != []
  {
    SpendRecord(stamp, SpendMap(c.left[0], policyAsset))
  }

  function Closed(s: State, call: nat): seq<Call>
    requires call < |s.calls|
  {
    s.calls[call := Call(s.calls[call].now, [], [])]
  }

  /** What is on the disk after a power cut. */
  function Cut(log: Log, kept: nat, rest: Option<Ending>): Log
    requires kept <= |log.pieces| && (rest.Some? ==> kept < |log.pieces|)
  {
    var pieces := log.pieces[..kept] + if rest.Some? then [Piece(log.pieces[kept].entry, rest.value)] else [];
    Log(pieces, |pieces|)
  }

  function Next(policyAsset: Asset, s: State, e: Event): State {
    match e
    case Begin(request, now) => s.(calls := s.calls + [Call(now, request.reviews, [])])
    case Record(call, stamp) =>
      if call >= |s.calls| || s.calls[call].left == [] then s
      else
        var c := s.calls[call];
        var record := RecordOf(c, policyAsset, stamp);
        State(Appended(s.log, Signed(record), None), s.calls[call := Call(c.now, c.left[1..], c.done + [record])],
            s.returned)
    case AppendFails(call, stamp, fault) =>
      if call >= |s.calls| || s.calls[call].left == [] then s
      else
        State(Appended(s.log, Signed(RecordOf(s.calls[call], policyAsset, stamp)), Some(fault)), Closed(s, call),
            s.returned)
    case Return(call) =>
      if call >= |s.calls| then s else State(s.log, Closed(s, call), s.returned + s.calls[call].done)
    case Stop(call) => if call >= |s.calls| then s else s.(calls := Closed(s, call))
    case Noted(time, fault) => s.(log := Appended(s.log, Note(time), fault))
    case PowerCut(kept, rest) =>
      if kept > |s.log.pieces| || (rest.Some? && kept == |s.log.pieces|) then s
      else State(Cut(s.log, kept, rest), [], s.returned)
  }

  ghost predicate Possible(d: Discipline, policy: Policy, policyAsset: Asset, s: State, events: seq<Event>)
    decreases |events|
  {
    events == [] ||
    (Enabled(d, policy, policyAsset, s, events[0])
        && Possible(d, policy, policyAsset, Next(policyAsset, s, events[0]), events[1..]))
  }

  function Run(policyAsset: Asset, s: State, events: seq<Event>): State
    decreases |events|
  {
    if events == [] then s else Run(policyAsset, Next(policyAsset, s, events[0]), events[1..])
  }

  const EMPTY := State(Log([], 0), [], [])

  // ---- The cap -------------------------------------------------------------------------------------

  /** What is recorded in the window `(start, start + 24h]`. */
  function InWindow(records: seq<SpendRecord>, start: int, a: Asset): nat {
    if records == [] then 0
    else
      var last := records[|records| - 1];
      InWindow(records[..|records| - 1], start, a)
      + (if start < last.time <= start + 24 * 3_600 then Get(last.spend, a) else 0)
  }

  predicate HasCap(policy: Policy, a: Asset) {
    a in policy.limits && policy.limits[a].per24h.Some?
  }

  function Cap(policy: Policy, a: Asset): nat
    requires HasCap(policy, a)
  {
    policy.limits[a].per24h.value
  }

  /** Limits are amounts of money. */
  predicate Modest(policy: Policy) {
    forall a :: a in policy.limits && policy.limits[a].per24h.Some? ==> policy.limits[a].per24h.value <= MAX_MONEY
  }

  /** No window of 24 hours holds more of an asset than its cap. */
  ghost predicate CapsHold(policy: Policy, records: seq<SpendRecord>) {
    forall a, start :: HasCap(policy, a) ==> InWindow(records, start, a) <= Cap(policy, a)
  }

  lemma InWindowSnoc(records: seq<SpendRecord>, record: SpendRecord, start: int, a: Asset)
    ensures InWindow(records + [record], start, a)
         == InWindow(records, start, a)
             + (if start < record.time <= start + WINDOW_SECS then Get(record.spend, a) else 0)
  {
    assert (records + [record])[..|records|] == records;
  }

  lemma {:induction false} WindowIsRecent(records: seq<SpendRecord>, start: int, now: nat, a: Asset)
    requires start + WINDOW_SECS >= now
    ensures InWindow(records, start, a) <= Recent(records, now, a)
  {
    if records != [] { WindowIsRecent(records[..|records| - 1], start, now, a); }
  }

  /** With no record from the future, what the policy counts as recent is the window that ends now. */
  lemma {:induction false} RecentIsLastDay(records: seq<SpendRecord>, now: nat, a: Asset)
    requires forall i :: 0 <= i < |records| ==> records[i].time <= now
    ensures Recent(records, now, a) == InWindow(records, now - 86_400, a)
  {
    if records != [] { RecentIsLastDay(records[..|records| - 1], now, a); }
  }

  lemma SpendMapGet(review: TxReview, policyAsset: Asset, a: Asset)
    ensures Get(SpendMap(review, policyAsset), a) == Spent(review, policyAsset, a)
  {}

  lemma {:induction false} TotalHead(reviews: seq<TxReview>, policyAsset: Asset, a: Asset)
    requires reviews != []
    ensures TotalSpent(reviews, policyAsset, a)
        == Spent(reviews[0], policyAsset, a) + TotalSpent(reviews[1..], policyAsset, a)
  {
    if |reviews| > 1 {
      TotalHead(reviews[..|reviews| - 1], policyAsset, a);
      assert reviews[..|reviews| - 1][1..] == reviews[1..][..|reviews| - 2];
    }
  }

  lemma AllowedCap(policy: Policy, records: seq<SpendRecord>, request: Request, now: nat, a: Asset)
    requires Allowed(policy, records, request, now) && HasCap(policy, a) && Modest(policy)
    ensures TotalSpent(request.reviews, request.policyAsset, a) > 0 ==>
              Recent(records, now, a) + TotalSpent(request.reviews, request.policyAsset, a) <= Cap(policy, a)
  {
    assert WithinLimits(policy, records, request, now, a);
    hide TotalSpent, Recent;
  }

  // ---- What survives --------------------------------------------------------------------------------

  lemma {:induction false} InWindowAppend(left: seq<SpendRecord>, right: seq<SpendRecord>, start: int, a: Asset)
    ensures InWindow(left + right, start, a) == InWindow(left, start, a) + InWindow(right, start, a)
  {
    if right == [] {
      assert left + right == left;
    } else {
      var front, last := right[..|right| - 1], right[|right| - 1];
      InWindowAppend(left, front, start, a);
      InWindowSnoc(left + front, last, start, a);
      assert left + right == (left + front) + [last];
    }
  }

  /** What the finished and unfinished calls have recorded and not returned. */
  function Unreturned(calls: seq<Call>, start: int, a: Asset): nat {
    if calls == [] then 0
    else Unreturned(calls[..|calls| - 1], start, a) + InWindow(calls[|calls| - 1].done, start, a)
  }

  lemma {:induction false} UnreturnedUpdate(calls: seq<Call>, i: nat, c: Call, start: int, a: Asset)
    requires i < |calls|
    ensures Unreturned(calls[i := c], start, a) + InWindow(calls[i].done, start, a)
         == Unreturned(calls, start, a) + InWindow(c.done, start, a)
  {
    var front, last := calls[..|calls| - 1], calls[|calls| - 1];
    var changed := calls[i := c];
    if i == |calls| - 1 {
      assert changed[..|calls| - 1] == front;
    } else {
      UnreturnedUpdate(front, i, c, start, a);
      assert changed[..|calls| - 1] == front[i := c];
    }
  }

  function InLog(pieces: seq<Piece>, start: int, a: Asset): nat {
    InWindow(Records(pieces), start, a)
  }

  lemma InLogSnoc(pieces: seq<Piece>, piece: Piece, start: int, a: Asset)
    ensures InLog(pieces + [piece], start, a)
         == InLog(pieces, start, a)
            + if piece.entry.Signed? && !piece.ending.Torn? then InWindow([piece.entry.record], start, a) else 0
  {
    RecordsSnoc(pieces, piece);
    InWindowAppend(Records(pieces), if piece.entry.Signed? && !piece.ending.Torn? then [piece.entry.record] else [],
        start, a);
    hide Records;
    assert InWindow([], start, a) == 0;
  }

  /** More of the file holds no less. */
  lemma {:induction false} InLogGrows(pieces: seq<Piece>, i: nat, j: nat, start: int, a: Asset)
    requires i <= j <= |pieces|
    ensures InLog(pieces[..i], start, a) <= InLog(pieces[..j], start, a)
    decreases j - i
  {
    if i < j {
      InLogGrows(pieces, i, j - 1, start, a);
      assert pieces[..j] == pieces[..j - 1] + [pieces[j - 1]];
      InLogSnoc(pieces[..j - 1], pieces[j - 1], start, a);
    }
  }

  /** What a power cut leaves lies between what was durable and what was written. */
  lemma CutBetween(log: Log, kept: nat, rest: Option<Ending>, start: int, a: Asset)
    requires log.durable <= kept <= |log.pieces|
    requires rest.Some? ==> kept < |log.pieces| && Remains(log.pieces[kept], rest.value)
    ensures InLog(log.pieces[..log.durable], start, a) <= InLog(Cut(log, kept, rest).pieces, start, a)
         <= InLog(log.pieces, start, a)
  {
    InLogGrows(log.pieces, log.durable, kept, start, a);
    assert log.pieces[..|log.pieces|] == log.pieces;
    if rest.Some? {
      InLogSnoc(log.pieces[..kept], log.pieces[kept], start, a);
      InLogSnoc(log.pieces[..kept], Piece(log.pieces[kept].entry, rest.value), start, a);
      assert log.pieces[..kept + 1] == log.pieces[..kept] + [log.pieces[kept]];
      InLogGrows(log.pieces, kept + 1, |log.pieces|, start, a);
    } else {
      InLogGrows(log.pieces, kept, |log.pieces|, start, a);
      assert Cut(log, kept, rest).pieces == log.pieces[..kept];
    }
    hide InLog, InWindow;
  }

  /** Whatever was returned, and whatever may still be, is in the durable part of the log. */
  ghost predicate Kept(s: State) {
    && s.log.durable <= |s.log.pieces|
    && forall a, start :: InWindow(s.returned, start, a) + Unreturned(s.calls, start, a)
                       <= InLog(s.log.pieces[..s.log.durable], start, a)
  }

  lemma AppendKeeps(log: Log, entry: Entry, fault: Option<AppendFault>, start: int, a: Asset)
    requires log.durable <= |log.pieces|
    ensures var after := Appended(log, entry, fault);
            && after.durable <= |after.pieces|
            && InLog(after.pieces, start, a)
               == InLog(log.pieces, start, a)
                  + (if entry.Signed? && Written(fault) then InWindow([entry.record], start, a) else 0)
            && (InLog(after.pieces[..after.durable], start, a)
                >= if fault.None? then InLog(after.pieces, start, a) else InLog(log.pieces[..log.durable], start, a))
            && InLog(log.pieces[..log.durable], start, a) <= InLog(log.pieces, start, a)
  {
    var after := Appended(log, entry, fault);
    AppendFailsClosed(log, entry, fault);
    InWindowAppend(Records(log.pieces), if entry.Signed? && Written(fault) then [entry.record] else [], start, a);
    InLogGrows(log.pieces, log.durable, |log.pieces|, start, a);
    Whole(log.pieces, after.pieces, log.durable);
    assert InWindow([], start, a) == 0;
    hide InWindow, Records, Readable, Appended, Written;
  }

  lemma Whole(pieces: seq<Piece>, more: seq<Piece>, k: nat)
    requires pieces <= more && k <= |pieces|
    ensures pieces[..|pieces|] == pieces && more[..|more|] == more && more[..k] == pieces[..k]
  {}

  lemma RecordKeeps(policyAsset: Asset, s: State, call: nat, stamp: nat)
    requires Kept(s) && call < |s.calls| && s.calls[call].left != []
    ensures Kept(Next(policyAsset, s, Record(call, stamp)))
  {
    var next, c := Next(policyAsset, s, Record(call, stamp)), s.calls[call];
    var record := RecordOf(c, policyAsset, stamp);
    forall a, start
      ensures InWindow(next.returned, start, a) + Unreturned(next.calls, start, a)
           <= InLog(next.log.pieces[..next.log.durable], start, a)
      ensures next.log.durable <= |next.log.pieces|
    {
      AppendKeeps(s.log, Signed(record), None, start, a);
      UnreturnedUpdate(s.calls, call, Call(c.now, c.left[1..], c.done + [record]), start, a);
      InWindowAppend(c.done, [record], start, a);
      hide InLog, InWindow, Unreturned, Appended, RecordOf;
    }
    hide InLog, InWindow, Unreturned, Appended, RecordOf, Next;
  }

  lemma EndingKeeps(s: State, log: Log, call: nat)
    requires Kept(s) && call < |s.calls| && log.durable <= |log.pieces|
    requires forall a, start ::
        InLog(s.log.pieces[..s.log.durable], start, a) <= InLog(log.pieces[..log.durable], start, a)
    ensures Kept(State(log, Closed(s, call), s.returned))
  {
    var calls := Closed(s, call);
    forall a, start
      ensures Unreturned(calls, start, a) <= Unreturned(s.calls, start, a)
    {
      UnreturnedUpdate(s.calls, call, Call(s.calls[call].now, [], []), start, a);
      assert InWindow([], start, a) == 0;
      hide InWindow, Unreturned;
    }
    hide InLog, InWindow, Unreturned, Closed;
  }

  lemma ReturnKeeps(policyAsset: Asset, s: State, call: nat)
    requires Kept(s) && call < |s.calls|
    ensures Kept(Next(policyAsset, s, Return(call)))
  {
    var next := Next(policyAsset, s, Return(call));
    forall a, start
      ensures InWindow(next.returned, start, a) + Unreturned(next.calls, start, a)
           == InWindow(s.returned, start, a) + Unreturned(s.calls, start, a)
    {
      UnreturnedUpdate(s.calls, call, Call(s.calls[call].now, [], []), start, a);
      InWindowAppend(s.returned, s.calls[call].done, start, a);
      assert InWindow([], start, a) == 0;
      hide InWindow, Unreturned;
    }
    hide InLog, InWindow, Unreturned;
  }

  lemma LogKeeps(s: State, log: Log)
    requires Kept(s) && log.durable <= |log.pieces|
    requires forall a, start ::
        InLog(s.log.pieces[..s.log.durable], start, a) <= InLog(log.pieces[..log.durable], start, a)
    ensures Kept(s.(log := log)) && Kept(State(log, [], s.returned))
  {
    assert forall a, start :: Unreturned([], start, a) == 0;
    hide InLog, InWindow, Unreturned;
  }

  lemma AppendedKeeps(log: Log, entry: Entry, fault: Option<AppendFault>)
    requires log.durable <= |log.pieces|
    ensures var after := Appended(log, entry, fault);
            && after.durable <= |after.pieces|
            && forall a, start ::
                 InLog(log.pieces[..log.durable], start, a) <= InLog(after.pieces[..after.durable], start, a)
  {
    var after := Appended(log, entry, fault);
    forall a, start
      ensures InLog(log.pieces[..log.durable], start, a) <= InLog(after.pieces[..after.durable], start, a)
    {
      AppendKeeps(log, entry, fault, start, a);
      hide InLog, InWindow, Appended;
    }
  }

  lemma BeginKeeps(policyAsset: Asset, s: State, request: Request, now: nat)
    requires Kept(s)
    ensures Kept(Next(policyAsset, s, Begin(request, now)))
  {
    var next := Next(policyAsset, s, Begin(request, now));
    forall a, start
      ensures Unreturned(next.calls, start, a) == Unreturned(s.calls, start, a)
    {
      assert next.calls[..|s.calls|] == s.calls && InWindow([], start, a) == 0;
    }
    hide InLog, InWindow, Unreturned;
  }

  lemma CutKeeps(s: State, kept: nat, rest: Option<Ending>)
    requires Kept(s) && s.log.durable <= kept <= |s.log.pieces|
    requires rest.Some? ==> kept < |s.log.pieces| && Remains(s.log.pieces[kept], rest.value)
    ensures Kept(State(Cut(s.log, kept, rest), [], s.returned))
  {
    var log := Cut(s.log, kept, rest);
    assert log.pieces[..|log.pieces|] == log.pieces && log.durable == |log.pieces|;
    forall a, start
      ensures InLog(s.log.pieces[..s.log.durable], start, a) <= InLog(log.pieces[..log.durable], start, a)
    {
      CutBetween(s.log, kept, rest, start, a);
      hide InLog, Cut;
    }
    hide InLog, Cut, Kept;
    LogKeeps(s, log);
  }

  /** No event, and no discipline, takes a returned signature out of the durable log. */
  lemma StepKeeps(d: Discipline, policy: Policy, policyAsset: Asset, s: State, e: Event)
    requires Kept(s) && Enabled(d, policy, policyAsset, s, e)
    ensures Kept(Next(policyAsset, s, e))
  {
    assert s.log.durable <= |s.log.pieces|;
    hide Kept, Allowed, InLog, Appended, Cut, Closed, Records, Readable;
    match e {
      case Begin(request, now) => BeginKeeps(policyAsset, s, request, now);
      case Record(call, stamp) => RecordKeeps(policyAsset, s, call, stamp);
      case AppendFails(call, stamp, fault) =>
        AppendedKeeps(s.log, Signed(RecordOf(s.calls[call], policyAsset, stamp)), Some(fault));
        EndingKeeps(s, Appended(s.log, Signed(RecordOf(s.calls[call], policyAsset, stamp)), Some(fault)), call);
      case Return(call) => ReturnKeeps(policyAsset, s, call);
      case Stop(call) => EndingKeeps(s, s.log, call);
      case Noted(time, fault) =>
        AppendedKeeps(s.log, Note(time), fault);
        LogKeeps(s, Appended(s.log, Note(time), fault));
      case PowerCut(kept, rest) => CutKeeps(s, kept, rest);
    }
  }

  /** Over every run, overlapping calls and all faults included: in every window the durable log accounts for all
      that was ever returned. */
  lemma {:induction false} ReturnedStaysLogged(d: Discipline, policy: Policy, policyAsset: Asset, s: State,
      events: seq<Event>)
    requires Kept(s) && Possible(d, policy, policyAsset, s, events)
    ensures Kept(Run(policyAsset, s, events))
    decreases |events|
  {
    if events != [] {
      StepKeeps(d, policy, policyAsset, s, events[0]);
      hide Kept, Enabled, Next;
      ReturnedStaysLogged(d, policy, policyAsset, Next(policyAsset, s, events[0]), events[1..]);
    }
  }

  lemma NothingYet()
    ensures Kept(EMPTY)
  {
    assert forall a, start :: InWindow([], start, a) == 0 && Unreturned([], start, a) == 0;
    hide InLog;
  }

  // ---- The caps are kept -----------------------------------------------------------------------------

  /** Every window that records from `now` on may still reach has room for what is left. */
  ghost predicate Room(policy: Policy, policyAsset: Asset, records: seq<SpendRecord>, now: nat, left: seq<TxReview>) {
    forall a, start: int :: HasCap(policy, a) && start + WINDOW_SECS >= now ==>
      InWindow(records, start, a) + TotalSpent(left, policyAsset, a) <= Cap(policy, a)
  }

  lemma RoomBegins(policy: Policy, records: seq<SpendRecord>, request: Request, now: nat)
    requires Modest(policy) && CapsHold(policy, records) && Allowed(policy, records, request, now)
    ensures Room(policy, request.policyAsset, records, now, request.reviews)
  {
    forall a, start: int | HasCap(policy, a) && start + WINDOW_SECS >= now
      ensures InWindow(records, start, a) + TotalSpent(request.reviews, request.policyAsset, a) <= Cap(policy, a)
    {
      AllowedCap(policy, records, request, now, a);
      WindowIsRecent(records, start, now, a);
      hide Allowed, TotalSpent, Recent, InWindow;
    }
  }

  lemma RoomRecords(policy: Policy, policyAsset: Asset, records: seq<SpendRecord>, now: nat, left: seq<TxReview>,
      stamp: nat)
    requires CapsHold(policy, records) && Room(policy, policyAsset, records, now, left) && left != [] && stamp >= now
    ensures var more := records + [SpendRecord(stamp, SpendMap(left[0], policyAsset))];
            CapsHold(policy, more) && Room(policy, policyAsset, more, now, left[1..])
  {
    var record := SpendRecord(stamp, SpendMap(left[0], policyAsset));
    forall a, start: int | HasCap(policy, a)
      ensures InWindow(records + [record], start, a) <= Cap(policy, a)
      ensures start + WINDOW_SECS >= now ==>
                InWindow(records + [record], start, a) + TotalSpent(left[1..], policyAsset, a) <= Cap(policy, a)
    {
      InWindowSnoc(records, record, start, a);
      SpendMapGet(left[0], policyAsset, a);
      TotalHead(left, policyAsset, a);
      assert InWindow(records, start, a) <= Cap(policy, a);
      hide TotalSpent, InWindow, SpendMap, Get, Spent;
    }
    hide TotalSpent, InWindow, HasCap, Cap, SpendMap;
  }

  lemma FewerKeepCaps(policy: Policy, records: seq<SpendRecord>, fewer: seq<SpendRecord>)
    requires CapsHold(policy, records)
    requires forall a, start :: InWindow(fewer, start, a) <= InWindow(records, start, a)
    ensures CapsHold(policy, fewer)
  {
    hide InWindow, HasCap, Cap;
  }

  /** At most the call `at` is unfinished, and there is room for what it has left. */
  ghost predicate RoomFor(policy: Policy, policyAsset: Asset, s: State, at: nat) {
    && at < |s.calls| && (forall i :: 0 <= i < |s.calls| && i != at ==> s.calls[i].left == [])
    && Room(policy, policyAsset, Records(s.log.pieces), s.calls[at].now, s.calls[at].left)
  }

  ghost predicate Sound(policy: Policy, policyAsset: Asset, s: State) {
    && CapsHold(policy, Records(s.log.pieces)) && (Idle(s.calls) || exists at :: RoomFor(policy, policyAsset, s, at))
  }

  lemma BeginSound(d: Discipline, policy: Policy, policyAsset: Asset, s: State, request: Request, now: nat)
    requires d.exclusive && Modest(policy) && Sound(policy, policyAsset, s)
    requires Enabled(d, policy, policyAsset, s, Begin(request, now))
    ensures Sound(policy, policyAsset, Next(policyAsset, s, Begin(request, now)))
  {
    RoomBegins(policy, Records(s.log.pieces), request, now);
    hide Allowed, CapsHold, Room, Records, Readable;
    assert RoomFor(policy, policyAsset, Next(policyAsset, s, Begin(request, now)), |s.calls|);
  }

  lemma RecordSound(d: Discipline, policy: Policy, policyAsset: Asset, s: State, call: nat, stamp: nat)
    requires d.steady && Sound(policy, policyAsset, s) && Enabled(d, policy, policyAsset, s, Record(call, stamp))
    ensures Sound(policy, policyAsset, Next(policyAsset, s, Record(call, stamp)))
  {
    var c := s.calls[call];
    var at :| RoomFor(policy, policyAsset, s, at);
    assert at == call;
    RoomRecords(policy, policyAsset, Records(s.log.pieces), c.now, c.left, stamp);
    AppendFailsClosed(s.log, Signed(RecordOf(c, policyAsset, stamp)), None);
    hide CapsHold, Room, Records, SpendMap, Appended, Readable;
    assert RoomFor(policy, policyAsset, Next(policyAsset, s, Record(call, stamp)), call);
  }

  /** When the only unfinished call ends, nothing is unfinished. */
  lemma EndsIdle(policy: Policy, policyAsset: Asset, s: State, call: nat)
    requires Sound(policy, policyAsset, s) && call < |s.calls| && s.calls[call].left != []
    ensures Idle(Closed(s, call))
  {
    var at :| RoomFor(policy, policyAsset, s, at);
    assert at == call;
    hide CapsHold, Room, Records;
  }

  lemma FailureSound(d: Discipline, policy: Policy, policyAsset: Asset, s: State, call: nat, stamp: nat,
      fault: AppendFault)
    requires d.steady && Sound(policy, policyAsset, s)
    requires Enabled(d, policy, policyAsset, s, AppendFails(call, stamp, fault))
    ensures Sound(policy, policyAsset, Next(policyAsset, s, AppendFails(call, stamp, fault)))
  {
    var c := s.calls[call];
    EndsIdle(policy, policyAsset, s, call);
    var at :| RoomFor(policy, policyAsset, s, at);
    assert at == call;
    RoomRecords(policy, policyAsset, Records(s.log.pieces), c.now, c.left, stamp);
    AppendFailsClosed(s.log, Signed(RecordOf(c, policyAsset, stamp)), Some(fault));
    hide CapsHold, Room, Records, SpendMap, Appended, Readable, Idle, Closed;
    assert Records(s.log.pieces) + [] == Records(s.log.pieces);
  }

  lemma StopSound(policy: Policy, policyAsset: Asset, s: State, call: nat, returned: seq<SpendRecord>)
    requires Sound(policy, policyAsset, s) && call < |s.calls|
    ensures Sound(policy, policyAsset, State(s.log, Closed(s, call), returned))
  {
    var next := State(s.log, Closed(s, call), returned);
    if s.calls[call].left != [] {
      EndsIdle(policy, policyAsset, s, call);
    } else if at :| RoomFor(policy, policyAsset, s, at) {
      assert RoomFor(policy, policyAsset, next, at);
    }
    hide CapsHold, Room, Records;
  }

  lemma NotedSound(policy: Policy, policyAsset: Asset, s: State, time: nat, fault: Option<AppendFault>)
    requires Sound(policy, policyAsset, s)
    ensures Sound(policy, policyAsset, s.(log := Appended(s.log, Note(time), fault)))
  {
    var next := s.(log := Appended(s.log, Note(time), fault));
    AppendFailsClosed(s.log, Note(time), fault);
    hide CapsHold, Room, Records, Appended, Readable;
    assert Records(next.log.pieces) == Records(s.log.pieces);
    if at :| RoomFor(policy, policyAsset, s, at) {
      assert RoomFor(policy, policyAsset, next, at);
    }
  }

  lemma CutSound(policy: Policy, policyAsset: Asset, s: State, kept: nat, rest: Option<Ending>)
    requires Sound(policy, policyAsset, s) && s.log.durable <= kept <= |s.log.pieces|
    requires rest.Some? ==> kept < |s.log.pieces| && Remains(s.log.pieces[kept], rest.value)
    ensures Sound(policy, policyAsset, State(Cut(s.log, kept, rest), [], s.returned))
  {
    forall a, start
      ensures InWindow(Records(Cut(s.log, kept, rest).pieces), start, a) <= InWindow(Records(s.log.pieces), start, a)
    {
      CutBetween(s.log, kept, rest, start, a);
      hide Cut, InWindow, Records;
    }
    hide Cut, InWindow, Records, CapsHold;
    FewerKeepCaps(policy, Records(s.log.pieces), Records(Cut(s.log, kept, rest).pieces));
  }

  lemma StepSound(d: Discipline, policy: Policy, policyAsset: Asset, s: State, e: Event)
    requires d.exclusive && d.steady && Modest(policy) && Sound(policy, policyAsset, s)
    requires Enabled(d, policy, policyAsset, s, e)
    ensures Sound(policy, policyAsset, Next(policyAsset, s, e))
  {
    hide Sound, Allowed, Modest, Records, Readable, Appended, Cut, Closed;
    match e {
      case Begin(request, now) => BeginSound(d, policy, policyAsset, s, request, now);
      case Record(call, stamp) => RecordSound(d, policy, policyAsset, s, call, stamp);
      case AppendFails(call, stamp, fault) => FailureSound(d, policy, policyAsset, s, call, stamp, fault);
      case Return(call) => StopSound(policy, policyAsset, s, call, s.returned + s.calls[call].done);
      case Stop(call) => StopSound(policy, policyAsset, s, call, s.returned);
      case Noted(time, fault) => NotedSound(policy, policyAsset, s, time, fault);
      case PowerCut(kept, rest) => CutSound(policy, policyAsset, s, kept, rest);
    }
  }

  lemma ReturnedWithinLog(policy: Policy, policyAsset: Asset, s: State)
    requires Kept(s) && Sound(policy, policyAsset, s)
    ensures CapsHold(policy, s.returned)
  {
    forall a, start
      ensures InWindow(s.returned, start, a) <= InWindow(Records(s.log.pieces), start, a)
    {
      InLogGrows(s.log.pieces, s.log.durable, |s.log.pieces|, start, a);
      assert s.log.pieces[..|s.log.pieces|] == s.log.pieces;
      assert InWindow(s.returned, start, a) <= InLog(s.log.pieces[..s.log.durable], start, a);
      hide InWindow, Records, Unreturned;
    }
    hide InWindow, Records, CapsHold;
    FewerKeepCaps(policy, Records(s.log.pieces), s.returned);
  }

  /** Over every run of exclusive calls with a clock steady within a call, crashes, failed appends, power cuts and
      restarts included: neither what was returned nor what is recorded exceeds a cap in any window. */
  lemma {:induction false} RunSound(d: Discipline, policy: Policy, policyAsset: Asset, s: State, events: seq<Event>)
    requires d.exclusive && d.steady && Modest(policy) && Sound(policy, policyAsset, s) && Kept(s)
    requires Possible(d, policy, policyAsset, s, events)
    ensures var end := Run(policyAsset, s, events);
            CapsHold(policy, end.returned) && CapsHold(policy, Records(end.log.pieces)) && Kept(end)
    decreases |events|
  {
    if events == [] {
      ReturnedWithinLog(policy, policyAsset, s);
    } else {
      StepSound(d, policy, policyAsset, s, events[0]);
      StepKeeps(d, policy, policyAsset, s, events[0]);
      hide Sound, Kept, CapsHold, Modest, Enabled, Next;
      RunSound(d, policy, policyAsset, Next(policyAsset, s, events[0]), events[1..]);
    }
  }

  // ---- One call of the gate --------------------------------------------------------------------------

  predicate Steady(moments: seq<Moment>, now: nat) {
    forall i :: 0 <= i < |moments| ==> moments[i].stamp >= now
  }

  lemma {:induction false} RecordedKeepsCaps(policy: Policy, policyAsset: Asset, before: seq<SpendRecord>,
      reviews: seq<TxReview>, moments: seq<Moment>, now: nat, k: nat)
    requires k <= |reviews| && k <= |moments| && Steady(moments, now)
    requires CapsHold(policy, before) && Room(policy, policyAsset, before, now, reviews)
    ensures var after := before + Recorded(reviews, policyAsset, moments, k);
            CapsHold(policy, after) && Room(policy, policyAsset, after, now, reviews[k..])
  {
    if k == 0 {
      assert before + Recorded(reviews, policyAsset, moments, 0) == before && reviews[0..] == reviews;
    } else {
      RecordedKeepsCaps(policy, policyAsset, before, reviews, moments, now, k - 1);
      RecordedSnoc(reviews, policyAsset, moments, k - 1);
      var after := before + Recorded(reviews, policyAsset, moments, k - 1);
      RoomRecords(policy, policyAsset, after, now, reviews[k - 1..], moments[k - 1].stamp);
      assert reviews[k - 1..][1..] == reviews[k..] && reviews[k - 1..][0] == reviews[k - 1];
      hide Recorded, CapsHold, Room, SpendMap;
      assert before + Recorded(reviews, policyAsset, moments, k)
          == after + [SpendRecord(moments[k - 1].stamp, SpendMap(reviews[k - 1], policyAsset))];
    }
  }

  /** A call of the gate that reads a steady clock keeps every cap. */
  lemma CallKeepsCaps(ctx: Context, bundle: Bundle, approval: Approval, answer: Option<bool>, now: nat,
      moments: seq<Moment>, before: seq<SpendRecord>, after: seq<SpendRecord>, k: nat)
    requires RecordsFor(ctx, bundle, approval, answer, now, moments, before, after, k) && Steady(moments, now)
    requires Modest(ctx.policy) && CapsHold(ctx.policy, before)
    ensures CapsHold(ctx.policy, after)
  {
    if k == 0 {
      assert after == before;
    } else {
      hide Allowed, Recorded, CapsHold, BundleSound, Steady, Modest, Room;
      RoomBegins(ctx.policy, before, RequestOf(ctx, bundle), now);
      RecordedKeepsCaps(ctx.policy, ctx.w.policy, before, ReviewsOf(bundle), moments, now, k);
    }
  }

  datatype GateCall = GateCall(bundle: Bundle, approval: Approval, answer: Option<bool>, now: nat,
      moments: seq<Moment>, k: nat)

  /** The records after each of a sequence of calls that never overlap and each read a steady clock. */
  ghost predicate Sequential(ctx: Context, calls: seq<GateCall>, logs: seq<seq<SpendRecord>>) {
    && |logs| == |calls| + 1 && logs[0] == []
    && forall i :: 0 <= i < |calls| ==>
         Steady(calls[i].moments, calls[i].now) &&
         RecordsFor(ctx, calls[i].bundle, calls[i].approval, calls[i].answer, calls[i].now, calls[i].moments, logs[i],
             logs[i + 1], calls[i].k)
  }

  /** Between calls the clock may step either way: no window ever exceeds a cap, in either mode. */
  lemma {:induction false} SequentialCallsKeepCaps(ctx: Context, calls: seq<GateCall>, logs: seq<seq<SpendRecord>>,
      i: nat)
    requires Modest(ctx.policy) && Sequential(ctx, calls, logs) && i < |logs|
    ensures CapsHold(ctx.policy, logs[i])
  {
    if i > 0 {
      SequentialCallsKeepCaps(ctx, calls, logs, i - 1);
      var c := calls[i - 1];
      CallKeepsCaps(ctx, c.bundle, c.approval, c.answer, c.now, c.moments, logs[i - 1], logs[i], c.k);
    }
  }

  // ---- The limit of one call ---------------------------------------------------------------------------

  /** What the records hold of an asset, whenever stamped. */
  function SumOf(records: seq<SpendRecord>, a: Asset): nat {
    if records == [] then 0
    else SumOf(records[..|records| - 1], a) + Get(records[|records| - 1].spend, a)
  }

  lemma SumOfSnoc(records: seq<SpendRecord>, record: SpendRecord, a: Asset)
    ensures SumOf(records + [record], a) == SumOf(records, a) + Get(record.spend, a)
  {
    assert (records + [record])[..|records|] == records;
  }

  /** The records of one call stay within every per-transaction limit. */
  ghost predicate WithinPerTx(policy: Policy, records: seq<SpendRecord>) {
    forall a :: a in policy.limits && policy.limits[a].perTx.Some? ==>
      SumOf(records, a) <= policy.limits[a].perTx.value
  }

  /** What the call has recorded and has left to sign stays within every per-transaction limit. */
  ghost predicate CallWithinPerTx(policy: Policy, policyAsset: Asset, c: Call) {
    forall a :: a in policy.limits && policy.limits[a].perTx.Some? ==>
      SumOf(c.done, a) + TotalSpent(c.left, policyAsset, a) <= policy.limits[a].perTx.value
  }

  ghost predicate AllWithinPerTx(policy: Policy, policyAsset: Asset, calls: seq<Call>) {
    forall i :: 0 <= i < |calls| ==> CallWithinPerTx(policy, policyAsset, calls[i])
  }

  lemma BegunWithin(policy: Policy, records: seq<SpendRecord>, request: Request, now: nat)
    requires Allowed(policy, records, request, now)
    ensures CallWithinPerTx(policy, request.policyAsset, Call(now, request.reviews, []))
  {
    AllowedMeans(policy, records, request, now);
    hide Allowed, TotalSpent, Recent;
    assert forall a :: SumOf([], a) == 0;
  }

  lemma EndedWithin(policy: Policy, policyAsset: Asset, now: nat)
    ensures CallWithinPerTx(policy, policyAsset, Call(now, [], []))
  {
    assert forall a :: SumOf([], a) == 0 && TotalSpent([], policyAsset, a) == 0;
  }

  lemma RecordedWithin(policy: Policy, policyAsset: Asset, c: Call, stamp: nat)
    requires CallWithinPerTx(policy, policyAsset, c) && c.left != []
    ensures CallWithinPerTx(policy, policyAsset, Call(c.now, c.left[1..], c.done + [RecordOf(c, policyAsset, stamp)]))
  {
    forall a
      ensures SumOf(c.done + [RecordOf(c, policyAsset, stamp)], a) + TotalSpent(c.left[1..], policyAsset, a)
           == SumOf(c.done, a) + TotalSpent(c.left, policyAsset, a)
    {
      SumOfSnoc(c.done, RecordOf(c, policyAsset, stamp), a);
      SpendMapGet(c.left[0], policyAsset, a);
      TotalHead(c.left, policyAsset, a);
      hide SumOf, TotalSpent, SpendMap, Spent;
    }
    hide SumOf, TotalSpent, RecordOf;
  }

  lemma StepWithin(d: Discipline, policy: Policy, policyAsset: Asset, s: State, e: Event)
    requires AllWithinPerTx(policy, policyAsset, s.calls) && Enabled(d, policy, policyAsset, s, e)
    ensures AllWithinPerTx(policy, policyAsset, Next(policyAsset, s, e).calls)
  {
    match e {
      case Begin(request, now) => BegunWithin(policy, Records(s.log.pieces), request, now);
      case Record(call, stamp) => RecordedWithin(policy, policyAsset, s.calls[call], stamp);
      case AppendFails(call, _, _) => EndedWithin(policy, policyAsset, s.calls[call].now);
      case Return(call) => EndedWithin(policy, policyAsset, s.calls[call].now);
      case Stop(call) => EndedWithin(policy, policyAsset, s.calls[call].now);
      case Noted(_, _) =>
      case PowerCut(_, _) =>
    }
    hide Allowed, CallWithinPerTx, RecordOf, Records, Readable, Appended, Cut;
  }

  lemma {:induction false} RunWithin(d: Discipline, policy: Policy, policyAsset: Asset, s: State, events: seq<Event>)
    requires AllWithinPerTx(policy, policyAsset, s.calls) && Possible(d, policy, policyAsset, s, events)
    ensures AllWithinPerTx(policy, policyAsset, Run(policyAsset, s, events).calls)
    decreases |events|
  {
    if events != [] {
      StepWithin(d, policy, policyAsset, s, events[0]);
      hide AllWithinPerTx, Enabled, Next;
      RunWithin(d, policy, policyAsset, Next(policyAsset, s, events[0]), events[1..]);
    }
  }

  lemma DoneWithin(policy: Policy, policyAsset: Asset, c: Call)
    requires CallWithinPerTx(policy, policyAsset, c)
    ensures WithinPerTx(policy, c.done)
  {
    hide SumOf, TotalSpent;
  }

  /** Over every run, overlapping calls, any clock, crashes and power cuts included: whatever one call returns, all
      its signatures together, stays within every per-transaction limit. */
  lemma ReturnsKeepPerTx(d: Discipline, policy: Policy, policyAsset: Asset, events: seq<Event>, call: nat)
    requires Possible(d, policy, policyAsset, EMPTY, events)
    requires Enabled(d, policy, policyAsset, Run(policyAsset, EMPTY, events), Return(call))
    ensures var s := Run(policyAsset, EMPTY, events);
            var next := Next(policyAsset, s, Return(call));
            s.returned <= next.returned && WithinPerTx(policy, next.returned[|s.returned|..])
  {
    RunWithin(d, policy, policyAsset, EMPTY, events);
    var s := Run(policyAsset, EMPTY, events);
    DoneWithin(policy, policyAsset, s.calls[call]);
    hide WithinPerTx, Run;
    assert (s.returned + s.calls[call].done)[|s.returned|..] == s.calls[call].done;
  }

  lemma {:induction false} RecordedSum(reviews: seq<TxReview>, policyAsset: Asset, moments: seq<Moment>, k: nat,
      a: Asset)
    requires k <= |reviews| && k <= |moments|
    ensures SumOf(Recorded(reviews, policyAsset, moments, k), a) == TotalSpent(reviews[..k], policyAsset, a)
  {
    if k == 0 {
      assert Recorded(reviews, policyAsset, moments, 0) == [] && reviews[..0] == [];
    } else {
      RecordedSum(reviews, policyAsset, moments, k - 1, a);
      RecordedSnoc(reviews, policyAsset, moments, k - 1);
      SumOfSnoc(Recorded(reviews, policyAsset, moments, k - 1),
          SpendRecord(moments[k - 1].stamp, SpendMap(reviews[k - 1], policyAsset)), a);
      SpendMapGet(reviews[k - 1], policyAsset, a);
      SpentSnoc(reviews, k - 1, policyAsset);
      hide Recorded, SumOf, SpendMap, TotalSpent, Spent;
    }
  }

  /** One call of the gate, however it ends: all it records together stays within every per-transaction limit. */
  lemma CallKeepsPerTx(ctx: Context, bundle: Bundle, approval: Approval, answer: Option<bool>, now: nat,
      moments: seq<Moment>, before: seq<SpendRecord>, after: seq<SpendRecord>, k: nat)
    requires RecordsFor(ctx, bundle, approval, answer, now, moments, before, after, k)
    ensures before <= after && WithinPerTx(ctx.policy, after[|before|..])
  {
    var reviews, policyAsset := ReviewsOf(bundle), ctx.w.policy;
    var mine := Recorded(reviews, policyAsset, moments, k);
    assert after == before + mine && after[|before|..] == mine;
    if k > 0 { AllowedMeans(ctx.policy, before, RequestOf(ctx, bundle), now); }
    forall a | a in ctx.policy.limits && ctx.policy.limits[a].perTx.Some?
      ensures SumOf(mine, a) <= ctx.policy.limits[a].perTx.value
    {
      RecordedSum(reviews, policyAsset, moments, k, a);
      SpentGrows(reviews, k, policyAsset, a);
      assert k == 0 ==> reviews[..k] == [] && TotalSpent([], policyAsset, a) == 0;
      hide Allowed, BundleSound, Recorded, TotalSpent, SumOf, Recent;
    }
    hide Allowed, BundleSound, Recorded, TotalSpent, SumOf, Recent;
  }

  // ---- Without exclusion or a steady clock -----------------------------------------------------------------

  const SAMPLE := Policy(Confirm, None, None, map[1 := Limit(None, Some(10))])

  function SampleReview(): TxReview {
    TxReview(Pset.Transfer, 0, map[1 := -6], 1, [], [], [], None, All, false)
  }

  function SampleRequest(): Request {
    Request([SampleReview()], 0, 0, None)
  }

  lemma SampleSpend(a: Asset)
    ensures TotalSpent(SampleRequest().reviews, 0, a) == if a == 1 then 6 else if a == 0 then 1 else 0
  {
    assert [SampleReview()][..0] == [];
  }

  lemma SampleAllowed(records: seq<SpendRecord>, now: nat)
    requires Recent(records, now, 1) == 0
    ensures Allowed(SAMPLE, records, SampleRequest(), now)
  {
    forall a
      ensures TotalSpent(SampleRequest().reviews, 0, a) <= MAX_U64
          && WithinLimits(SAMPLE, records, SampleRequest(), now, a)
    {
      SampleSpend(a);
      hide TotalSpent, Recent;
    }
    hide TotalSpent, Recent, WithinLimits;
  }

  function TwoRecords(): seq<SpendRecord> {
    [SpendRecord(0, SpendMap(SampleReview(), 0))] + [SpendRecord(0, SpendMap(SampleReview(), 0))]
  }

  lemma TwoRecordsExceed()
    ensures !CapsHold(SAMPLE, TwoRecords())
  {
    var record := SpendRecord(0, SpendMap(SampleReview(), 0));
    SpendMapGet(SampleReview(), 0, 1);
    InWindowSnoc([], record, -1, 1);
    InWindowSnoc([record], record, -1, 1);
    assert [] + [record] == [record];
    hide SpendMap, InWindow;
    assert InWindow([], -1, 1) >= 0 && InWindow(TwoRecords(), -1, 1) >= 12;
    assert HasCap(SAMPLE, 1) && Cap(SAMPLE, 1) == 10;
  }

  function SampleRecord(): SpendRecord {
    SpendRecord(0, SpendMap(SampleReview(), 0))
  }

  /** Both calls pass the policy before either has recorded anything. */
  function Overlapping(): seq<Event> {
    [Begin(SampleRequest(), 0)] + ([Begin(SampleRequest(), 0)] + ([Record(0, 0)] + ([Record(1, 0)]
        + ([Return(0)] + [Return(1)]))))
  }

  /** Each call is evaluated at one time and recorded at an earlier one. */
  function SteppingBack(): seq<Event> {
    [Begin(SampleRequest(), 100_000)] + ([Record(0, 0)] + ([Return(0)] + ([Begin(SampleRequest(), 100_000)]
        + ([Record(1, 0)] + [Return(1)]))))
  }

  lemma Then(d: Discipline, s: State, e: Event, rest: seq<Event>)
    requires Enabled(d, SAMPLE, 0, s, e)
    ensures Possible(d, SAMPLE, 0, s, [e] + rest) <==> Possible(d, SAMPLE, 0, Next(0, s, e), rest)
    ensures Run(0, s, [e] + rest) == Run(0, Next(0, s, e), rest)
  {
    assert ([e] + rest)[1..] == rest;
    hide Enabled, Next;
  }

  lemma Last(d: Discipline, s: State, e: Event)
    requires Enabled(d, SAMPLE, 0, s, e)
    ensures Possible(d, SAMPLE, 0, s, [e]) && Run(0, s, [e]) == Next(0, s, e)
  {
    assert [e] == [e] + [];
    Then(d, s, e, []);
    hide Enabled, Next;
  }

  /** A log of `n` sample entries, all durable. */
  function SampleLog(n: nat): Log {
    Log(seq(n, _ => Piece(Signed(SampleRecord()), Ended)), n)
  }

  lemma SampleBegin(d: Discipline, n: nat, calls: seq<Call>, returned: seq<SpendRecord>, now: nat)
    requires Recent(Records(SampleLog(n).pieces), now, 1) == 0 && (d.exclusive ==> Idle(calls))
    ensures Enabled(d, SAMPLE, 0, State(SampleLog(n), calls, returned), Begin(SampleRequest(), now))
    ensures Next(0, State(SampleLog(n), calls, returned), Begin(SampleRequest(), now))
         == State(SampleLog(n), calls + [Call(now, [SampleReview()], [])], returned)
  {
    SampleAllowed(Records(SampleLog(n).pieces), now);
    assert Readable(SampleLog(n).pieces);
    hide Allowed, Recent, Idle, Records, Readable, SampleLog;
  }

  lemma SampleRecorded(d: Discipline, n: nat, calls: seq<Call>, returned: seq<SpendRecord>, call: nat)
    requires call < |calls| && calls[call].left == [SampleReview()] && calls[call].done == []
    requires d.steady ==> calls[call].now == 0
    ensures Enabled(d, SAMPLE, 0, State(SampleLog(n), calls, returned), Record(call, 0))
    ensures Next(0, State(SampleLog(n), calls, returned), Record(call, 0))
         == State(SampleLog(n + 1), calls[call := Call(calls[call].now, [], [SampleRecord()])], returned)
  {
    assert [SampleReview()][1..] == [] && [] + [SampleRecord()] == [SampleRecord()];
    assert SampleLog(n).pieces + [Piece(Signed(SampleRecord()), Ended)] == SampleLog(n + 1).pieces;
    hide SpendMap, SampleReview, SampleLog;
  }

  lemma SampleReturned(d: Discipline, n: nat, calls: seq<Call>, returned: seq<SpendRecord>, call: nat)
    requires call < |calls| && calls[call].left == []
    ensures Enabled(d, SAMPLE, 0, State(SampleLog(n), calls, returned), Return(call))
    ensures Next(0, State(SampleLog(n), calls, returned), Return(call))
         == State(SampleLog(n), calls[call := Call(calls[call].now, [], [])], returned + calls[call].done)
  {
    hide SampleLog;
  }

  lemma SampleRecords(now: nat)
    ensures SampleLog(0) == EMPTY.log && Recent(Records(SampleLog(0).pieces), now, 1) == 0
    ensures now >= WINDOW_SECS ==> Recent(Records(SampleLog(1).pieces), now, 1) == 0
  {
    assert SampleLog(0).pieces == [] && SampleLog(1).pieces[..0] == [];
    assert Records(SampleLog(1).pieces) == [SampleRecord()];
    assert [SampleRecord()][..0] == [];
    hide SampleRecord;
  }

  lemma OverlappingExceeds(d: Discipline)
    requires !d.exclusive
    ensures Possible(d, SAMPLE, 0, EMPTY, Overlapping()) && Run(0, EMPTY, Overlapping()).returned == TwoRecords()
  {
    var open, held, gone := Call(0, [SampleReview()], []), Call(0, [], [SampleRecord()]), Call(0, [], []);
    SampleRecords(0);
    OverlappingIs();
    assert [] + [open] == [open] && [open] + [open] == [open, open] && [open, open][0 := held] == [held, open];
    assert [held, open][1 := held] == [held, held] && [held, held][0 := gone] == [gone, held];
    assert [] + [SampleRecord()] + [SampleRecord()] == TwoRecords();
    hide *;
    SampleBegin(d, 0, [], [], 0);
    SampleBegin(d, 0, [open], [], 0);
    SampleRecorded(d, 0, [open, open], [], 0);
    SampleRecorded(d, 1, [held, open], [], 1);
    SampleReturned(d, 2, [held, held], [], 0);
    SampleReturned(d, 2, [gone, held], [] + [SampleRecord()], 1);
    var s1, s2 := State(SampleLog(0), [open], []), State(SampleLog(0), [open, open], []);
    var s3, s4 := State(SampleLog(1), [held, open], []), State(SampleLog(2), [held, held], []);
    var s5 := State(SampleLog(2), [gone, held], [] + [SampleRecord()]);
    var e6, e5, e4 := [Return(1)], [Return(0)] + [Return(1)], [Record(1, 0)] + ([Return(0)] + [Return(1)]);
    var e3 := [Record(0, 0)] + e4;
    Then(d, EMPTY, Begin(SampleRequest(), 0), [Begin(SampleRequest(), 0)] + e3);
    Then(d, s1, Begin(SampleRequest(), 0), e3);
    Then(d, s2, Record(0, 0), e4);
    Then(d, s3, Record(1, 0), e5);
    Then(d, s4, Return(0), e6);
    Last(d, s5, Return(1));
  }

  lemma OverlappingIs()
    ensures Overlapping() == [Begin(SampleRequest(), 0)] + ([Begin(SampleRequest(), 0)] + ([Record(0, 0)]
                + ([Record(1, 0)] + ([Return(0)] + [Return(1)]))))
    ensures SteppingBack() == [Begin(SampleRequest(), 100_000)] + ([Record(0, 0)] + ([Return(0)]
                + ([Begin(SampleRequest(), 100_000)] + ([Record(1, 0)] + [Return(1)]))))
    ensures EMPTY == State(EMPTY.log, [], [])
  {}

  lemma SteppingBackExceeds(d: Discipline)
    requires !d.steady
    ensures Possible(d, SAMPLE, 0, EMPTY, SteppingBack()) && Run(0, EMPTY, SteppingBack()).returned == TwoRecords()
  {
    var now := 100_000;
    var open, held, gone := Call(now, [SampleReview()], []), Call(now, [], [SampleRecord()]), Call(now, [], []);
    SampleRecords(now);
    OverlappingIs();
    assert [] + [open] == [open] && [open][0 := held] == [held] && [held][0 := gone] == [gone];
    assert [gone] + [open] == [gone, open] && [gone, open][1 := held] == [gone, held];
    assert [] + [SampleRecord()] + [SampleRecord()] == TwoRecords() && Idle([]) && Idle([gone]);
    hide *;
    SampleBegin(d, 0, [], [], now);
    SampleRecorded(d, 0, [open], [], 0);
    SampleReturned(d, 1, [held], [], 0);
    SampleBegin(d, 1, [gone], [] + [SampleRecord()], now);
    SampleRecorded(d, 1, [gone, open], [] + [SampleRecord()], 1);
    SampleReturned(d, 2, [gone, held], [] + [SampleRecord()], 1);
    var s1, s2 := State(SampleLog(0), [open], []), State(SampleLog(1), [held], []);
    var s3 := State(SampleLog(1), [gone], [] + [SampleRecord()]);
    var s4 := State(SampleLog(1), [gone, open], [] + [SampleRecord()]);
    var s5 := State(SampleLog(2), [gone, held], [] + [SampleRecord()]);
    var e5 := [Record(1, 0)] + [Return(1)];
    var e4 := [Begin(SampleRequest(), now)] + e5;
    var e3 := [Return(0)] + e4;
    Then(d, EMPTY, Begin(SampleRequest(), now), [Record(0, 0)] + e3);
    Then(d, s1, Record(0, 0), e3);
    Then(d, s2, Return(0), e4);
    Then(d, s3, Begin(SampleRequest(), now), e5);
    Then(d, s4, Record(1, 0), [Return(1)]);
    Last(d, s5, Return(1));
  }

  /** Over every run of every policy the signatures returned keep the caps exactly when calls exclude each other
      and the clock never steps back inside one: no crash, failed append, power cut or restart breaks them. */
  lemma CapsIff(d: Discipline)
    ensures (forall policy, policyAsset, events | Modest(policy) && Possible(d, policy, policyAsset, EMPTY, events) ::
               CapsHold(policy, Run(policyAsset, EMPTY, events).returned))
            <==> d.exclusive && d.steady
  {
    if d.exclusive && d.steady {
      forall policy, policyAsset, events | Modest(policy) && Possible(d, policy, policyAsset, EMPTY, events)
        ensures CapsHold(policy, Run(policyAsset, EMPTY, events).returned)
      {
        NothingYet();
        assert Sound(policy, policyAsset, EMPTY);
        hide Possible, Run, CapsHold, Sound, Kept, Modest;
        RunSound(d, policy, policyAsset, EMPTY, events);
      }
    } else {
      TwoRecordsExceed();
      var events := if !d.exclusive then Overlapping() else SteppingBack();
      if !d.exclusive { OverlappingExceeds(d); } else { SteppingBackExceeds(d); }
      assert Modest(SAMPLE);
      hide *;
      assert Possible(d, SAMPLE, 0, EMPTY, events) && !CapsHold(SAMPLE, Run(0, EMPTY, events).returned);
    }
    hide Run, Possible, CapsHold;
  }
}
