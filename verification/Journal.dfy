/** The append-only decision journal of the preconfirmation signer. */
module Journal {
  import opened Common
  import opened Coins

  const MAX_JOURNAL: nat := 2 * 1024 * 1024
  const MAX_RECORD: nat := 4096
  const NEWLINE: nat := 10

  type Bytes = seq<nat>

  datatype Receipt = Receipt(bond: OutPoint, txid: nat, signature: nat)

  /** Record formats and the profile's receipt check, as functions. */
  datatype Codec = Codec(
    encode: Receipt -> Bytes, decode: Bytes -> Option<Receipt>, header: Bytes, headerOk: Bytes -> bool,
        valid: Receipt -> bool)

  /** Records read back as written and never contain a line break. */
  ghost predicate Faithful(c: Codec) {
    && (forall r :: c.decode(c.encode(r)) == Some(r) && NEWLINE !in c.encode(r))
    && NEWLINE !in c.header && c.headerOk(c.header) && |c.header| <= MAX_RECORD
  }

  // ---- Reading a log -----------------------------------------------------------------------------

  function LastNewline(s: Bytes): (i: nat)
    requires NEWLINE in s
    ensures i < |s| && s[i] == NEWLINE && forall j :: i < j < |s| ==> s[j] != NEWLINE
  {
    if s[|s| - 1] == NEWLINE then |s| - 1 else LastNewline(s[..|s| - 1])
  }

  /** The pieces between line breaks. */
  function Split(s: Bytes): seq<Bytes> {
    if NEWLINE !in s then [s]
    else
      var i := LastNewline(s);
      Split(s[..i]) + [s[i + 1..]]
  }

  /** The decisions the receipt lines record, if every one is valid and no bond has two. */
  function ReplayLines(c: Codec, lines: seq<Bytes>): Option<map<OutPoint, Receipt>> {
    if lines == [] then Some(map[])
    else
      var front := ReplayLines(c, lines[..|lines| - 1]);
      if front.None? then None else AddLine(c, front.value, lines[|lines| - 1])
  }

  function AddLine(c: Codec, decisions: map<OutPoint, Receipt>, line: Bytes): Option<map<OutPoint, Receipt>> {
    var receipt := c.decode(line);
    if receipt.None? || !c.valid(receipt.value) || receipt.value.bond in decisions then None
    else Some(decisions[receipt.value.bond := receipt.value])
  }

  /** What a log of complete lines records. */
  function Replay(c: Codec, bytes: Bytes): Option<map<OutPoint, Receipt>> {
    if bytes == [] || bytes[|bytes| - 1] != NEWLINE then None
    else
      var lines := Split(bytes[..|bytes| - 1]);
      if lines == [] || !c.headerOk(lines[0]) then None else ReplayLines(c, lines[1..])
  }

  // ---- Writing ---------------------------------------------------------------------------------------

  /** A file and how much of it is certain to survive a power cut. */
  datatype Disk = Disk(bytes: Bytes, durable: nat)

  /** Writes a line and syncs; with a fault, some prefix of the line is left behind unsynced. */
  function Appended(disk: Disk, line: Bytes, fault: Option<nat>): (Disk, bool) {
    if |line| > MAX_RECORD then (disk, false)
    else
      var record := line + [NEWLINE];
      if fault.None? then (Disk(disk.bytes + record, |disk.bytes| + |record|), true)
      else (Disk(disk.bytes + record[..if fault.value <= |record| then fault.value else |record|], disk.durable), false)
  }

  /** Opening: the file afterwards and the decisions, if the log is accepted. */
  function Opened(c: Codec, disk: Disk, fault: Option<nat>): (Disk, Option<map<OutPoint, Receipt>>) {
    if |disk.bytes| > MAX_JOURNAL then (disk, None)
    else if disk.bytes == [] then
      var (after, ok) := Appended(disk, c.header, fault);
      (after, if ok then Some(map[]) else None)
    else (disk, Replay(c, disk.bytes))
  }

  datatype Outcome = Accepted(receipt: Receipt) | Refused

  /** A process's journal: its decisions and whether an append has failed. */
  datatype Memory = Memory(decisions: map<OutPoint, Receipt>, failed: bool)

  function Committed(c: Codec, m: Memory, disk: Disk, receipt: Receipt, fault: Option<nat>): (Memory, Disk, Outcome) {
    if m.failed || !c.valid(receipt) then (m, disk, Refused)
    else if receipt.bond in m.decisions then
      var existing := m.decisions[receipt.bond];
      (m, disk, if existing.txid == receipt.txid then Accepted(existing) else Refused)
    else
      var (after, ok) := Appended(disk, c.encode(receipt), fault);
      if ok then (Memory(m.decisions[receipt.bond := receipt], false), after, Accepted(receipt))
      else (Memory(m.decisions, true), after, Refused)
  }

  datatype Prior = Same(receipt: Receipt) | Conflict | Unknown

  function Existing(m: Memory, bond: OutPoint, txid: nat): Prior {
    if bond !in m.decisions then Unknown
    else if m.decisions[bond].txid == txid then Same(m.decisions[bond])
    else Conflict
  }

  // ---- The journal object --------------------------------------------------------------------------------

  class LogFile {
    var disk: Disk

    constructor (disk: Disk)
      ensures this.disk == disk
    {
      this.disk := disk;
    }

    /** `fault` is how many bytes reach the file when the write or the sync fails. */
    method Append(line: Bytes, fault: Option<nat>) returns (ok: bool)
      modifies this
      ensures (disk, ok) == Appended(old(disk), line, fault)
      ensures ok ==> disk.bytes == old(disk.bytes) + line + [NEWLINE] && disk.durable == |disk.bytes|
      ensures !ok ==> disk.durable == old(disk.durable) && old(disk.bytes) <= disk.bytes
    {
      if |line| > MAX_RECORD { return false; }
      var record := line + [NEWLINE];
      if fault.Some? {
        var kept := if fault.value <= |record| then fault.value else |record|;
        disk := disk.(bytes := disk.bytes + record[..kept]);
        return false;
      }
      var bytes := disk.bytes + record;
      disk := Disk(bytes, |bytes|);
      ok := true;
    }
  }

  class DecisionJournal {
    const codec: Codec
    const file: LogFile
    var decisions: map<OutPoint, Receipt>
    var failed: bool

    /** Until an append fails, the decisions are exactly what the log records. */
    ghost predicate Valid()
      reads this, file
    {
      Faithful(codec) && (!failed ==> Replay(codec, file.disk.bytes) == Some(decisions))
    }

    ghost function Now(): Memory
      reads this
    {
      Memory(decisions, failed)
    }

    constructor (codec: Codec, file: LogFile, decisions: map<OutPoint, Receipt>)
      ensures this.codec == codec && this.file == file && Now() == Memory(decisions, false)
    {
      this.codec, this.file, this.decisions, this.failed := codec, file, decisions, false;
    }

    static method ReplayLog(codec: Codec, lines: seq<Bytes>) returns (decisions: Option<map<OutPoint, Receipt>>)
      ensures decisions == ReplayLines(codec, lines)
    {
      var found: map<OutPoint, Receipt> := map[];
      for i := 0 to |lines|
        invariant ReplayLines(codec, lines[..i]) == Some(found)
      {
        assert lines[..i + 1][..i] == lines[..i];
        var receipt := codec.decode(lines[i]);
        if receipt.None? || !codec.valid(receipt.value) || receipt.value.bond in found {
          ReplayStops(codec, lines, i + 1);
          return None;
        }
        found := found[receipt.value.bond := receipt.value];
      }
      assert lines[..|lines|] == lines;
      decisions := Some(found);
    }

    /** Reads and replays the log, or starts it with a header. */
    static method Open(codec: Codec, file: LogFile, fault: Option<nat>) returns (r: Option<DecisionJournal>)
      requires Faithful(codec)
      modifies file
      ensures file.disk == Opened(codec, old(file.disk), fault).0
      ensures r.Some? <==> Opened(codec, old(file.disk), fault).1.Some?
      ensures r.Some? ==> fresh(r.value) && r.value.file == file && r.value.codec == codec && r.value.Valid()
      ensures r.Some? ==> r.value.Now() == Memory(Opened(codec, old(file.disk), fault).1.value, false)
    {
      var bytes := file.disk.bytes;
      if |bytes| > MAX_JOURNAL { return None; }
      var decisions: map<OutPoint, Receipt> := map[];
      if bytes == [] {
        var ok := file.Append(codec.header, fault);
        if !ok { return None; }
        HeaderOnly(codec);
        assert file.disk.bytes == codec.header + [NEWLINE];
      } else {
        if bytes[|bytes| - 1] != NEWLINE { return None; }
        var lines := Split(bytes[..|bytes| - 1]);
        if lines == [] || !codec.headerOk(lines[0]) { return None; }
        var replayed := ReplayLog(codec, lines[1..]);
        if replayed.None? { return None; }
        decisions := replayed.value;
      }
      var journal := new DecisionJournal(codec, file, decisions);
      r := Some(journal);
    }

    /** Records a decision durably before accepting it; a bond has at most one. */
    method Commit(receipt: Receipt, fault: Option<nat>) returns (outcome: Outcome)
      requires Valid()
      modifies this, file
      ensures Valid()
      ensures (Now(), file.disk, outcome) == Committed(codec, old(Now()), old(file.disk), receipt, fault)
      ensures old(failed) || !codec.valid(receipt) ==>
                outcome.Refused? && Now() == old(Now()) && file.disk == old(file.disk)
      ensures outcome.Accepted? && receipt.bond !in old(decisions) ==>
                && outcome.receipt == receipt && decisions == old(decisions)[receipt.bond := receipt]
                && file.disk.bytes == old(file.disk.bytes) + codec.encode(receipt) + [10]
                && file.disk.durable == |file.disk.bytes|
    {
      if failed || !codec.valid(receipt) { return Refused; }
      if receipt.bond in decisions {
        var existing := decisions[receipt.bond];
        return if existing.txid == receipt.txid then Accepted(existing) else Refused;
      }
      CommitExtends(codec, file.disk.bytes, decisions, receipt);
      var ok := file.Append(codec.encode(receipt), fault);
      if !ok {
        failed := true;
        return Refused;
      }
      decisions := decisions[receipt.bond := receipt];
      outcome := Accepted(receipt);
    }

    method Find(bond: OutPoint, txid: nat) returns (prior: Prior)
      requires Valid()
      ensures prior == Existing(Now(), bond, txid)
    {
      if bond !in decisions { return Unknown; }
      prior := if decisions[bond].txid == txid then Same(decisions[bond]) else Conflict;
    }
  }

  // ---- The log and its replay --------------------------------------------------------------------------------

  lemma {:induction false} ReplayStops(c: Codec, lines: seq<Bytes>, k: nat)
    requires k <= |lines| && ReplayLines(c, lines[..k]).None?
    ensures ReplayLines(c, lines).None?
  {
    if k < |lines| {
      assert lines[..|lines| - 1][..k] == lines[..k];
      ReplayStops(c, lines[..|lines| - 1], k);
    } else {
      assert lines[..k] == lines;
    }
  }

  lemma LastNewlineIs(s: Bytes, i: nat)
    requires i < |s| && s[i] == NEWLINE && forall j :: i < j < |s| ==> s[j] != NEWLINE
    ensures LastNewline(s) == i && Split(s) == Split(s[..i]) + [s[i + 1..]]
  {}

  /** A line break separates the pieces before it from the pieces after it. */
  lemma {:induction false} SplitAppend(a: Bytes, b: Bytes)
    ensures Split(a + [NEWLINE] + b) == Split(a) + Split(b)
    decreases |b|
  {
    var s := a + [NEWLINE] + b;
    if NEWLINE !in b {
      LastNewlineIs(s, |a|);
      assert s[..|a|] == a && s[|a| + 1..] == b;
    } else {
      var i := LastNewline(b);
      SplitAppend(a, b[..i]);
      SplitLast(a, b, i);
    }
  }

  lemma SplitLast(a: Bytes, b: Bytes, i: nat)
    requires NEWLINE in b && i == LastNewline(b) && Split(a + [NEWLINE] + b[..i]) == Split(a) + Split(b[..i])
    ensures Split(a + [NEWLINE] + b) == Split(a) + Split(b)
  {
    var s, at := a + [NEWLINE] + b, |a| + 1 + i;
    assert s[at] == b[i];
    LastNewlineIs(s, at);
    LastNewlineIs(b, i);
    assert s[..at] == a + [NEWLINE] + b[..i] && s[at + 1..] == b[i + 1..];
    hide Split;
  }

  lemma HeaderOnly(c: Codec)
    requires Faithful(c)
    ensures Replay(c, c.header + [NEWLINE]) == Some(map[])
  {
    var bytes := c.header + [NEWLINE];
    assert bytes[..|bytes| - 1] == c.header;
  }

  lemma ReplaySnoc(c: Codec, lines: seq<Bytes>, line: Bytes)
    ensures ReplayLines(c, lines + [line])
         == if ReplayLines(c, lines).None? then None else AddLine(c, ReplayLines(c, lines).value, line)
  {
    assert (lines + [line])[..|lines|] == lines;
  }

  lemma ReplayOf(c: Codec, body: Bytes, lines: seq<Bytes>)
    requires Split(body) == lines && lines != [] && c.headerOk(lines[0])
    ensures Replay(c, body + [NEWLINE]) == ReplayLines(c, lines[1..])
  {
    assert (body + [NEWLINE])[..|body|] == body;
    hide Split, ReplayLines;
  }

  lemma RecordFacts(c: Codec, bytes: Bytes, receipt: Receipt)
    requires Faithful(c) && Replay(c, bytes).Some?
    ensures Split(c.encode(receipt)) == [c.encode(receipt)] && c.decode(c.encode(receipt)) == Some(receipt)
    ensures bytes != [] && bytes == bytes[..|bytes| - 1] + [NEWLINE]
    ensures var lines := Split(bytes[..|bytes| - 1]);
            lines != [] && c.headerOk(lines[0]) && Replay(c, bytes) == ReplayLines(c, lines[1..])
  {}

  /** Appending a receipt line adds exactly that decision. */
  lemma CommitExtends(c: Codec, bytes: Bytes, decisions: map<OutPoint, Receipt>, receipt: Receipt)
    requires Faithful(c) && Replay(c, bytes) == Some(decisions) && c.valid(receipt) && receipt.bond !in decisions
    ensures Replay(c, bytes + (c.encode(receipt) + [NEWLINE])) == Some(decisions[receipt.bond := receipt])
  {
    RecordFacts(c, bytes, receipt);
    hide Faithful, Replay, Split, ReplayLines;
    var line, body := c.encode(receipt), bytes[..|bytes| - 1];
    var lines := Split(body);
    SplitAppend(body, line);
    ReplayOf(c, body + [NEWLINE] + line, lines + [line]);
    ReplaySnoc(c, lines[1..], line);
    assert (lines + [line])[1..] == lines[1..] + [line];
    assert bytes + (line + [NEWLINE]) == body + [NEWLINE] + line + [NEWLINE];
  }

  predicate Extends(later: map<OutPoint, Receipt>, earlier: map<OutPoint, Receipt>) {
    forall b :: b in earlier ==> b in later && later[b] == earlier[b]
  }

  /** What the next opening makes of an append: after a success the decision, and durably; after a failure the
      decision if the whole line was written, a refusal if part of it was, and else no change. */
  lemma AppendReplays(c: Codec, disk: Disk, decisions: map<OutPoint, Receipt>, receipt: Receipt, fault: Option<nat>)
    requires Faithful(c) && Replay(c, disk.bytes) == Some(decisions) && c.valid(receipt)
    requires receipt.bond !in decisions
    ensures var (after, ok) := Appended(disk, c.encode(receipt), fault);
            var written := if |c.encode(receipt)| > 4_096 then 0 else fault.GetOr(|c.encode(receipt)| + 1);
            && disk.bytes <= after.bytes && (ok ==> after.durable == |after.bytes|)
            && (!ok ==> after.durable == disk.durable)
            && Replay(c, after.bytes)
               == if written == 0 then Some(decisions) else if written <= |c.encode(receipt)| then None
                  else Some(decisions[receipt.bond := receipt])
  {
    var line := c.encode(receipt);
    CommitExtends(c, disk.bytes, decisions, receipt);
    var after := Appended(disk, line, fault).0;
    if |line| <= MAX_RECORD && fault.Some? {
      var record, k := line + [NEWLINE], fault.value;
      if k == 0 {
        assert after.bytes == disk.bytes;
      } else if k <= |line| {
        assert after.bytes == disk.bytes + record[..k] && after.bytes[|after.bytes| - 1] == line[k - 1];
      } else {
        assert record[..|record|] == record;
      }
    }
    hide ReplayLines;
  }

  /** What a lookup finds is what committing the same transaction answers: the recorded receipt, a refusal for
      another transaction, or, where nothing is recorded, acceptance exactly if the line reaches the disk. An
      accepted receipt is found from then on, and every other transaction for its bond conflicts. */
  lemma FindForetells(c: Codec, m: Memory, disk: Disk, receipt: Receipt, fault: Option<nat>)
    requires !m.failed && c.valid(receipt)
    ensures var (after, written, outcome) := Committed(c, m, disk, receipt, fault);
            && (match Existing(m, receipt.bond, receipt.txid)
                case Same(recorded) => outcome == Accepted(recorded) && after == m && written == disk
                case Conflict => outcome == Refused && after == m && written == disk
                case Unknown => outcome == if fault.None? && |c.encode(receipt)| <= 4_096 then Accepted(receipt)
                                           else Refused)
            && (outcome.Accepted? ==>
                  && Existing(after, receipt.bond, receipt.txid) == Same(outcome.receipt)
                  && forall txid :: txid != receipt.txid ==> Existing(after, receipt.bond, txid) == Conflict)
  {}

  lemma {:induction false} ReplayPrefix(c: Codec, lines: seq<Bytes>, k: nat)
    requires k <= |lines| && ReplayLines(c, lines).Some?
    ensures ReplayLines(c, lines[..k]).Some? && Extends(ReplayLines(c, lines).value, ReplayLines(c, lines[..k]).value)
  {
    if k < |lines| {
      assert lines[..|lines| - 1][..k] == lines[..k];
      ReplayPrefix(c, lines[..|lines| - 1], k);
    } else {
      assert lines[..k] == lines;
    }
  }

  lemma ReplayIs(c: Codec, bytes: Bytes)
    requires Replay(c, bytes).Some?
    ensures bytes != [] && bytes[|bytes| - 1] == NEWLINE && Split(bytes[..|bytes| - 1]) != []
    ensures Replay(c, bytes) == ReplayLines(c, Split(bytes[..|bytes| - 1])[1..])
  {}

  lemma LinesKeep(c: Codec, a: Bytes, b: Bytes)
    requires Split(a) != [] && ReplayLines(c, Split(a + [NEWLINE] + b)[1..]).Some?
    ensures ReplayLines(c, Split(a)[1..]).Some?
    ensures Extends(ReplayLines(c, Split(a + [NEWLINE] + b)[1..]).value, ReplayLines(c, Split(a)[1..]).value)
  {
    SplitAppend(a, b);
    var all, early := Split(a + [NEWLINE] + b)[1..], Split(a)[1..];
    assert all == early + Split(b) && all[..|early|] == early;
    hide Split, ReplayLines;
    ReplayPrefix(c, all, |early|);
  }

  lemma Cut(bytes: Bytes, k: nat) returns (a: Bytes, b: Bytes)
    requires 0 < k < |bytes| && bytes[k - 1] == NEWLINE
    ensures bytes[..k][..k - 1] == a && bytes[..|bytes| - 1] == a + [NEWLINE] + b
  {
    a, b := bytes[..k - 1], bytes[k..|bytes| - 1];
  }

  /** A log that keeps an accepted log as its beginning keeps its decisions. */
  lemma ReplayKeeps(c: Codec, bytes: Bytes, k: nat)
    requires k <= |bytes| && Replay(c, bytes[..k]).Some? && Replay(c, bytes).Some?
    ensures Extends(Replay(c, bytes).value, Replay(c, bytes[..k]).value)
  {
    ReplayIs(c, bytes);
    ReplayIs(c, bytes[..k]);
    hide *;
    if k < |bytes| {
      var a, b := Cut(bytes, k);
      LinesKeep(c, a, b);
    } else {
      assert bytes[..k] == bytes;
      SelfExtends(Replay(c, bytes).value);
    }
  }

  lemma SelfExtends(m: map<OutPoint, Receipt>)
    ensures Extends(m, m)
  {}

  /** Every decision is filed under its own bond. */
  lemma {:induction false} ReplayKeyed(c: Codec, lines: seq<Bytes>)
    requires ReplayLines(c, lines).Some?
    ensures forall b :: b in ReplayLines(c, lines).value ==> ReplayLines(c, lines).value[b].bond == b
  {
    if lines != [] { ReplayKeyed(c, lines[..|lines| - 1]); }
  }

  // ---- Which logs are accepted --------------------------------------------------------------------------

  /** The pieces with a line break between any two. */
  function Joined(lines: seq<Bytes>): Bytes {
    if lines == [] then []
    else if |lines| == 1 then lines[0]
    else Joined(lines[..|lines| - 1]) + [10] + lines[|lines| - 1]
  }

  /** Splitting loses nothing and leaves no line break inside a piece. */
  lemma {:induction false} SplitJoins(s: Bytes)
    ensures Split(s) != [] && Joined(Split(s)) == s && forall i :: 0 <= i < |Split(s)| ==> 10 !in Split(s)[i]
  {
    if NEWLINE in s {
      var i := LastNewline(s);
      var front := Split(s[..i]);
      SplitJoins(s[..i]);
      assert Split(s) == front + [s[i + 1..]];
      assert Split(s)[..|front|] == front;
      assert s == s[..i] + [10] + s[i + 1..];
    } else {
      assert Split(s) == [s];
    }
  }

  /** Every line is a valid receipt, and no two are for one bond. */
  ghost predicate OneEach(c: Codec, lines: seq<Bytes>) {
    && (forall i :: 0 <= i < |lines| ==> c.decode(lines[i]).Some? && c.valid(c.decode(lines[i]).value))
    && forall i, j :: 0 <= i < j < |lines| ==> c.decode(lines[i]).value.bond != c.decode(lines[j]).value.bond
  }

  /** The decisions are the receipts of the lines, each under its bond, and no others. */
  ghost predicate RecordsAll(c: Codec, lines: seq<Bytes>, decisions: map<OutPoint, Receipt>)
    requires OneEach(c, lines)
  {
    && (forall i :: 0 <= i < |lines| ==>
          var receipt := c.decode(lines[i]).value;
          receipt.bond in decisions && decisions[receipt.bond] == receipt)
    && forall bond :: bond in decisions ==>
         exists i :: 0 <= i < |lines| && c.decode(lines[i]) == Some(decisions[bond]) && decisions[bond].bond == bond
  }

  /** The lines replay exactly when each is a valid receipt for a bond of its own, and then as those receipts. */
  lemma {:induction false} ReplaysExactly(c: Codec, lines: seq<Bytes>)
    ensures ReplayLines(c, lines).Some? <==> OneEach(c, lines)
    ensures OneEach(c, lines) ==> RecordsAll(c, lines, ReplayLines(c, lines).value)
  {
    if lines != [] {
      var front, last := lines[..|lines| - 1], lines[|lines| - 1];
      ReplaysExactly(c, front);
      assert lines == front + [last];
      hide ReplayLines;
      ReplaySnoc(c, front, last);
      if OneEach(c, front) {
        OneMoreLine(c, front, ReplayLines(c, front).value, last);
      } else {
        FewerEach(c, front, last);
      }
    }
  }

  lemma FewerEach(c: Codec, lines: seq<Bytes>, line: Bytes)
    ensures OneEach(c, lines + [line]) ==> OneEach(c, lines)
  {
    var all := lines + [line];
    assert forall i :: 0 <= i < |lines| ==> all[i] == lines[i];
  }

  lemma OneMoreLine(c: Codec, lines: seq<Bytes>, decisions: map<OutPoint, Receipt>, line: Bytes)
    requires OneEach(c, lines) && RecordsAll(c, lines, decisions)
    ensures AddLine(c, decisions, line).Some? <==> OneEach(c, lines + [line])
    ensures OneEach(c, lines + [line]) ==> RecordsAll(c, lines + [line], AddLine(c, decisions, line).value)
  {
    var all := lines + [line];
    assert all[|lines|] == line;
    assert forall i :: 0 <= i < |lines| ==> all[i] == lines[i];
    if AddLine(c, decisions, line).Some? {
      EachMore(c, lines, decisions, line);
      AllMore(c, lines, decisions, line);
    } else {
      NoMore(c, lines, decisions, line);
    }
  }

  lemma NoMore(c: Codec, lines: seq<Bytes>, decisions: map<OutPoint, Receipt>, line: Bytes)
    requires OneEach(c, lines) && RecordsAll(c, lines, decisions) && AddLine(c, decisions, line).None?
    ensures !OneEach(c, lines + [line])
  {
    var all, receipt := lines + [line], c.decode(line);
    assert all[|lines|] == line;
    if receipt.Some? && receipt.value.bond in decisions {
      var bond := receipt.value.bond;
      var i :| 0 <= i < |lines| && c.decode(lines[i]) == Some(decisions[bond]) && decisions[bond].bond == bond;
      assert all[i] == lines[i];
    }
  }

  lemma EachMore(c: Codec, lines: seq<Bytes>, decisions: map<OutPoint, Receipt>, line: Bytes)
    requires OneEach(c, lines) && RecordsAll(c, lines, decisions) && AddLine(c, decisions, line).Some?
    ensures OneEach(c, lines + [line])
  {
    var all := lines + [line];
    forall i, j | 0 <= i < j < |all|
      ensures c.decode(all[i]).Some? && c.decode(all[j]).Some?
      ensures c.decode(all[i]).value.bond != c.decode(all[j]).value.bond
    {
      assert all[i] == lines[i];
      assert j < |lines| ==> all[j] == lines[j];
    }
    forall i | 0 <= i < |all|
      ensures c.decode(all[i]).Some? && c.valid(c.decode(all[i]).value)
    {
      assert i < |lines| ==> all[i] == lines[i];
    }
  }

  lemma AllMore(c: Codec, lines: seq<Bytes>, decisions: map<OutPoint, Receipt>, line: Bytes)
    requires OneEach(c, lines) && RecordsAll(c, lines, decisions) && AddLine(c, decisions, line).Some?
    requires OneEach(c, lines + [line])
    ensures RecordsAll(c, lines + [line], AddLine(c, decisions, line).value)
  {
    var all, next := lines + [line], AddLine(c, decisions, line).value;
    forall i | 0 <= i < |all|
      ensures var receipt := c.decode(all[i]).value; receipt.bond in next && next[receipt.bond] == receipt
    {
      assert i < |lines| ==> all[i] == lines[i];
    }
    forall bond | bond in next
      ensures exists i :: 0 <= i < |all| && c.decode(all[i]) == Some(next[bond]) && next[bond].bond == bond
    {
      if bond in decisions {
        var i :| 0 <= i < |lines| && c.decode(lines[i]) == Some(decisions[bond]) && decisions[bond].bond == bond;
        assert all[i] == lines[i];
      } else {
        assert all[|lines|] == line;
      }
    }
  }

  /** The signer opens an empty file when its header reaches the disk, and any other exactly when it has at most 2 MiB
      and ends with a line break, its first line is the header, and every further line is a valid receipt for a bond
      of its own. */
  lemma OpensExactly(c: Codec, disk: Disk, fault: Option<nat>)
    ensures var decisions := Opened(c, disk, fault).1;
            decisions.Some? <==>
              if disk.bytes == [] then fault.None? && |c.header| <= 4_096
              else && |disk.bytes| <= 2_097_152 && disk.bytes[|disk.bytes| - 1] == 10
                   && var lines := Split(disk.bytes[..|disk.bytes| - 1]);
                      c.headerOk(lines[0]) && OneEach(c, lines[1..])
    ensures var decisions := Opened(c, disk, fault).1;
            decisions.Some? && disk.bytes != [] ==>
              RecordsAll(c, Split(disk.bytes[..|disk.bytes| - 1])[1..], decisions.value)
  {
    if disk.bytes != [] && disk.bytes[|disk.bytes| - 1] == 10 {
      SplitJoins(disk.bytes[..|disk.bytes| - 1]);
      ReplaysExactly(c, Split(disk.bytes[..|disk.bytes| - 1])[1..]);
    }
    hide Split, ReplayLines, OneEach, RecordsAll;
  }
}
