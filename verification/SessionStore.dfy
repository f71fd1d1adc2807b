/** The session store: what it writes, in which order, and what a later load reads back. */
module SessionStore {
  import opened Wrappers
  import opened Protocol
  import opened SessionModel
  import opened EventLog
  import opened MessagePages
  import opened PageRefinement
  import Sequences
  import Summaries

  datatype Snapshot = Snapshot(schemaVersion: nat, state: State)

  /** The three files of one session. */
  datatype Disk = Disk(events: Option<seq<byte>>, meta: Option<Meta>, snapshot: Option<Snapshot>)

  /** A disk some crash can leave behind, with the events that were completely written by then. */
  datatype CrashPoint = CrashPoint(disk: Disk, log: seq<EventLine>)

  // ---- what load reads back ----

  function EventBytes(d: Disk): seq<byte> {
    if d.events.Some? then d.events.value else []
  }

  /** The state a load returns; mismatched ids mean the snapshot is rebuilt from the whole log. */
  ghost function LoadResult(c: Codec, d: Disk, clock: Clock): (r: Result<State, SessionError>)
  {
    if d.snapshot.None? then Failure(NotFound)
    else if d.snapshot.value.schemaVersion > SESSION_SCHEMA_VERSION
      then Failure(UnsupportedSchema(d.snapshot.value.schemaVersion))
    else
      var s := d.snapshot.value.state;
      if |s.messages| == |s.messageIds| then ReplayBytes(c, EventBytes(d), s, s.meta.lastSnapshotSeq, clock)
      else
        var r := ReplayBytes(c, EventBytes(d), EMPTY, 0, clock);
        if r.Failure? then r else Success(MarkSnapshot(r.value))
  }

  function MarkSnapshot(s: State): State {
    s.(meta := s.meta.(lastSnapshotSeq := s.meta.lastSeq))
  }

  /** The snapshot holds the state some prefix of the log led to, and its mark says which. */
  ghost predicate SnapshotOf(sn: Snapshot, log: seq<EventLine>) {
    && sn.schemaVersion <= SESSION_SCHEMA_VERSION
    && |sn.state.messages| == |sn.state.messageIds|
    && exists k | 0 <= k <= |log| ::
         Durable(sn.state) == Replay(log[..k]) && sn.state.meta.lastSnapshotSeq == LastSeq(log[..k])
  }

  /** A disk from which every completely written event can be brought back. */
  ghost predicate Recoverable(c: Codec, d: Disk, log: seq<EventLine>) {
    && Increasing(log) && SupportedSchema(log)
    && d.events.Some? && FileHolds(c, d.events.value, log)
    && d.snapshot.Some? && SnapshotOf(d.snapshot.value, log)
  }

  /** Loading a recoverable disk yields the replay of every completely written event. */
  lemma {:induction false} RecoverableLoads(c: Codec, d: Disk, log: seq<EventLine>, clock: Clock)
    requires Faithful(c) && Recoverable(c, d, log)
    ensures LoadResult(c, d, clock).Success? && Durable(LoadResult(c, d, clock).value) == Replay(log)
  {
    var s := d.snapshot.value.state;
    var k :| 0 <= k <= |log| && Durable(s) == Replay(log[..k]) && s.meta.lastSnapshotSeq == LastSeq(log[..k]);
    ReplayHeldFile(c, d.events.value, log, s, s.meta.lastSnapshotSeq, clock);
    SnapshotPlusReplay(s, log, k, clock);
  }

  /** Whatever a snapshot with mismatched ids says, the whole log is replayed in its place. */
  lemma {:induction false} MismatchedSnapshotRebuilds(c: Codec, d: Disk, log: seq<EventLine>, clock: Clock)
    requires Faithful(c) && Increasing(log) && SupportedSchema(log)
    requires d.events.Some? && FileHolds(c, d.events.value, log)
    requires d.snapshot.Some? && d.snapshot.value.schemaVersion <= SESSION_SCHEMA_VERSION
    requires |d.snapshot.value.state.messages| != |d.snapshot.value.state.messageIds|
    ensures LoadResult(c, d, clock).Success? && Durable(LoadResult(c, d, clock).value) == Replay(log)
    ensures SnapshotOf(Snapshot(SESSION_SCHEMA_VERSION, LoadResult(c, d, clock).value), log)
  {
    ReplayHeldFile(c, d.events.value, log, EMPTY, 0, clock);
    assert log[..0] == [] && log[..|log|] == log;
    SnapshotPlusReplay(EMPTY, log, 0, clock);
    ReplayInvariant(log);
    var s := LoadResult(c, d, clock).value;
    assert Durable(s).meta.lastSeq == s.meta.lastSeq;
  }

  // ---- crash points of one append ----

  /** An append that stops after `k` bytes does not stop inside a character. */
  predicate WholeCut(c: Codec, line: EventLine, k: nat) {
    k >= |c.encode(line)| || c.wholeText(c.encode(line)[..k])
  }

  function Written(c: Codec, line: EventLine, k: nat): seq<byte>
    requires k <= |c.encode(line)| + 1
  {
    (c.encode(line) + [LF])[..k]
  }

  /** The events completely written when it stops. */
  function HeldAfter(c: Codec, log: seq<EventLine>, line: EventLine, k: nat): seq<EventLine> {
    if k < |c.encode(line)| then log else log + [line]
  }

  function CutDisk(c: Codec, d: Disk, line: EventLine, k: nat): Disk
    requires k <= |c.encode(line)| + 1
  {
    d.(events := Some(EventBytes(d) + Written(c, line, k)))
  }

  /** The disks a crash during an append can leave, for every byte the write may stop at between characters. */
  ghost function AppendCrashPoints(c: Codec, d: Disk, log: seq<EventLine>, line: EventLine): iset<CrashPoint> {
    iset k | 0 <= k <= |c.encode(line)| + 1 && WholeCut(c, line, k) ::
      CrashPoint(CutDisk(c, d, line, k), HeldAfter(c, log, line, k))
  }

  lemma {:induction false} SnapshotOfLonger(sn: Snapshot, log: seq<EventLine>, line: EventLine)
    requires SnapshotOf(sn, log)
    ensures SnapshotOf(sn, log + [line])
  {
    var k :| 0 <= k <= |log|
      && Durable(sn.state) == Replay(log[..k]) && sn.state.meta.lastSnapshotSeq == LastSeq(log[..k]);
    assert (log + [line])[..k] == log[..k];
  }

  lemma {:induction false} WholeFile(c: Codec, log: seq<EventLine>)
    requires Faithful(c)
    ensures FileHolds(c, LogBytes(c, log), log)
  {
    assert TornTail(c, []) && LogBytes(c, log) == LogBytes(c, log) + [];
  }

  lemma {:induction false} CutTailHeld(c: Codec, log: seq<EventLine>, line: EventLine, k: nat)
    requires Faithful(c) && k < |c.encode(line)| && c.wholeText(c.encode(line)[..k])
    ensures FileHolds(c, LogBytes(c, log) + c.encode(line)[..k], log)
  {
    var tail := c.encode(line)[..k];
    assert TornTail(c, tail);
  }

  lemma {:induction false} UnterminatedLineHeld(c: Codec, log: seq<EventLine>, line: EventLine)
    ensures FileHolds(c, LogBytes(c, log) + c.encode(line), log + [line])
  {
    var longer := log + [line];
    assert longer[..|longer| - 1] == log;
  }

  lemma {:induction false} LogBytesPush(c: Codec, log: seq<EventLine>, line: EventLine)
    ensures LogBytes(c, log + [line]) == LogBytes(c, log) + c.encode(line) + [LF]
  {
    assert (log + [line])[..|log|] == log;
  }

  lemma {:induction false} LongerLog(log: seq<EventLine>, line: EventLine)
    requires Increasing(log) && SupportedSchema(log)
    requires LastSeq(log) < line.seqNo && line.schemaVersion <= SESSION_SCHEMA_VERSION
    ensures Increasing(log + [line]) && SupportedSchema(log + [line])
  {
  }

  lemma {:induction false} LongerRecoverable(c: Codec, d: Disk, log: seq<EventLine>, line: EventLine, bytes: seq<byte>)
    requires Recoverable(c, d, log) && LastSeq(log) < line.seqNo && line.schemaVersion <= SESSION_SCHEMA_VERSION
    requires FileHolds(c, bytes, log + [line])
    ensures Recoverable(c, d.(events := Some(bytes)), log + [line])
  {
    LongerLog(log, line);
    SnapshotOfLonger(d.snapshot.value, log, line);
  }

  lemma {:induction false} CutIsRecoverable(c: Codec, d: Disk, log: seq<EventLine>, line: EventLine, k: nat)
    requires Faithful(c) && Recoverable(c, d, log) && d.events == Some(LogBytes(c, log))
    requires LastSeq(log) < line.seqNo && line.schemaVersion <= SESSION_SCHEMA_VERSION
    requires k <= |c.encode(line)| + 1 && WholeCut(c, line, k)
    ensures Recoverable(c, CutDisk(c, d, line, k), HeldAfter(c, log, line, k))
  {
    var text, before := c.encode(line), LogBytes(c, log);
    if k < |text| {
      assert Written(c, line, k) == text[..k];
      CutTailHeld(c, log, line, k);
    } else if k == |text| {
      assert Written(c, line, k) == text;
      UnterminatedLineHeld(c, log, line);
      LongerRecoverable(c, d, log, line, before + text);
    } else {
      assert before + Written(c, line, k) == before + text + [LF];
      LogBytesPush(c, log, line);
      WholeFile(c, log + [line]);
      LongerRecoverable(c, d, log, line, before + text + [LF]);
    }
  }

  lemma {:induction false} AppendIsCrashSafe(c: Codec, d: Disk, log: seq<EventLine>, line: EventLine, p: CrashPoint)
    requires Faithful(c) && Recoverable(c, d, log) && d.events == Some(LogBytes(c, log))
    requires LastSeq(log) < line.seqNo && line.schemaVersion <= SESSION_SCHEMA_VERSION
    requires p in AppendCrashPoints(c, d, log, line)
    ensures Recoverable(c, p.disk, p.log)
  {
    var k :| 0 <= k <= |c.encode(line)| + 1 && WholeCut(c, line, k)
      && p == CrashPoint(CutDisk(c, d, line, k), HeldAfter(c, log, line, k));
    CutIsRecoverable(c, d, log, line, k);
  }

  /** A crash during an append, wherever between two characters the write stops, loses no completed event. */
  lemma {:induction false} EveryAppendCrashLoads(c: Codec, d: Disk, log: seq<EventLine>, line: EventLine,
                                                 p: CrashPoint, clock: Clock)
    requires Faithful(c) && Recoverable(c, d, log) && d.events == Some(LogBytes(c, log))
    requires LastSeq(log) < line.seqNo && line.schemaVersion <= SESSION_SCHEMA_VERSION
    requires p in AppendCrashPoints(c, d, log, line)
    ensures LoadResult(c, p.disk, clock).Success? && Durable(LoadResult(c, p.disk, clock).value) == Replay(p.log)
    ensures p.log == log || p.log == log + [line]
  {
    AppendIsCrashSafe(c, d, log, line, p);
    RecoverableLoads(c, p.disk, p.log, clock);
  }

  /** An append may stop at any byte: a load then succeeds if and only if no character was cut, and then with every
      completely written event. */
  lemma {:induction false} CutLoadsIff(c: Codec, d: Disk, log: seq<EventLine>, line: EventLine, k: nat, clock: Clock)
    requires Faithful(c) && Recoverable(c, d, log) && d.events == Some(LogBytes(c, log))
    requires LastSeq(log) < line.seqNo && line.schemaVersion <= SESSION_SCHEMA_VERSION
    requires k <= |c.encode(line)| + 1
    ensures var r := LoadResult(c, CutDisk(c, d, line, k), clock);
      && (r.Success? <==> WholeCut(c, line, k))
      && (r.Success? ==> Durable(r.value) == Replay(HeldAfter(c, log, line, k)))
      && (r.Failure? ==> r.error == Io)
  {
    if WholeCut(c, line, k) {
      CutIsRecoverable(c, d, log, line, k);
      RecoverableLoads(c, CutDisk(c, d, line, k), HeldAfter(c, log, line, k), clock);
    } else {
      var s, tail := d.snapshot.value.state, c.encode(line)[..k];
      assert Written(c, line, k) == tail;
      TornCharacterFailsReplay(c, log, tail, s, s.meta.lastSnapshotSeq, clock);
    }
  }

  // ---- recording after a torn append ----

  /** A file that goes on after a line left unterminated. */
  ghost function Continued(c: Codec, log: seq<EventLine>, line: EventLine, k: nat, next: EventLine, rest: seq<byte>)
    : seq<byte>
    requires k <= |c.encode(line)| + 1
  {
    LogBytes(c, log) + Written(c, line, k) + c.encode(next) + [LF] + rest
  }

  /** Once an event is recorded after a torn or unterminated line, no load ever succeeds again, whatever is recorded
      later and whichever snapshot is written. */
  lemma {:induction false} NeverLoadsAgain(c: Codec, d: Disk, log: seq<EventLine>, line: EventLine, k: nat,
                                           next: EventLine, rest: seq<byte>, clock: Clock)
    requires Faithful(c) && LinesDoNotJoin(c) && SupportedSchema(log)
    requires 0 < k <= |c.encode(line)| && WholeCut(c, line, k)
    requires d.events == Some(Continued(c, log, line, k, next, rest))
    requires d.snapshot.Some? && d.snapshot.value.schemaVersion <= SESSION_SCHEMA_VERSION
    ensures LoadResult(c, d, clock) == Failure(Deserialize)
  {
    var tail := c.encode(line)[..k];
    var raw := tail + c.encode(next);
    assert Written(c, line, k) == tail && c.encode(line)[..|c.encode(line)|] == c.encode(line);
    assert c.wholeText(raw) && c.parse(raw) == Malformed;
    assert d.events.value == LogBytes(c, log) + (raw + [LF] + rest);
    var s := d.snapshot.value.state;
    if |s.messages| == |s.messageIds| {
      MalformedLineFailsReplay(c, log, raw, rest, s, s.meta.lastSnapshotSeq, clock);
    } else {
      MalformedLineFailsReplay(c, log, raw, rest, EMPTY, 0, clock);
    }
  }

  lemma {:induction false} ContinuedWhole(c: Codec, log: seq<EventLine>, line: EventLine, k: nat, next: EventLine)
    requires k == 0 || k == |c.encode(line)| + 1
    requires c.encode(line) != []
    ensures Continued(c, log, line, k, next, []) == LogBytes(c, HeldAfter(c, log, line, k) + [next])
  {
    var held := HeldAfter(c, log, line, k);
    LogBytesPush(c, log, line);
    LogBytesPush(c, held, next);
    assert LogBytes(c, log) + Written(c, line, k) == LogBytes(c, held);
  }

  lemma {:induction false} WholeFileLoads(c: Codec, d: Disk, log: seq<EventLine>, line: EventLine, clock: Clock)
    requires Faithful(c) && Increasing(log) && SupportedSchema(log)
    requires LastSeq(log) < line.seqNo && line.schemaVersion <= SESSION_SCHEMA_VERSION
    requires d.events == Some(LogBytes(c, log + [line]))
    requires d.snapshot.Some? && SnapshotOf(d.snapshot.value, log + [line])
    ensures LoadResult(c, d, clock).Success? && Durable(LoadResult(c, d, clock).value) == Replay(log + [line])
  {
    LongerLog(log, line);
    WholeFile(c, log + [line]);
    RecoverableLoads(c, d, log + [line], clock);
  }

  /** Crash, load, record, load: the second load succeeds if and only if the crash left nothing of the interrupted line
      or all of it with its newline; then it brings back every event. */
  lemma {:induction false} LoadRecordLoadIff(c: Codec, d: Disk, log: seq<EventLine>, line: EventLine, k: nat,
                                             next: EventLine, clock: Clock)
    requires Faithful(c) && LinesDoNotJoin(c) && Increasing(log) && SupportedSchema(log)
    requires LastSeq(log) < line.seqNo && line.schemaVersion <= SESSION_SCHEMA_VERSION
    requires k <= |c.encode(line)| + 1 && WholeCut(c, line, k)
    requires LastSeq(HeldAfter(c, log, line, k)) < next.seqNo && next.schemaVersion <= SESSION_SCHEMA_VERSION
    requires d.events == Some(Continued(c, log, line, k, next, []))
    requires d.snapshot.Some? && SnapshotOf(d.snapshot.value, HeldAfter(c, log, line, k) + [next])
    ensures var r := LoadResult(c, d, clock);
      && (r.Success? <==> k == 0 || k == |c.encode(line)| + 1)
      && (r.Success? ==> Durable(r.value) == Replay(HeldAfter(c, log, line, k) + [next]))
  {
    if 0 < k <= |c.encode(line)| {
      NeverLoadsAgain(c, d, log, line, k, next, [], clock);
    } else {
      ContinuedWhole(c, log, line, k, next);
      LongerLog(log, line);
      WholeFileLoads(c, d, HeldAfter(c, log, line, k), next, clock);
    }
  }

  // ---- steps of the store's methods ----

  lemma {:induction false} StripEnding(c: Codec, q: Query, s: Scan, head: seq<byte>, block: seq<byte>)
    requires Faithful(c) && block != [] && block[|block| - 1] in {CR, LF}
    ensures ScanBytes(c, q, s, head + block) == ScanBytes(c, q, s, head + block[..|block| - 1])
  {
    var short := head + block[..|block| - 1];
    assert head + block == short + [block[|block| - 1]];
    if block[|block| - 1] == CR {
      TrailingReturn(c, q, s, short);
    } else {
      TrailingNewline(c, q, s, short);
    }
  }

  /** A newline inside a block: the line after it is handled, the rest of the block stays. */
  lemma {:induction false} BlockStep(c: Codec, q: Query, s: Scan, head: seq<byte>, block: seq<byte>)
    requires |s.collected| <= q.limit && LastLineStart(block) > 0
    ensures var start := LastLineStart(block);
      var r := HandleBytes(c, q, s, block[start..]);
      ScanBytes(c, q, s, head + block) == if r.Failure? then r else ScanBytes(c, q, r.value, head + block[..start - 1])
  {
    var start, bytes := LastLineStart(block), head + block;
    assert bytes[|head| + start..] == block[start..];
    LastLineStartUnique(bytes, |head| + start);
    assert bytes[..|head| + start - 1] == head + block[..start - 1];
  }

  lemma {:induction false} NextBlock(file: seq<byte>, pos: nat, readLen: nat, carry: seq<byte>)
    requires pos + readLen <= |file|
    ensures file[..pos + readLen] + carry == file[..pos] + (file[pos..pos + readLen] + carry)
  {
  }

  /** At the start of the file the carried bytes are its first line. */
  lemma {:induction false} LastCarry(c: Codec, q: Query, s: Scan, carry: seq<byte>)
    requires Faithful(c) && LF !in carry && |s.collected| <= q.limit
    ensures ScanBytes(c, q, s, carry) == if carry == [] then Success(s) else HandleBytes(c, q, s, carry)
  {
    assert carry[0..] == carry;
    LastLineStartUnique(carry, 0);
  }

  lemma {:induction false} FreshSnapshot(s: State, log: seq<EventLine>)
    requires Increasing(log) && |s.messages| == |s.messageIds|
    requires Durable(s) == Replay(log) && s.meta.lastSnapshotSeq == s.meta.lastSeq
    ensures SnapshotOf(Snapshot(SESSION_SCHEMA_VERSION, s), log)
  {
    ReplayInvariant(log);
    assert log[..|log|] == log;
    assert Durable(s).meta.lastSeq == s.meta.lastSeq;
  }

  lemma {:induction false} NextSeq(s: State, log: seq<EventLine>)
    requires Increasing(log) && Durable(s) == Replay(log)
    ensures |s.messages| == |s.messageIds| && s.meta.lastSeq == LastSeq(log)
  {
    ReplayInvariant(log);
    assert Durable(s).meta.lastSeq == s.meta.lastSeq;
    assert Durable(s).messages == s.messages && Durable(s).messageIds == s.messageIds;
  }

  /** A state a log replays to has the invariants of every reachable state. */
  lemma {:induction false} TrackedState(s: State, log: seq<EventLine>)
    requires Increasing(log) && Durable(s) == Replay(log)
    ensures StateInvariant(s) && (CheckpointsLive(log) ==> BaseLive(s))
  {
    ReplayInvariant(log);
    assert s.meta.lastSeq == Durable(s).meta.lastSeq && s.meta.messageCount == Durable(s).meta.messageCount;
    assert s.messageIds == Durable(s).messageIds && s.messages == Durable(s).messages;
    assert s.contextCheckpoint == Durable(s).contextCheckpoint;
    if CheckpointsLive(log) {
      CheckpointBaseLive(log);
    }
  }

  lemma {:induction false} ReplayKeepsMark(s: State, log: seq<EventLine>, snapshotSeq: u64, clock: Clock)
    requires |s.messages| == |s.messageIds|
    ensures ReplayAfter(s, log, snapshotSeq, clock).meta.lastSnapshotSeq == s.meta.lastSnapshotSeq
  {
    if log != [] {
      ReplayKeepsMark(s, log[..|log| - 1], snapshotSeq, clock);
    }
  }

  /** Loading keeps the snapshot's mark, which is no later than the last event. */
  lemma {:induction false} IntactLoad(c: Codec, d: Disk, log: seq<EventLine>, clock: Clock)
    requires Faithful(c) && Recoverable(c, d, log)
    ensures var r := LoadResult(c, d, clock);
      r.Success? && Durable(r.value) == Replay(log) && r.value.meta.lastSnapshotSeq <= r.value.meta.lastSeq
  {
    hide ReplayBytes, Replay;
    RecoverableLoads(c, d, log, clock);
    var s := d.snapshot.value.state;
    var k :| 0 <= k <= |log| && Durable(s) == Replay(log[..k]) && s.meta.lastSnapshotSeq == LastSeq(log[..k]);
    ReplayHeldFile(c, d.events.value, log, s, s.meta.lastSnapshotSeq, clock);
    ReplayKeepsMark(s, log, s.meta.lastSnapshotSeq, clock);
    NextSeq(LoadResult(c, d, clock).value, log);
  }

  lemma {:induction false} SnapshotMarkKept(s: State, line: EventLine, now: string)
    requires |s.messages| == |s.messageIds|
    ensures Apply(s, line, now).meta.lastSnapshotSeq == s.meta.lastSnapshotSeq
    ensures Apply(s, line, now).meta.lastSeq == Max(s.meta.lastSeq, line.seqNo)
  {
  }

  lemma {:induction false} RecordedState(s: State, log: seq<EventLine>, line: EventLine, now: string)
    requires |s.messages| == |s.messageIds| && Durable(s) == Replay(log)
    ensures Durable(Apply(s, line, now)) == Replay(log + [line])
  {
    assert (log + [line])[..|log|] == log;
    assert Durable(Replay(log)) == Replay(log);
    ApplyDurable(s, Replay(log), line, now, "");
  }

  ghost function SeedLog(initial: seq<Message>, tsMs: u64): (log: seq<EventLine>)
    requires |initial| <= U64_MAX
    ensures |log| == |initial|
  {
    seq(|initial|, i requires 0 <= i < |initial| =>
      EventLine(SESSION_SCHEMA_VERSION, i + 1, tsMs, MessageAdded(initial[i])))
  }

  lemma {:induction false} SeedAt(initial: seq<Message>, tsMs: u64, i: nat)
    requires i < |initial| <= U64_MAX
    ensures SeedLog(initial, tsMs)[i] == EventLine(SESSION_SCHEMA_VERSION, i + 1, tsMs, MessageAdded(initial[i]))
  {
  }

  /** The state a new session starts in. */
  function Seeded(initial: seq<Message>): State
    requires |initial| <= U64_MAX
  {
    var n := |initial|;
    State(Meta(n, n, n, None, None, None), initial, seq(n, i requires 0 <= i < n => i + 1), None)
  }

  lemma {:induction false} SeedReplay(initial: seq<Message>, tsMs: u64)
    requires |initial| <= U64_MAX
    ensures Replay(SeedLog(initial, tsMs)) == Durable(Seeded(initial))
  {
    if initial != [] {
      var init, log := initial[..|initial| - 1], SeedLog(initial, tsMs);
      assert log[..|log| - 1] == SeedLog(init, tsMs);
      SeedReplay(init, tsMs);
      assert initial == init + [initial[|init|]];
      assert Seeded(initial).messageIds == Seeded(init).messageIds + [|initial|];
    }
  }

  lemma {:induction false} SeedLogSound(initial: seq<Message>, tsMs: u64)
    requires |initial| <= U64_MAX
    ensures Increasing(SeedLog(initial, tsMs)) && SupportedSchema(SeedLog(initial, tsMs))
  {
  }

  lemma {:induction false} SeededDisk(c: Codec, initial: seq<Message>, tsMs: u64)
    requires Faithful(c) && |initial| <= U64_MAX
    ensures var log := SeedLog(initial, tsMs);
      && Durable(Seeded(initial)) == Replay(log)
      && Recoverable(c, Disk(Some(LogBytes(c, log)), Some(Seeded(initial).meta),
                             Some(Snapshot(SESSION_SCHEMA_VERSION, Seeded(initial)))), log)
  {
    hide SeedLog, Replay, LogBytes, FileHolds, Increasing, SupportedSchema, SnapshotOf;
    var log := SeedLog(initial, tsMs);
    SeedLogSound(initial, tsMs);
    SeedReplay(initial, tsMs);
    WholeFile(c, log);
    FreshSnapshot(Seeded(initial), log);
  }

  // ---- the live session ----

  class SessionState {
    var meta: Meta
    var messages: seq<Message>
    var messageIds: seq<u64>
    var contextCheckpoint: Option<ContextCheckpoint>

    ghost function View(): State
      reads this
    {
      State(meta, messages, messageIds, contextCheckpoint)
    }

    constructor (meta: Meta, messages: seq<Message>, messageIds: seq<u64>, contextCheckpoint: Option<ContextCheckpoint>)
      ensures View() == State(meta, messages, messageIds, contextCheckpoint)
    {
      this.meta := meta;
      this.messages := messages;
      this.messageIds := messageIds;
      this.contextCheckpoint := contextCheckpoint;
    }

    method ApplyEvent(line: EventLine, now: string)
      requires |messages| == |messageIds|
      modifies this
      ensures View() == Apply(old(View()), line, now)
    {
      meta := meta.(lastSeq := Max(meta.lastSeq, line.seqNo));
      match line.event
      case MessageAdded(message) =>
        messages := messages + [message];
        messageIds := messageIds + [line.seqNo];
        meta := meta.(messageCount := |messages|);
      case MessageEdit(id, message) =>
        var idx := IndexOf(messageIds, id);
        if idx < |messageIds| {
          messages := messages[idx := message];
        }
      case TruncateAfter(id) =>
        var idx := IndexOf(messageIds, id);
        if idx < |messageIds| {
          messages := messages[..idx + 1];
          messageIds := messageIds[..idx + 1];
          meta := meta.(messageCount := |messages|);
          meta := meta.(lastFinishReason := None);
          meta := meta.(lastError := None);
          if contextCheckpoint.Some? && contextCheckpoint.value.baseMessageId >= id {
            contextCheckpoint := None;
          }
        }
      case CheckpointRecorded(checkpoint) => contextCheckpoint := Some(checkpoint);
      case Finish(reason) => meta := meta.(lastFinishReason := reason);
      case Error(error) => meta := meta.(lastError := Some(error));
      case GoalSet(goal) => meta := meta.(goal := Some(goal));
      case GoalCleared => meta := meta.(goal := None);
      case GoalCompleted(goal) => meta := meta.(goal := Some(goal));
      case GoalUsage(seconds, tokens) =>
        if meta.goal.Some? {
          meta := meta.(goal := Some(AddUsage(meta.goal.value, seconds, tokens, now)));
        }
    }
  }

  /** What the page reader keeps while it walks the file backwards. */
  class PageScan {
    var latestEdits: map<u64, Message>
    var cutoff: Option<u64>
    var collected: seq<Entry>

    ghost function View(): Scan
      reads this
    {
      Scan(latestEdits, cutoff, collected)
    }

    constructor ()
      ensures View() == NOTHING_SCANNED
    {
      latestEdits, cutoff, collected := map[], None, [];
    }

    method HandleRaw(codec: Codec, q: Query, raw: seq<byte>) returns (failed: Option<SessionError>)
      modifies this
      ensures var r := HandleBytes(codec, q, old(View()), raw);
        if r.Success? then failed == None && View() == r.value else failed == Some(r.error)
    {
      failed := None;
      var parsed := codec.parse(raw);
      if parsed.Blank? {
        return;
      }
      if parsed.Malformed? {
        return Some(Deserialize);
      }
      var line := parsed.line;
      if line.schemaVersion > SESSION_SCHEMA_VERSION {
        return Some(UnsupportedSchema(line.schemaVersion));
      }
      match line.event
      case TruncateAfter(id) => cutoff := MinCutoff(cutoff, id);
      case MessageEdit(id, message) =>
        if id < q.before && !DeletedByLaterTruncate(id, cutoff) {
          if id !in latestEdits {
            latestEdits := latestEdits[id := message];
          }
        }
      case MessageAdded(original) =>
        if |collected| > q.limit {
          return;
        }
        if line.seqNo >= q.before || DeletedByLaterTruncate(line.seqNo, cutoff) {
          return;
        }
        var message := original;
        if line.seqNo in latestEdits {
          message := latestEdits[line.seqNo];
        }
        latestEdits := latestEdits - {line.seqNo};
        if !Summaries.IsDisplayMessage(q.summaryPrefix, message) {
          return;
        }
        collected := collected + [Entry(line.seqNo, line.tsMs, message)];
      case _ =>
    }
  }

  class FileSessionStore {
    const codec: Codec
    const summaryPrefix: string
    const checkpointEvery: u64
    var disk: Disk
    /** The events completely written so far, and every disk a crash could have left since the session exists. */
    ghost var log: seq<EventLine>
    ghost var crashPoints: iset<CrashPoint>

    constructor (codec: Codec, summaryPrefix: string, checkpointEvery: u64)
      ensures this.codec == codec && this.summaryPrefix == summaryPrefix
      ensures this.checkpointEvery == Max(checkpointEvery, 1)
      ensures disk == Disk(None, None, None) && log == [] && crashPoints == iset{}
    {
      this.codec := codec;
      this.summaryPrefix := summaryPrefix;
      this.checkpointEvery := Max(checkpointEvery, 1);
      disk := Disk(None, None, None);
      log := [];
      crashPoints := iset{};
    }

    /** The disk holds exactly the log, and every disk a past crash could have left was recoverable. */
    ghost predicate Intact()
      reads this
    {
      && Faithful(codec) && checkpointEvery >= 1
      && disk.events == Some(LogBytes(codec, log))
      && Recoverable(codec, disk, log)
      && forall p | p in crashPoints :: Recoverable(codec, p.disk, p.log)
    }

    /** The state is what the log replays to. */
    ghost predicate Tracks(state: SessionState)
      reads this, state
    {
      && Intact()
      && Durable(state.View()) == Replay(log)
      && state.meta.lastSnapshotSeq <= state.meta.lastSeq
    }

    // ---- single disk steps ----

    method AppendEventLine(line: EventLine)
      modifies this`disk, this`log, this`crashPoints
      ensures disk == old(disk).(events := Some(old(EventBytes(disk)) + codec.encode(line) + [LF]))
      ensures log == old(log) + [line]
      ensures old(EventBytes(disk)) == LogBytes(codec, old(log)) ==> EventBytes(disk) == LogBytes(codec, log)
      ensures crashPoints == old(crashPoints) + AppendCrashPoints(codec, old(disk), old(log), line)
      ensures old(Intact()) && LastSeq(old(log)) < line.seqNo && line.schemaVersion <= SESSION_SCHEMA_VERSION ==>
        Intact()
    {
      LogBytesPush(codec, log, line);
      if Intact() && LastSeq(log) < line.seqNo && line.schemaVersion <= SESSION_SCHEMA_VERSION {
        forall p | p in AppendCrashPoints(codec, disk, log, line) ensures Recoverable(codec, p.disk, p.log) {
          AppendIsCrashSafe(codec, disk, log, line, p);
        }
        WholeFile(codec, log + [line]);
        LongerRecoverable(codec, disk, log, line, LogBytes(codec, log + [line]));
      }
      crashPoints := crashPoints + AppendCrashPoints(codec, disk, log, line);
      disk := disk.(events := Some(EventBytes(disk) + codec.encode(line) + [LF]));
      log := log + [line];
    }

    method WriteMeta(meta: Meta)
      modifies this`disk, this`crashPoints
      ensures disk == old(disk).(meta := Some(meta))
      ensures crashPoints == old(crashPoints) + iset{CrashPoint(disk, log)}
      ensures old(Intact()) ==> Intact()
    {
      disk := disk.(meta := Some(meta));
      crashPoints := crashPoints + iset{CrashPoint(disk, log)};
    }

    method WriteSnapshot(state: SessionState)
      modifies this`disk, this`crashPoints
      ensures disk == old(disk).(snapshot := Some(Snapshot(SESSION_SCHEMA_VERSION, state.View())))
      ensures crashPoints == old(crashPoints) + iset{CrashPoint(disk, log)}
      ensures old(Intact()) && SnapshotOf(disk.snapshot.value, log) ==> Intact()
    {
      var s := State(state.meta, state.messages, state.messageIds, state.contextCheckpoint);
      disk := disk.(snapshot := Some(Snapshot(SESSION_SCHEMA_VERSION, s)));
      crashPoints := crashPoints + iset{CrashPoint(disk, log)};
    }

    // ---- recording ----

    method Checkpoint(state: SessionState)
      requires |state.messages| == |state.messageIds|
      modifies this`disk, this`crashPoints, state
      ensures state.View() == MarkSnapshot(old(state.View()))
      ensures disk
           == old(disk).(snapshot := Some(Snapshot(SESSION_SCHEMA_VERSION, state.View())), meta := Some(state.meta))
      ensures crashPoints
           == old(crashPoints) + iset{CrashPoint(old(disk).(snapshot := disk.snapshot), log), CrashPoint(disk, log)}
      ensures old(Tracks(state)) ==> Tracks(state)
    {
      state.meta := state.meta.(lastSnapshotSeq := state.meta.lastSeq);
      if old(Tracks(state)) {
        FreshSnapshot(state.View(), log);
      }
      WriteSnapshot(state);
      WriteMeta(state.meta);
    }

    /** The first half of recording: the event reaches the log, then the state. */
    method AppendAndApply(state: SessionState, line: EventLine, now: string)
      requires |state.messages| == |state.messageIds|
      requires line.seqNo == state.meta.lastSeq + 1 && line.schemaVersion == SESSION_SCHEMA_VERSION
      modifies this`disk, this`log, this`crashPoints, state
      ensures state.View() == Apply(old(state.View()), line, now)
      ensures disk == old(disk).(events := Some(old(EventBytes(disk)) + codec.encode(line) + [LF]))
      ensures log == old(log) + [line]
      ensures crashPoints == old(crashPoints) + AppendCrashPoints(codec, old(disk), old(log), line)
      ensures old(Tracks(state)) ==> Tracks(state)
    {
      ghost var s := state.View();
      if Tracks(state) {
        NextSeq(s, log);
        RecordedState(s, log, line, now);
      }
      SnapshotMarkKept(s, line, now);
      AppendEventLine(line);
      assert state.View() == s;
      state.ApplyEvent(line, now);
    }

    /** Appends, applies, writes the meta file, and checkpoints when enough events have passed. The file is appended to
        as it is; only when it held exactly the log is the session sure to load again. */
    method RecordEvent(state: SessionState, event: Event, tsMs: u64, now: string)
      requires |state.messages| == |state.messageIds| && state.meta.lastSeq < U64_MAX
      modifies this`disk, this`log, this`crashPoints, state
      ensures log == old(log) + [EventLine(SESSION_SCHEMA_VERSION, old(state.meta.lastSeq) + 1, tsMs, event)]
      ensures var line, due := log[|log| - 1], state.meta.lastSeq - old(state.meta.lastSnapshotSeq) >= checkpointEvery;
        var applied := Apply(old(state.View()), line, now);
        var bytes := old(EventBytes(disk)) + codec.encode(line) + [LF];
        var recorded := Disk(Some(bytes), Some(applied.meta), old(disk.snapshot));
        var snapshot := Some(Snapshot(SESSION_SCHEMA_VERSION, state.View()));
        && state.View() == (if due then MarkSnapshot(applied) else applied)
        && disk == (if due then recorded.(snapshot := snapshot, meta := Some(state.meta)) else recorded)
        && crashPoints == old(crashPoints) + AppendCrashPoints(codec, old(disk), old(log), line)
             + iset{CrashPoint(recorded, log)}
             + (if due then iset{CrashPoint(recorded.(snapshot := snapshot), log), CrashPoint(disk, log)} else iset{})
      ensures old(Tracks(state)) ==>
        && Tracks(state)
        && state.meta.lastSeq == old(state.meta.lastSeq) + 1
        && 0 <= state.meta.lastSeq - state.meta.lastSnapshotSeq < checkpointEvery
        && StateInvariant(state.View()) && (CheckpointsLive(log) ==> BaseLive(state.View()))
    {
      var line := EventLine(SESSION_SCHEMA_VERSION, state.meta.lastSeq + 1, tsMs, event);
      SnapshotMarkKept(state.View(), line, now);
      AppendAndApply(state, line, now);
      WriteMeta(state.meta);
      if state.meta.lastSeq - state.meta.lastSnapshotSeq >= checkpointEvery {
        Checkpoint(state);
      }
      if old(Tracks(state)) {
        TrackedState(state.View(), log);
      }
    }

    /** Appends one message event per initial message. */
    method SeedEvents(initial: seq<Message>, tsMs: u64)
      requires Faithful(codec) && |initial| <= U64_MAX && disk.events.None? && log == []
      modifies this`disk, this`log, this`crashPoints
      ensures log == SeedLog(initial, tsMs)
      ensures disk == old(disk).(events := Some(LogBytes(codec, log)))
    {
      hide SeedLog, AppendCrashPoints, Recoverable;
      ghost var full := SeedLog(initial, tsMs);
      for i := 0 to |initial|
        invariant |full| == |initial| && log == full[..i]
        invariant disk == if i == 0 then old(disk) else old(disk).(events := Some(LogBytes(codec, log)))
      {
        SeedAt(initial, tsMs, i);
        AppendEventLine(EventLine(SESSION_SCHEMA_VERSION, i + 1, tsMs, MessageAdded(initial[i])));
      }
      if disk.events.None? {
        disk := disk.(events := Some([]));
      }
    }

    /** Seeds the log with the initial messages and writes the first meta and snapshot. */
    method Create(initial: seq<Message>, tsMs: u64) returns (state: SessionState)
      requires Faithful(codec) && checkpointEvery >= 1 && |initial| <= U64_MAX
      requires disk == Disk(None, None, None) && log == []
      modifies this`disk, this`log, this`crashPoints
      ensures fresh(state) && Tracks(state)
      ensures state.View() == Seeded(initial)
      ensures log == SeedLog(initial, tsMs)
      ensures disk.meta == Some(state.meta)
    {
      SeedEvents(initial, tsMs);
      var ids: seq<u64> := seq(|initial|, i requires 0 <= i < |initial| => i + 1);
      state := new SessionState(Meta(|initial|, |initial|, |initial|, None, None, None), initial, ids, None);
      SeededDisk(codec, initial, tsMs);
      WriteMeta(state.meta);
      WriteSnapshot(state);
      // Crash safety is promised from the finished creation on.
      crashPoints := iset{CrashPoint(disk, log)};
    }

    // ---- loading ----

    method ReplayEventsAfterSnapshot(state: SessionState, clock: Clock) returns (failed: Option<SessionError>)
      requires |state.messages| == |state.messageIds|
      modifies state
      ensures var r := ReplayBytes(codec, EventBytes(disk), old(state.View()), old(state.meta.lastSnapshotSeq), clock);
        if r.Success? then failed == None && state.View() == r.value else failed == Some(r.error)
    {
      failed := None;
      if disk.events.None? {
        return;
      }
      var rest := disk.events.value;
      var snapshotSeq := state.meta.lastSnapshotSeq;
      ghost var target := ReplayBytes(codec, rest, state.View(), snapshotSeq, clock);
      while rest != []
        invariant failed.None? && |state.messages| == |state.messageIds|
        invariant ReplayBytes(codec, rest, state.View(), snapshotSeq, clock) == target
        decreases |rest|
      {
        var k := FirstNewline(rest);
        var raw, terminated := rest[..k], k < |rest|;
        rest := if terminated then rest[k + 1..] else [];
        if !codec.wholeText(raw) {
          return Some(Io);
        }
        var parsed := codec.parse(raw);
        if parsed.Malformed? {
          return if terminated then Some(Deserialize) else None;
        }
        if parsed.Parsed? {
          if parsed.line.schemaVersion > SESSION_SCHEMA_VERSION {
            return Some(UnsupportedSchema(parsed.line.schemaVersion));
          }
          if parsed.line.seqNo > snapshotSeq {
            state.ApplyEvent(parsed.line, clock(parsed.line.seqNo));
          }
        }
      }
    }

    /** Rebuilds the state from the snapshot and the log; a snapshot with mismatched ids is replaced on disk. */
    method Load(clock: Clock) returns (r: Result<SessionState, SessionError>)
      modifies this`disk, this`crashPoints
      ensures var expected := LoadResult(codec, old(disk), clock);
        && (expected.Failure? ==> r == Failure(expected.error) && disk == old(disk))
        && (expected.Success? ==> r.Success? && fresh(r.value) && r.value.View() == expected.value)
      ensures r.Success? ==>
        var s, sn := r.value, old(disk.snapshot);
        disk == if |sn.value.state.messages| == |sn.value.state.messageIds| then old(disk)
                else old(disk).(snapshot := Some(Snapshot(SESSION_SCHEMA_VERSION, s.View())), meta := Some(s.meta))
      ensures old(Intact()) ==> r.Success? && Tracks(r.value)
      ensures old(Intact()) ==> StateInvariant(r.value.View()) && (CheckpointsLive(log) ==> BaseLive(r.value.View()))
    {
      if Intact() {
        IntactLoad(codec, disk, log, clock);
        TrackedState(LoadResult(codec, disk, clock).value, log);
      }
      if disk.snapshot.None? {
        return Failure(NotFound);
      }
      var snapshot := disk.snapshot.value;
      if snapshot.schemaVersion > SESSION_SCHEMA_VERSION {
        return Failure(UnsupportedSchema(snapshot.schemaVersion));
      }
      var s := snapshot.state;
      if |s.messages| != |s.messageIds| {
        var rebuilt := new SessionState(Meta(0, 0, 0, None, None, None), [], [], None);
        var failed := ReplayEventsAfterSnapshot(rebuilt, clock);
        if failed.Some? {
          return Failure(failed.value);
        }
        rebuilt.meta := rebuilt.meta.(lastSnapshotSeq := rebuilt.meta.lastSeq);
        WriteSnapshot(rebuilt);
        WriteMeta(rebuilt.meta);
        return Success(rebuilt);
      }
      var state := new SessionState(s.meta, s.messages, s.messageIds, s.contextCheckpoint);
      var failed := ReplayEventsAfterSnapshot(state, clock);
      if failed.Some? {
        return Failure(failed.value);
      }
      return Success(state);
    }

    // ---- paging ----

    /** Handles the complete lines at the end of a block, last one first; what precedes them is carried over. */
    method ScanBlock(q: Query, scan: PageScan, ghost head: seq<byte>, data: seq<byte>)
      returns (failed: Option<SessionError>, carry: seq<byte>)
      requires Faithful(codec) && |scan.collected| <= q.limit
      modifies scan
      ensures LF !in carry
      ensures ScanBytes(codec, q, old(scan.View()), head + data)
           == if failed.Some? then Failure(failed.value) else ScanBytes(codec, q, scan.View(), head + carry)
    {
      failed, carry := None, [];
      var rest := data;
      ghost var target := ScanBytes(codec, q, scan.View(), head + data);
      while true
        invariant failed.None? && carry == [] && |scan.collected| <= q.limit
        invariant ScanBytes(codec, q, scan.View(), head + rest) == target
        decreases |rest|
      {
        var start := LastLineStart(rest);
        if start == 0 {
          assert rest[0..] == rest;
          return None, rest;
        }
        BlockStep(codec, q, scan.View(), head, rest);
        failed := scan.HandleRaw(codec, q, rest[start..]);
        if failed.Some? {
          return;
        }
        rest := rest[..start - 1];
        if rest != [] && rest[|rest| - 1] == CR {
          StripEnding(codec, q, scan.View(), head, rest);
          rest := rest[..|rest| - 1];
        }
        if |scan.collected| > q.limit {
          return;
        }
      }
    }

    /** Reads the file backwards in blocks, keeping the unfinished first line of each block for the next one. */
    method ScanBlocks(q: Query, scan: PageScan, file: seq<byte>, blockBytes: nat)
      returns (failed: Option<SessionError>, carry: seq<byte>)
      requires Faithful(codec) && blockBytes >= 1
      modifies scan
      ensures LF !in carry
      ensures ScanBytes(codec, q, old(scan.View()), file)
           == if failed.Some? then Failure(failed.value) else ScanBytes(codec, q, scan.View(), carry)
    {
      failed, carry := None, [];
      var pos := |file|;
      ghost var target := ScanBytes(codec, q, scan.View(), file);
      assert file[..|file|] + carry == file;
      while pos > 0 && |scan.collected| <= q.limit
        invariant failed.None? && 0 <= pos <= |file| && LF !in carry && (pos == |file| ==> carry == [])
        invariant ScanBytes(codec, q, scan.View(), file[..pos] + carry) == target
      {
        var readLen := if pos < blockBytes then pos else blockBytes;
        pos := pos - readLen;
        var data := file[pos..pos + readLen] + carry;
        NextBlock(file, pos, readLen, carry);
        if pos + readLen == |file| {
          data := StripEndings(q, scan, file[..pos], data);
        }
        failed, carry := ScanBlock(q, scan, file[..pos], data);
        if failed.Some? {
          return;
        }
      }
      assert pos == 0 ==> file[..pos] + carry == carry;
    }

    method ScanFile(q: Query, scan: PageScan, file: seq<byte>, blockBytes: nat) returns (failed: Option<SessionError>)
      requires Faithful(codec) && blockBytes >= 1
      modifies scan
      ensures ScanBytes(codec, q, old(scan.View()), file)
           == if failed.Some? then Failure(failed.value) else Success(scan.View())
    {
      var carry;
      failed, carry := ScanBlocks(q, scan, file, blockBytes);
      if failed.None? && |scan.collected| <= q.limit {
        LastCarry(codec, q, scan.View(), carry);
        if carry != [] {
          failed := scan.HandleRaw(codec, q, carry);
        }
      }
    }

    /** Drops the line endings at the end of the file's last block. */
    method StripEndings(q: Query, scan: PageScan, ghost head: seq<byte>, block: seq<byte>) returns (data: seq<byte>)
      requires Faithful(codec)
      ensures ScanBytes(codec, q, scan.View(), head + data) == ScanBytes(codec, q, scan.View(), head + block)
      ensures data <= block && (data == [] || (data[|data| - 1] != LF && data[|data| - 1] != CR))
    {
      data := block;
      while data != [] && (data[|data| - 1] == LF || data[|data| - 1] == CR)
        invariant data <= block
        invariant ScanBytes(codec, q, scan.View(), head + data) == ScanBytes(codec, q, scan.View(), head + block)
      {
        StripEnding(codec, q, scan.View(), head, data);
        data := data[..|data| - 1];
      }
    }

    method ReadMessagePage(limit: nat, before: Option<u64>, blockBytes: nat) returns (r: Result<Page, SessionError>)
      requires Faithful(codec) && blockBytes >= 1
      ensures var below, most := if before.Some? then before.value else U64_MAX, if limit == 0 then 1 else limit;
        r == if disk.meta.None? then Failure(NotFound)
             else if disk.events.None? then Success(Page([], None))
             else PageOfFile(codec, Query(summaryPrefix, below, most), disk.events.value)
      ensures Intact() && disk.meta.Some? && Harmless(summaryPrefix, log) ==>
        var most := if limit == 0 then 1 else limit;
        r.Success? && NewestOf(r.value, ShownBelow(summaryPrefix, LiveEntries(log), before), most)
    {
      hide FileHolds, SnapshotOf, LiveEntries, ShownBelow, NewestOf, ReplayedPage, ScanBytes, Harmless;
      var q := Query(summaryPrefix, if before.Some? then before.value else U64_MAX, if limit == 0 then 1 else limit);
      if Intact() && Harmless(summaryPrefix, log) {
        PageRefinesReplay(codec, q, log);
        ReplayedPageIsNewest(q, log, before);
      }
      if disk.meta.None? {
        return Failure(NotFound);
      }
      if disk.events.None? {
        return Success(Page([], None));
      }
      var scan := new PageScan();
      var failed := ScanFile(q, scan, disk.events.value, blockBytes);
      if failed.Some? {
        return Failure(failed.value);
      }
      var collected := scan.collected;
      var hasOlder := |collected| > q.limit;
      if hasOlder {
        collected := collected[..q.limit];
      }
      collected := Sequences.Reversed(collected);
      return Success(Page(collected, if hasOlder then Some(collected[0].seqNo) else None));
    }
  }
}
