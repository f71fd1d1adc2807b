/** The backward page reader against forward replay: when they agree, and how pages cover a history. */
module PageRefinement {
  import opened Wrappers
  import opened Protocol
  import opened SessionModel
  import opened EventLog
  import opened Summaries
  import opened MessagePages

  /** The page read from a file. */
  ghost function PageOfFile(c: Codec, q: Query, bytes: seq<byte>): Result<Page, SessionError> {
    var r := ScanBytes(c, q, NOTHING_SCANNED, bytes);
    if r.Success? then Success(FinishPage(q, r.value)) else Failure(r.error)
  }

  /** The page the replayed history calls for. */
  ghost function ReplayedPage(q: Query, log: seq<EventLine>): Page
    requires q.limit > 0
  {
    LastPage(VisibleBefore(q, LiveEntries(log)), q.limit)
  }

  // ---- forward replay, one event at a time ----

  lemma {:induction false} RecordedAtKept(log: seq<EventLine>, id: u64)
    requires log != [] && log[|log| - 1].seqNo != id
    ensures RecordedAt(log, id) == RecordedAt(log[..|log| - 1], id)
  {
  }

  lemma {:induction false} LiveEntriesOlder(log: seq<EventLine>, seqNo: u64)
    requires Increasing(log) && LastSeq(log) < seqNo
    ensures Older(LiveEntries(log), seqNo)
  {
    ReplayInvariant(log);
  }

  lemma {:induction false} LiveMessage(log: seq<EventLine>)
    requires log != [] && Increasing(log) && log[|log| - 1].event.MessageAdded?
    ensures var line := log[|log| - 1];
      LiveEntries(log) == LiveEntries(log[..|log| - 1]) + [Entry(line.seqNo, line.tsMs, line.event.message)]
  {
    var init, line := log[..|log| - 1], log[|log| - 1];
    LiveEntriesOlder(init, line.seqNo);
    var older, all := LiveEntries(init), LiveEntries(log);
    forall i | 0 <= i < |older| ensures all[i] == older[i] {
      assert older[i].seqNo < line.seqNo;
      RecordedAtKept(log, older[i].seqNo);
    }
  }

  lemma {:induction false} LiveEdit(log: seq<EventLine>)
    requires log != [] && Increasing(log) && log[|log| - 1].event.MessageEdit?
    ensures var line := log[|log| - 1];
      LiveEntries(log) == Edited(LiveEntries(log[..|log| - 1]), line.event.messageId, line.event.edited)
  {
    var init, line := log[..|log| - 1], log[|log| - 1];
    LiveEntriesOlder(init, line.seqNo);
    ReplayInvariant(init);
    var older, all := LiveEntries(init), LiveEntries(log);
    var at := IndexOf(Replay(init).messageIds, line.event.messageId);
    forall i | 0 <= i < |older|
      ensures all[i] == Edited(older, line.event.messageId, line.event.edited)[i]
    {
      assert older[i].seqNo < line.seqNo && (older[i].seqNo == line.event.messageId <==> i == at);
      RecordedAtKept(log, older[i].seqNo);
    }
  }

  lemma {:induction false} UpToPrefix(entries: seq<Entry>, k: nat, id: u64)
    requires k <= |entries|
    requires forall i | 0 <= i < |entries| :: entries[i].seqNo <= id <==> i < k
    ensures UpTo(entries, id) == entries[..k]
  {
    if entries != [] {
      var init := entries[..|entries| - 1];
      UpToPrefix(init, if k < |entries| then k else |init|, id);
    }
  }

  lemma {:induction false} KeptIds(log: seq<EventLine>, id: u64)
    requires Increasing(log) && id in Replay(log).messageIds
    ensures var entries := LiveEntries(log);
      forall i | 0 <= i < |entries| :: entries[i].seqNo <= id <==> i < IndexOf(Replay(log).messageIds, id) + 1
  {
    ReplayInvariant(log);
  }

  lemma {:induction false} LiveTruncate(log: seq<EventLine>)
    requires log != [] && Increasing(log) && log[|log| - 1].event.TruncateAfter?
    ensures var init, id := log[..|log| - 1], log[|log| - 1].event.lastKept;
      LiveEntries(log) == if id in Replay(init).messageIds then UpTo(LiveEntries(init), id) else LiveEntries(init)
  {
    var init, line := log[..|log| - 1], log[|log| - 1];
    LiveEntriesOlder(init, line.seqNo);
    var older, all, ids := LiveEntries(init), LiveEntries(log), Replay(init).messageIds;
    var kept := |all|;
    forall i | 0 <= i < kept ensures all[i] == older[i] {
      assert older[i].seqNo < line.seqNo;
      RecordedAtKept(log, older[i].seqNo);
    }
    assert all == older[..kept];
    if line.event.lastKept in ids {
      KeptIds(init, line.event.lastKept);
      UpToPrefix(older, kept, line.event.lastKept);
    }
  }

  lemma {:induction false} LiveOther(log: seq<EventLine>)
    requires log != [] && Increasing(log)
    requires var e := log[|log| - 1].event; !e.MessageAdded? && !e.MessageEdit? && !e.TruncateAfter?
    ensures LiveEntries(log) == LiveEntries(log[..|log| - 1])
  {
    var init, line := log[..|log| - 1], log[|log| - 1];
    LiveEntriesOlder(init, line.seqNo);
    assert Replay(log).messages == Replay(init).messages && Replay(log).messageIds == Replay(init).messageIds;
    forall i | 0 <= i < |LiveEntries(init)| ensures LiveEntries(log)[i] == LiveEntries(init)[i] {
      assert LiveEntries(init)[i].seqNo < line.seqNo;
    }
  }

  // ---- what a truncation that names no live message does to the backward scan ----

  /** A later truncation names a number below `seqNo`, whether or not that number was live. */
  ghost predicate CutLater(log: seq<EventLine>, seqNo: u64) {
    exists k | 0 <= k < |log| :: log[k].event.TruncateAfter? && log[k].event.lastKept < seqNo < log[k].seqNo
  }

  ghost function Spared(entries: seq<Entry>, log: seq<EventLine>): seq<Entry> {
    if entries == [] then []
    else
      var e := entries[|entries| - 1];
      Spared(entries[..|entries| - 1], log) + (if CutLater(log, e.seqNo) then [] else [e])
  }

  lemma {:induction false} CutLaterStep(log: seq<EventLine>, seqNo: u64)
    requires log != []
    ensures var line := log[|log| - 1];
      CutLater(log, seqNo) <==>
        || CutLater(log[..|log| - 1], seqNo)
        || (line.event.TruncateAfter? && line.event.lastKept < seqNo < line.seqNo)
  {
    var init, line := log[..|log| - 1], log[|log| - 1];
    if CutLater(init, seqNo) {
      var k :| 0 <= k < |init| && init[k].event.TruncateAfter? && init[k].event.lastKept < seqNo < init[k].seqNo;
      assert log[k] == init[k];
    }
    if CutLater(log, seqNo) && !(line.event.TruncateAfter? && line.event.lastKept < seqNo < line.seqNo) {
      var k :| 0 <= k < |log| && log[k].event.TruncateAfter? && log[k].event.lastKept < seqNo < log[k].seqNo;
      assert init[k] == log[k];
    }
  }

  lemma {:induction false} SparedStep(entries: seq<Entry>, log: seq<EventLine>)
    requires log != [] && Older(entries, log[|log| - 1].seqNo)
    ensures var init, line := log[..|log| - 1], log[|log| - 1];
      Spared(entries, log) ==
        if line.event.TruncateAfter? then UpTo(Spared(entries, init), line.event.lastKept) else Spared(entries, init)
  {
    if entries != [] {
      var init, line, e := log[..|log| - 1], log[|log| - 1], entries[|entries| - 1];
      SparedStep(entries[..|entries| - 1], log);
      CutLaterStep(log, e.seqNo);
      var rest := Spared(entries[..|entries| - 1], init);
      if !CutLater(init, e.seqNo) {
        assert (rest + [e])[..|rest|] == rest;
      } else {
        assert rest + [] == rest;
      }
    }
  }

  lemma {:induction false} SparedUpTo(entries: seq<Entry>, log: seq<EventLine>)
    requires log != [] && log[|log| - 1].event.TruncateAfter? && Older(entries, log[|log| - 1].seqNo)
    ensures Spared(UpTo(entries, log[|log| - 1].event.lastKept), log) == Spared(entries, log)
  {
    if entries != [] {
      var init, e, id := entries[..|entries| - 1], entries[|entries| - 1], log[|log| - 1].event.lastKept;
      SparedUpTo(init, log);
      CutLaterStep(log, e.seqNo);
      if e.seqNo <= id {
        assert (UpTo(init, id) + [e])[..|UpTo(init, id)|] == UpTo(init, id);
      } else {
        assert UpTo(init, id) + [] == UpTo(init, id);
      }
    }
  }

  lemma {:induction false} SparedEdited(entries: seq<Entry>, log: seq<EventLine>, id: u64, message: Message)
    ensures Spared(Edited(entries, id, message), log) == Edited(Spared(entries, log), id, message)
  {
    if entries != [] {
      var init := entries[..|entries| - 1];
      SparedEdited(init, log, id, message);
      var edited := Edited(entries, id, message);
      assert edited[..|edited| - 1] == Edited(init, id, message);
    }
  }

  lemma {:induction false} SparedPush(entries: seq<Entry>, e: Entry, log: seq<EventLine>)
    requires !CutLater(log, e.seqNo)
    ensures Spared(entries + [e], log) == Spared(entries, log) + [e]
  {
    assert (entries + [e])[..|entries|] == entries;
  }

  /** The history the backward scan sees is the replayed one without what some later truncation cuts by number. */
  lemma {:induction false} CutIsSparedLive(log: seq<EventLine>)
    requires Increasing(log)
    ensures CutEntries(log) == Spared(LiveEntries(log), log)
  {
    if log != [] {
      var init, line := log[..|log| - 1], log[|log| - 1];
      var older := LiveEntries(init);
      CutIsSparedLive(init);
      LiveEntriesOlder(init, line.seqNo);
      SparedStep(older, log);
      match line.event
      case MessageAdded(message) =>
        LiveMessage(log);
        SparedPush(older, Entry(line.seqNo, line.tsMs, message), log);
      case MessageEdit(id, message) =>
        LiveEdit(log);
        SparedEdited(older, log, id, message);
      case TruncateAfter(_) =>
        LiveTruncate(log);
        SparedUpTo(older, log);
      case _ => LiveOther(log);
    }
  }

  // ---- the page theorem ----

  /** No truncation cuts, by number, below a message the replayed history still shows. */
  ghost predicate Harmless(prefix: string, log: seq<EventLine>) {
    forall e | e in LiveEntries(log) && IsDisplayMessage(prefix, e.message) :: !CutLater(log, e.seqNo)
  }

  /** Every truncation names a message that was live when it was recorded. */
  ghost predicate TruncationsLive(log: seq<EventLine>) {
    forall k | 0 <= k < |log| && log[k].event.TruncateAfter? :: log[k].event.lastKept in Replay(log[..k]).messageIds
  }

  lemma {:induction false} InSpared(entries: seq<Entry>, log: seq<EventLine>, e: Entry)
    ensures e in Spared(entries, log) <==> e in entries && !CutLater(log, e.seqNo)
  {
    if entries != [] {
      InSpared(entries[..|entries| - 1], log, e);
      assert entries == entries[..|entries| - 1] + [entries[|entries| - 1]];
    }
  }

  lemma {:induction false} InVisible(q: Query, entries: seq<Entry>, e: Entry)
    ensures e in VisibleBefore(q, entries)
       <==> e in entries && e.seqNo < q.before && IsDisplayMessage(q.summaryPrefix, e.message)
  {
    if entries != [] {
      InVisible(q, entries[..|entries| - 1], e);
      assert entries == entries[..|entries| - 1] + [entries[|entries| - 1]];
    }
  }

  lemma {:induction false} SparedVisible(q: Query, entries: seq<Entry>, log: seq<EventLine>)
    requires forall e | e in entries && IsDisplayMessage(q.summaryPrefix, e.message) :: !CutLater(log, e.seqNo)
    ensures VisibleBefore(q, Spared(entries, log)) == VisibleBefore(q, entries)
  {
    if entries != [] {
      var init, e := entries[..|entries| - 1], entries[|entries| - 1];
      assert entries == init + [e];
      SparedVisible(q, init, log);
      var rest := Spared(init, log);
      assert (rest + [e])[..|rest|] == rest && rest + [] == rest;
    }
  }

  lemma {:induction false} FilePage(c: Codec, q: Query, log: seq<EventLine>)
    requires Faithful(c) && SupportedSchema(log) && Increasing(log) && q.limit > 0
    ensures PageOfFile(c, q, LogBytes(c, log))
         == Success(LastPage(VisibleBefore(q, Spared(LiveEntries(log), log)), q.limit))
  {
    ScanLogBytes(c, q, NOTHING_SCANNED, log);
    ScanLogPage(q, log);
    CutIsSparedLive(log);
  }

  /** The page read backwards, block by block, with an early exit, is the page of the replayed history. */
  lemma {:induction false} PageRefinesReplay(c: Codec, q: Query, log: seq<EventLine>)
    requires Faithful(c) && SupportedSchema(log) && Increasing(log) && q.limit > 0
    requires Harmless(q.summaryPrefix, log)
    ensures PageOfFile(c, q, LogBytes(c, log)) == Success(ReplayedPage(q, log))
  {
    FilePage(c, q, log);
    SparedVisible(q, LiveEntries(log), log);
  }

  ghost predicate AllPagesAgree(c: Codec, prefix: string, log: seq<EventLine>) {
    forall before, limit: nat | limit > 0 ::
      PageOfFile(c, Query(prefix, before, limit), LogBytes(c, log))
      == Success(ReplayedPage(Query(prefix, before, limit), log))
  }

  lemma {:induction false} SameVisible(p: Query, q: Query, entries: seq<Entry>)
    requires p.summaryPrefix == q.summaryPrefix && p.before == q.before
    ensures VisibleBefore(p, entries) == VisibleBefore(q, entries)
  {
    if entries != [] {
      SameVisible(p, q, entries[..|entries| - 1]);
    }
  }

  /** A page large enough for both histories shows that they are the same. */
  lemma {:induction false} AgreementShowsAll(c: Codec, prefix: string, log: seq<EventLine>) returns (q: Query)
    requires Faithful(c) && SupportedSchema(log) && Increasing(log) && AllPagesAgree(c, prefix, log)
    ensures q.summaryPrefix == prefix && q.before == U64_MAX
    ensures VisibleBefore(q, LiveEntries(log)) == VisibleBefore(q, Spared(LiveEntries(log), log))
  {
    hide LiveEntries, VisibleBefore, Spared, PageOfFile, LogBytes, Faithful, SupportedSchema, Increasing;
    var live := LiveEntries(log);
    var spared, one := Spared(live, log), Query(prefix, U64_MAX, 1);
    q := Query(prefix, U64_MAX, |VisibleBefore(one, live)| + |VisibleBefore(one, spared)| + 1);
    SameVisible(one, q, live);
    SameVisible(one, q, spared);
    FilePage(c, q, log);
  }

  /** The two readers agree on every page exactly when every truncation is harmless. */
  lemma {:induction false} PagesAgreeIffHarmless(c: Codec, prefix: string, log: seq<EventLine>)
    requires Faithful(c) && SupportedSchema(log) && Increasing(log)
    ensures AllPagesAgree(c, prefix, log) <==> Harmless(prefix, log)
  {
    hide LiveEntries, VisibleBefore, Spared, PageOfFile, LogBytes, Faithful, SupportedSchema, Increasing, ReplayedPage,
      IsDisplayMessage;
    if Harmless(prefix, log) {
      forall before, limit: nat | limit > 0
        ensures PageOfFile(c, Query(prefix, before, limit), LogBytes(c, log))
             == Success(ReplayedPage(Query(prefix, before, limit), log))
      {
        PageRefinesReplay(c, Query(prefix, before, limit), log);
      }
    }
    if AllPagesAgree(c, prefix, log) {
      var live := LiveEntries(log);
      var q := AgreementShowsAll(c, prefix, log);
      forall e | e in live && IsDisplayMessage(prefix, e.message) ensures !CutLater(log, e.seqNo) {
        if CutLater(log, e.seqNo) {
          assert e.seqNo < U64_MAX;
          InVisible(q, live, e);
          InVisible(q, Spared(live, log), e);
          InSpared(live, log, e);
          assert false;
        }
      }
    }
  }

  lemma {:induction false} LiveIsCut(log: seq<EventLine>)
    requires Increasing(log) && TruncationsLive(log)
    ensures CutEntries(log) == LiveEntries(log)
  {
    if log != [] {
      var init, line := log[..|log| - 1], log[|log| - 1];
      assert forall k | 0 <= k < |init| :: init[..k] == log[..k];
      LiveIsCut(init);
      match line.event
      case MessageAdded(_) => LiveMessage(log);
      case MessageEdit(_, _) => LiveEdit(log);
      case TruncateAfter(_) => LiveTruncate(log);
      case _ => LiveOther(log);
    }
  }

  /** A truncation that names a live message is harmless, so with only such truncations every page is right. */
  lemma {:induction false} LiveTruncationsHarmless(prefix: string, log: seq<EventLine>)
    requires Increasing(log) && TruncationsLive(log)
    ensures Harmless(prefix, log)
  {
    CutIsSparedLive(log);
    LiveIsCut(log);
    forall e | e in LiveEntries(log) ensures !CutLater(log, e.seqNo) {
      InSpared(LiveEntries(log), log, e);
    }
  }

  lemma {:induction false} UnknownTruncationKeepsMessage(first: EventLine, second: EventLine, reply: Message)
    requires first.event == MessageAdded(reply) && second.event.TruncateAfter? && second.event.lastKept != first.seqNo
    ensures Replay([first, second]).messages == [reply]
  {
    assert [first, second][..1] == [first] && [first][..0] == [];
    assert Replay([first]) == Durable(Apply(EMPTY, first, ""));
    assert Replay([first, second]) == Durable(Apply(Replay([first]), second, ""));
  }

  lemma {:induction false} UnknownTruncationScan(q: Query, first: EventLine, second: EventLine)
    requires first.event.MessageAdded? && second.event == TruncateAfter(0) && first.seqNo > 0
    ensures ScanLog(q, NOTHING_SCANNED, [first, second]) == Scan(map[], Some(0), [])
  {
    var s := HandleLine(q, NOTHING_SCANNED, second);
    assert [first, second][..1] == [first] && [first][..0] == [];
    assert ScanLog(q, NOTHING_SCANNED, [first, second]) == ScanLog(q, s, [first]);
    assert ScanLog(q, s, [first]) == ScanLog(q, HandleLine(q, s, first), []);
  }

  /** A truncation naming no live message is ignored by replay, but the page reader hides every message above it. */
  lemma {:induction false} UnknownTruncationHidesHistory(c: Codec, prefix: string, reply: Message)
    requires Faithful(c) && reply.Assistant?
    ensures var log := [EventLine(4, 1, 0, MessageAdded(reply)), EventLine(4, 2, 0, TruncateAfter(0))];
      && Increasing(log) && SupportedSchema(log)
      && Replay(log).messages == [reply]
      && PageOfFile(c, Query(prefix, U64_MAX, 1), LogBytes(c, log)) == Success(Page([], None))
  {
    hide Faithful, LogBytes, ScanBytes, Replay, ScanLog, HandleLine;
    var first, second := EventLine(4, 1, 0, MessageAdded(reply)), EventLine(4, 2, 0, TruncateAfter(0));
    var log, q := [first, second], Query(prefix, U64_MAX, 1);
    UnknownTruncationKeepsMessage(first, second, reply);
    ScanLogBytes(c, q, NOTHING_SCANNED, log);
    UnknownTruncationScan(q, first, second);
  }

  lemma {:induction false} PageAfterTail(c: Codec, q: Query, log: seq<EventLine>, tail: seq<byte>)
    requires Faithful(c) && TornTail(c, tail)
    ensures var bytes := LogBytes(c, log) + tail;
      && bytes[LastLineStart(bytes)..] == tail
      && PageOfFile(c, q, bytes)
         == if c.parse(tail).Malformed? then Failure(Deserialize) else PageOfFile(c, q, LogBytes(c, log))
  {
    var before := LogBytes(c, log);
    LogBytesEnd(c, log);
    assert (before + tail)[|before|..] == tail;
    LastLineStartUnique(before + tail, |before|);
    if before == [] {
      assert before[0..] == [];
    } else {
      var short := before[..|before| - 1];
      assert (before + tail)[..|before| - 1] == short && short + [LF] == before;
      TrailingNewline(c, q, NOTHING_SCANNED, short);
    }
  }

  /** After a crash mid-append the page reader fails exactly when the last line is torn, which `load` tolerates. */
  lemma {:induction false} TornTailFailsPage(c: Codec, q: Query, bytes: seq<byte>, log: seq<EventLine>)
    requires Faithful(c) && FileHolds(c, bytes, log)
    ensures PageOfFile(c, q, bytes)
         == if c.parse(bytes[LastLineStart(bytes)..]).Malformed? then Failure(Deserialize)
            else PageOfFile(c, q, LogBytes(c, log))
  {
    if tail :| TornTail(c, tail) && bytes == LogBytes(c, log) + tail {
      PageAfterTail(c, q, log, tail);
    } else {
      var init, text := LogBytes(c, log[..|log| - 1]), c.encode(log[|log| - 1]);
      LogBytesEnd(c, log[..|log| - 1]);
      assert bytes[|init|..] == text;
      LastLineStartUnique(bytes, |init|);
      TrailingNewline(c, q, NOTHING_SCANNED, bytes);
    }
  }

  lemma {:induction false} MalformedTailFailsPage(c: Codec, q: Query, log: seq<EventLine>, tail: seq<byte>)
    requires LF !in tail && c.parse(tail).Malformed?
    ensures PageOfFile(c, q, LogBytes(c, log) + tail) == Failure(Deserialize)
  {
    var before := LogBytes(c, log);
    LogBytesEnd(c, log);
    assert (before + tail)[|before|..] == tail;
    LastLineStartUnique(before + tail, |before|);
  }

  /** Wherever an append stops, the page reader fails if and only if it wrote some of the line but not all of it. */
  lemma {:induction false} CutPageFailsIff(c: Codec, q: Query, log: seq<EventLine>, line: EventLine, k: nat)
    requires Faithful(c) && k <= |c.encode(line)| + 1
    ensures PageOfFile(c, q, LogBytes(c, log) + (c.encode(line) + [LF])[..k])
         == if 0 < k < |c.encode(line)| then Failure(Deserialize)
            else PageOfFile(c, q, LogBytes(c, if k == 0 then log else log + [line]))
  {
    var text, before, longer := c.encode(line), LogBytes(c, log), log + [line];
    var bytes := before + (text + [LF])[..k];
    assert longer[..|longer| - 1] == log;
    LogBytesEnd(c, log);
    if k == 0 {
      assert bytes == before;
    } else if k < |text| {
      assert (text + [LF])[..k] == text[..k];
      MalformedTailFailsPage(c, q, log, text[..k]);
    } else if k == |text| {
      assert bytes == before + text && bytes + [LF] == LogBytes(c, longer);
      TrailingNewline(c, q, NOTHING_SCANNED, bytes);
    } else {
      assert bytes == LogBytes(c, longer);
    }
  }

  // ---- paging through a whole history ----

  ghost predicate Ordered(entries: seq<Entry>) {
    forall i, j | 0 <= i < j < |entries| :: entries[i].seqNo < entries[j].seqNo
  }

  lemma {:induction false} SparedOrdered(entries: seq<Entry>, log: seq<EventLine>)
    requires Ordered(entries)
    ensures Ordered(Spared(entries, log))
  {
    if entries != [] {
      var init, e := entries[..|entries| - 1], entries[|entries| - 1];
      SparedOrdered(init, log);
      forall x | x in Spared(init, log) ensures x.seqNo < e.seqNo {
        InSpared(init, log, x);
      }
    }
  }

  lemma {:induction false} AllOlder(q: Query, older: Query, entries: seq<Entry>)
    requires older.summaryPrefix == q.summaryPrefix && older.before <= q.before && Older(entries, older.before)
    ensures VisibleBefore(older, entries) == VisibleBefore(q, entries)
  {
    if entries != [] {
      AllOlder(q, older, entries[..|entries| - 1]);
    }
  }

  /** The entries older than one on display are exactly those displayed before it. */
  lemma {:induction false} OlderPage(q: Query, entries: seq<Entry>, k: nat)
    requires Ordered(entries) && k < |VisibleBefore(q, entries)|
    ensures VisibleBefore(q.(before := VisibleBefore(q, entries)[k].seqNo), entries) == VisibleBefore(q, entries)[..k]
  {
    var init, e, all := entries[..|entries| - 1], entries[|entries| - 1], VisibleBefore(q, entries);
    var fewer := VisibleBefore(q, init);
    var older := q.(before := all[k].seqNo);
    if k < |fewer| {
      OlderPage(q, init, k);
      InVisible(q, init, fewer[k]);
      assert fewer[k].seqNo < e.seqNo;
    } else {
      AllOlder(q, older, init);
    }
  }

  lemma {:induction false} NextCursorOlder(c: Codec, q: Query, log: seq<EventLine>)
    requires Faithful(c) && SupportedSchema(log) && Increasing(log) && q.limit > 0
    ensures var r := PageOfFile(c, q, LogBytes(c, log));
      r.Success? && (r.value.nextBefore.Some? ==> r.value.nextBefore.value < q.before)
  {
    FilePage(c, q, log);
    var spared := Spared(LiveEntries(log), log);
    var visible := VisibleBefore(q, spared);
    if |visible| > q.limit {
      InVisible(q, spared, visible[|visible| - q.limit]);
    }
  }

  /** All pages read from the file, from a cursor back to the start, following `next_before`, oldest page first. */
  ghost function WalkPages(c: Codec, q: Query, log: seq<EventLine>): seq<Entry>
    requires Faithful(c) && SupportedSchema(log) && Increasing(log) && q.limit > 0
    decreases q.before
  {
    NextCursorOlder(c, q, log);
    var page := PageOfFile(c, q, LogBytes(c, log)).value;
    if page.nextBefore.None? then page.items
    else WalkPages(c, q.(before := page.nextBefore.value), log) + page.items
  }

  lemma {:induction false} LiveEntriesOrdered(log: seq<EventLine>)
    requires Increasing(log)
    ensures Ordered(LiveEntries(log))
  {
    ReplayInvariant(log);
  }

  /** Following the cursors terminates and yields once, in order, every displayable message the scan sees: those of the
      replayed history without what a later truncation cuts by number. */
  lemma {:induction false} PagesCoverScannedHistory(c: Codec, q: Query, log: seq<EventLine>)
    requires Faithful(c) && SupportedSchema(log) && Increasing(log) && q.limit > 0
    ensures WalkPages(c, q, log) == VisibleBefore(q, Spared(LiveEntries(log), log))
    decreases q.before
  {
    hide PageOfFile, LogBytes, Spared, LiveEntries, VisibleBefore, Faithful;
    var spared := Spared(LiveEntries(log), log);
    var visible := VisibleBefore(q, spared);
    FilePage(c, q, log);
    NextCursorOlder(c, q, log);
    if |visible| > q.limit {
      var k := |visible| - q.limit;
      LiveEntriesOrdered(log);
      SparedOrdered(LiveEntries(log), log);
      OlderPage(q, spared, k);
      PagesCoverScannedHistory(c, q.(before := visible[k].seqNo), log);
      assert visible == visible[..k] + visible[k..];
    }
  }

  /** With harmless truncations these are all visible messages of the replayed history. */
  lemma {:induction false} PagesCoverEverythingOnce(c: Codec, q: Query, log: seq<EventLine>)
    requires Faithful(c) && SupportedSchema(log) && Increasing(log) && q.limit > 0 && Harmless(q.summaryPrefix, log)
    ensures WalkPages(c, q, log) == VisibleBefore(q, LiveEntries(log))
  {
    PagesCoverScannedHistory(c, q, log);
    SparedVisible(q, LiveEntries(log), log);
  }

  // ---- pages as a caller asks for them ----

  /** What a user sees of some messages: not hidden, and neither instructions nor summaries. */
  ghost predicate Shown(prefix: string, m: Message) {
    match m
    case User(Text(text), hidden) => !hidden && !(prefix + "\n" <= text)
    case User(Parts(parts), hidden) =>
      !hidden && forall i | FirstTextAt(parts, i) :: !(prefix + "\n" <= parts[i].text)
    case Assistant(_, _, _, _, _) => true
    case Tool(_, _) => true
    case System(_) => false
    case Developer(_) => false
  }

  ghost predicate FirstTextAt(parts: seq<UserPart>, i: int) {
    0 <= i < |parts| && parts[i].TextPart? && forall j | 0 <= j < i :: !parts[j].TextPart?
  }

  lemma {:induction false} FirstTextIs(parts: seq<UserPart>)
    ensures FirstPartText(parts).None? ==> forall i :: !FirstTextAt(parts, i)
    ensures forall i | FirstTextAt(parts, i) :: FirstPartText(parts) == Some(parts[i].text)
    ensures FirstPartText(parts).Some? ==> exists i :: FirstTextAt(parts, i)
  {
    if parts != [] {
      if parts[0].TextPart? {
        assert FirstTextAt(parts, 0);
      } else {
        var rest := parts[1..];
        FirstTextIs(rest);
        forall i ensures FirstTextAt(parts, i) <==> FirstTextAt(rest, i - 1) {
          if FirstTextAt(parts, i) {
            assert forall j | 0 <= j < i - 1 :: rest[j] == parts[j + 1];
          }
          if FirstTextAt(rest, i - 1) {
            assert forall j | 0 < j < i :: parts[j] == rest[j - 1];
          }
        }
        if FirstPartText(rest).Some? {
          var i :| FirstTextAt(rest, i);
          assert FirstTextAt(parts, i + 1);
        }
      }
    }
  }

  lemma {:induction false} SummaryStart(prefix: string, text: string)
    ensures IsSummaryMessage(prefix, text) <==> prefix + "\n" <= text
  {
    var start := prefix + "\n";
    assert start[..|prefix|] == prefix && start[|prefix|] == '\n';
    if IsSummaryMessage(prefix, text) {
      assert text[..|start|] == start;
    }
    if start <= text {
      assert text[..|prefix|] == start[..|prefix|] && text[|prefix|] == start[|prefix|];
    }
  }

  /** The reader displays exactly what a user should see. */
  lemma {:induction false} DisplayedIffShown(prefix: string, m: Message)
    ensures IsDisplayMessage(prefix, m) <==> Shown(prefix, m)
  {
    if m.User? {
      if m.body.Text? {
        SummaryStart(prefix, m.body.text);
      } else {
        FirstTextIs(m.body.parts);
        forall i | FirstTextAt(m.body.parts, i)
          ensures IsSummaryMessage(prefix, m.body.parts[i].text) <==> prefix + "\n" <= m.body.parts[i].text
        {
          SummaryStart(prefix, m.body.parts[i].text);
        }
      }
    }
  }

  /** What is shown of a history, below a cursor if there is one; without one only the largest number is out of
      reach. */
  ghost function ShownBelow(prefix: string, entries: seq<Entry>, before: Option<u64>): seq<Entry> {
    if entries == [] then []
    else
      var e := entries[|entries| - 1];
      ShownBelow(prefix, entries[..|entries| - 1], before)
      + (if Shown(prefix, e.message) && (if before.Some? then e.seqNo < before.value else e.seqNo < U64_MAX) then [e]
         else [])
  }

  /** The page holds the newest entries, at most `most` of them; its cursor names the oldest one if there are others. */
  ghost predicate NewestOf(page: Page, shown: seq<Entry>, most: nat) {
    && |page.items| == (if |shown| < most then |shown| else most)
    && page.items == shown[|shown| - |page.items|..]
    && page.nextBefore == (if |shown| > most > 0 then Some(page.items[0].seqNo) else None)
  }

  lemma {:induction false} VisibleIsShown(q: Query, entries: seq<Entry>, before: Option<u64>)
    requires q.before == if before.Some? then before.value else U64_MAX
    ensures VisibleBefore(q, entries) == ShownBelow(q.summaryPrefix, entries, before)
  {
    if entries != [] {
      VisibleIsShown(q, entries[..|entries| - 1], before);
      DisplayedIffShown(q.summaryPrefix, entries[|entries| - 1].message);
    }
  }

  lemma {:induction false} ReplayedPageIsNewest(q: Query, log: seq<EventLine>, before: Option<u64>)
    requires q.limit > 0 && q.before == if before.Some? then before.value else U64_MAX
    ensures NewestOf(ReplayedPage(q, log), ShownBelow(q.summaryPrefix, LiveEntries(log), before), q.limit)
  {
    hide LiveEntries, VisibleBefore, ShownBelow;
    VisibleIsShown(q, LiveEntries(log), before);
    var shown := ShownBelow(q.summaryPrefix, LiveEntries(log), before);
    assert shown[0..] == shown;
  }

  /** Starting without a cursor and following the pages' cursors, a caller sees the whole shown history. */
  lemma {:induction false} PagesFromTheEnd(c: Codec, q: Query, log: seq<EventLine>)
    requires Faithful(c) && SupportedSchema(log) && Increasing(log) && Harmless(q.summaryPrefix, log)
    requires q.limit > 0 && q.before == U64_MAX
    ensures WalkPages(c, q, log) == ShownBelow(q.summaryPrefix, LiveEntries(log), None)
    ensures LastSeq(log) < U64_MAX ==>
      forall e | e in LiveEntries(log) && Shown(q.summaryPrefix, e.message) :: e in WalkPages(c, q, log)
  {
    PagesCoverEverythingOnce(c, q, log);
    VisibleIsShown(q, LiveEntries(log), None);
    if LastSeq(log) < U64_MAX {
      LiveEntriesOlder(log, U64_MAX);
      forall e | e in LiveEntries(log) && Shown(q.summaryPrefix, e.message) ensures e in WalkPages(c, q, log) {
        DisplayedIffShown(q.summaryPrefix, e.message);
        InVisible(q, LiveEntries(log), e);
      }
    }
  }
}
