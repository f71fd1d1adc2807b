/** Pages of the visible history, read from the events file backwards, and the replayed history they must match. */
module MessagePages {
  import opened Wrappers
  import opened Protocol
  import opened SessionModel
  import opened EventLog
  import opened Summaries
  import Sequences

  datatype Entry = Entry(seqNo: u64, tsMs: u64, message: Message)

  datatype Page = Page(items: seq<Entry>, nextBefore: Option<u64>)

  datatype Query = Query(summaryPrefix: string, before: u64, limit: nat)

  // ---- what a page should hold ----

  /** The live messages of a log with the time each was first recorded. */
  ghost function LiveEntries(log: seq<EventLine>): seq<Entry> {
    var s := Replay(log);
    seq(|s.messages|, i requires 0 <= i < |s.messages| =>
      Entry(s.messageIds[i], RecordedAt(log, s.messageIds[i]), s.messages[i]))
  }

  ghost function RecordedAt(log: seq<EventLine>, id: u64): u64 {
    if log == [] then 0
    else if log[|log| - 1].event.MessageAdded? && log[|log| - 1].seqNo == id then log[|log| - 1].tsMs
    else RecordedAt(log[..|log| - 1], id)
  }

  /** Displayable entries older than the cursor. */
  ghost function VisibleBefore(q: Query, entries: seq<Entry>): seq<Entry> {
    if entries == [] then []
    else
      var e := entries[|entries| - 1];
      VisibleBefore(q, entries[..|entries| - 1])
      + (if e.seqNo < q.before && IsDisplayMessage(q.summaryPrefix, e.message) then [e] else [])
  }

  /** The newest `limit` of the visible entries; the cursor to the rest names the oldest one returned. */
  ghost function LastPage(visible: seq<Entry>, limit: nat): Page
    requires limit > 0
  {
    if |visible| <= limit then Page(visible, None)
    else Page(visible[|visible| - limit..], Some(visible[|visible| - limit].seqNo))
  }

  // ---- the backward scan ----

  datatype Scan = Scan(latestEdits: map<u64, Message>, cutoff: Option<u64>, collected: seq<Entry>)

  const NOTHING_SCANNED := Scan(map[], None, [])

  predicate DeletedByLaterTruncate(id: u64, cutoff: Option<u64>) {
    cutoff.Some? && id > cutoff.value
  }

  function MinCutoff(cutoff: Option<u64>, id: u64): Option<u64> {
    if cutoff.Some? && cutoff.value < id then cutoff else Some(id)
  }

  function HandleLine(q: Query, s: Scan, line: EventLine): Scan {
    match line.event
    case TruncateAfter(id) => s.(cutoff := MinCutoff(s.cutoff, id))
    case MessageEdit(id, message) =>
      if id < q.before && !DeletedByLaterTruncate(id, s.cutoff) && id !in s.latestEdits
      then s.(latestEdits := s.latestEdits[id := message]) else s
    case MessageAdded(message) =>
      if |s.collected| > q.limit || line.seqNo >= q.before || DeletedByLaterTruncate(line.seqNo, s.cutoff) then s
      else
        var shown := if line.seqNo in s.latestEdits then s.latestEdits[line.seqNo] else message;
        var edits := s.latestEdits - {line.seqNo};
        if IsDisplayMessage(q.summaryPrefix, shown)
        then Scan(edits, s.cutoff, s.collected + [Entry(line.seqNo, line.tsMs, shown)])
        else Scan(edits, s.cutoff, s.collected)
    case _ => s
  }

  function HandleBytes(c: Codec, q: Query, s: Scan, raw: seq<byte>): Result<Scan, SessionError> {
    match c.parse(raw)
    case Blank => Success(s)
    case Malformed => Failure(Deserialize)
    case Parsed(line) =>
      if line.schemaVersion > SESSION_SCHEMA_VERSION then Failure(UnsupportedSchema(line.schemaVersion))
      else Success(HandleLine(q, s, line))
  }

  /** Handles raw lines in the order given until one is in error or a page and one more are collected. */
  ghost function HandleAll(c: Codec, q: Query, s: Scan, lines: seq<seq<byte>>): Result<Scan, SessionError>
    decreases |lines|
  {
    if lines == [] || |s.collected| > q.limit then Success(s)
    else
      var r := HandleBytes(c, q, s, lines[0]);
      if r.Failure? then r else HandleAll(c, q, r.value, lines[1..])
  }

  /** The same, taking each line off the end of a file. */
  ghost function ScanBytes(c: Codec, q: Query, s: Scan, bytes: seq<byte>): Result<Scan, SessionError>
    decreases |bytes|
  {
    if |s.collected| > q.limit then Success(s)
    else
      var start := LastLineStart(bytes);
      var r := HandleBytes(c, q, s, bytes[start..]);
      if r.Failure? || start == 0 then r else ScanBytes(c, q, r.value, bytes[..start - 1])
  }

  ghost function NonBlank(c: Codec, lines: seq<seq<byte>>): seq<seq<byte>> {
    if lines == [] then []
    else (if c.parse(lines[0]).Blank? then [] else [lines[0]]) + NonBlank(c, lines[1..])
  }

  lemma {:induction false} BlankLinesIgnored(c: Codec, q: Query, s: Scan, lines: seq<seq<byte>>)
    ensures HandleAll(c, q, s, lines) == HandleAll(c, q, s, NonBlank(c, lines))
    decreases |lines|
  {
    if lines != [] && |s.collected| <= q.limit {
      var r := HandleBytes(c, q, s, lines[0]);
      if r.Success? {
        BlankLinesIgnored(c, q, r.value, lines[1..]);
      }
      if c.parse(lines[0]).Blank? {
        assert [] + NonBlank(c, lines[1..]) == NonBlank(c, lines[1..]);
      } else {
        assert NonBlank(c, lines)[1..] == NonBlank(c, lines[1..]);
      }
    }
  }

  lemma {:induction false} ScanBytesIsReverse(c: Codec, q: Query, s: Scan, bytes: seq<byte>)
    ensures ScanBytes(c, q, s, bytes) == HandleAll(c, q, s, Sequences.Reversed(Lines(bytes)))
    decreases |bytes|
  {
    var start, lines := LastLineStart(bytes), Lines(bytes);
    LinesFromTheBack(bytes);
    if |s.collected| <= q.limit {
      var r := HandleBytes(c, q, s, bytes[start..]);
      assert start == 0 ==> bytes[start..] == bytes;
      assert Sequences.Reversed(lines)[0] == bytes[start..];
      assert Sequences.Reversed(lines)[1..] == Sequences.Reversed(lines[..|lines| - 1]);
      if start > 0 {
        assert lines[..|lines| - 1] == Lines(bytes[..start - 1]);
        if r.Success? { ScanBytesIsReverse(c, q, r.value, bytes[..start - 1]); }
      } else {
        assert lines[..|lines| - 1] == [];
      }
    }
  }

  /** The backward reader hands over exactly the non-blank lines of the file, last line first, up to an early exit. */
  lemma {:induction false} LinesHandledInReverse(c: Codec, q: Query, s: Scan, bytes: seq<byte>)
    ensures ScanBytes(c, q, s, bytes) == HandleAll(c, q, s, NonBlank(c, Sequences.Reversed(Lines(bytes))))
  {
    ScanBytesIsReverse(c, q, s, bytes);
    BlankLinesIgnored(c, q, s, Sequences.Reversed(Lines(bytes)));
  }

  lemma {:induction false} TrailingNewline(c: Codec, q: Query, s: Scan, bytes: seq<byte>)
    requires Faithful(c)
    ensures ScanBytes(c, q, s, bytes + [LF]) == ScanBytes(c, q, s, bytes)
  {
    var longer := bytes + [LF];
    assert longer[|longer|..] == [] && longer[..|longer| - 1] == bytes;
  }

  lemma {:induction false} TrailingReturn(c: Codec, q: Query, s: Scan, bytes: seq<byte>)
    requires Faithful(c)
    ensures ScanBytes(c, q, s, bytes + [CR]) == ScanBytes(c, q, s, bytes)
  {
    var longer, start := bytes + [CR], LastLineStart(bytes);
    assert longer[start..] == bytes[start..] + [CR];
    LastLineStartUnique(longer, start);
    if start > 0 {
      assert longer[..start - 1] == bytes[..start - 1];
    }
  }

  // ---- scanning a whole log ----

  ghost function ScanLog(q: Query, s: Scan, log: seq<EventLine>): Scan
    decreases |log|
  {
    if log == [] || |s.collected| > q.limit then s
    else ScanLog(q, HandleLine(q, s, log[|log| - 1]), log[..|log| - 1])
  }

  /** Scanning a file whose last line is complete handles that line, then the file before it. */
  lemma {:induction false} ScanLastLine(c: Codec, q: Query, s: Scan, before: seq<byte>, line: EventLine)
    requires Faithful(c) && line.schemaVersion <= SESSION_SCHEMA_VERSION && |s.collected| <= q.limit
    requires before != [] ==> before[|before| - 1] == LF
    ensures ScanBytes(c, q, s, before + c.encode(line) + [LF])
         == if before == [] then Success(HandleLine(q, s, line)) else ScanBytes(c, q, HandleLine(q, s, line), before)
  {
    var text := c.encode(line);
    var bytes := before + text;
    TrailingNewline(c, q, s, bytes);
    assert bytes[|before|..] == text;
    LastLineStartUnique(bytes, |before|);
    if before != [] {
      var short := before[..|before| - 1];
      assert bytes[..|before| - 1] == short && short + [LF] == before;
      TrailingNewline(c, q, HandleLine(q, s, line), short);
    }
  }

  lemma {:induction false} ScanLogBytes(c: Codec, q: Query, s: Scan, log: seq<EventLine>)
    requires Faithful(c) && SupportedSchema(log)
    ensures ScanBytes(c, q, s, LogBytes(c, log)) == Success(ScanLog(q, s, log))
    decreases |log|
  {
    if log == [] {
      assert LogBytes(c, log)[0..] == [];
    } else if |s.collected| <= q.limit {
      var init, line := log[..|log| - 1], log[|log| - 1];
      LogBytesEnd(c, init);
      ScanLastLine(c, q, s, LogBytes(c, init), line);
      ScanLogBytes(c, q, HandleLine(q, s, line), init);
    }
  }

  // ---- the history the backward scan sees ----

  /** Live entries when every truncation cuts by number, whether or not the message it names is live. */
  ghost function CutEntries(log: seq<EventLine>): seq<Entry> {
    if log == [] then []
    else
      var entries, line := CutEntries(log[..|log| - 1]), log[|log| - 1];
      match line.event
      case MessageAdded(message) => entries + [Entry(line.seqNo, line.tsMs, message)]
      case MessageEdit(id, message) => Edited(entries, id, message)
      case TruncateAfter(id) => UpTo(entries, id)
      case _ => entries
  }

  ghost function Edited(entries: seq<Entry>, id: u64, message: Message): (r: seq<Entry>)
    ensures |r| == |entries|
  {
    seq(|entries|, i requires 0 <= i < |entries| =>
      if entries[i].seqNo == id then entries[i].(message := message) else entries[i])
  }

  ghost function UpTo(entries: seq<Entry>, id: u64): seq<Entry> {
    if entries == [] then []
    else
      var e := entries[|entries| - 1];
      UpTo(entries[..|entries| - 1], id) + (if e.seqNo <= id then [e] else [])
  }

  /** Entries of a history as a scan that already saw the later lines will collect them. */
  ghost function Resolved(q: Query, s: Scan, entries: seq<Entry>): seq<Entry> {
    if entries == [] then []
    else
      var e := entries[|entries| - 1];
      var shown := if e.seqNo in s.latestEdits then s.latestEdits[e.seqNo] else e.message;
      Resolved(q, s, entries[..|entries| - 1])
      + (if e.seqNo < q.before && !DeletedByLaterTruncate(e.seqNo, s.cutoff) && IsDisplayMessage(q.summaryPrefix, shown)
         then [e.(message := shown)] else [])
  }

  ghost predicate Older(entries: seq<Entry>, seqNo: u64) {
    forall i | 0 <= i < |entries| :: entries[i].seqNo < seqNo
  }

  lemma {:induction false} ResolvedForgets(q: Query, s: Scan, t: Scan, entries: seq<Entry>, seqNo: u64)
    requires Older(entries, seqNo) && t.cutoff == s.cutoff && t.latestEdits == s.latestEdits - {seqNo}
    ensures Resolved(q, t, entries) == Resolved(q, s, entries)
  {
    if entries != [] {
      ResolvedForgets(q, s, t, entries[..|entries| - 1], seqNo);
    }
  }

  lemma {:induction false} ResolvedEdited(q: Query, s: Scan, entries: seq<Entry>, line: EventLine)
    requires line.event.MessageEdit?
    ensures Resolved(q, s, Edited(entries, line.event.messageId, line.event.edited))
         == Resolved(q, HandleLine(q, s, line), entries)
  {
    if entries != [] {
      var init := entries[..|entries| - 1];
      ResolvedEdited(q, s, init, line);
      var edited := Edited(entries, line.event.messageId, line.event.edited);
      assert edited[..|edited| - 1] == Edited(init, line.event.messageId, line.event.edited);
    }
  }

  lemma {:induction false} ResolvedCut(q: Query, s: Scan, entries: seq<Entry>, id: u64)
    ensures Resolved(q, s, UpTo(entries, id)) == Resolved(q, s.(cutoff := MinCutoff(s.cutoff, id)), entries)
  {
    if entries != [] {
      var init, e := entries[..|entries| - 1], entries[|entries| - 1];
      ResolvedCut(q, s, init, id);
      if e.seqNo <= id {
        assert UpTo(entries, id)[..|UpTo(init, id)|] == UpTo(init, id);
      } else {
        assert UpTo(entries, id) == UpTo(init, id);
      }
    }
  }

  lemma {:induction false} UpToOlder(entries: seq<Entry>, id: u64, seqNo: u64)
    requires Older(entries, seqNo)
    ensures Older(UpTo(entries, id), seqNo)
  {
    if entries != [] {
      UpToOlder(entries[..|entries| - 1], id, seqNo);
    }
  }

  lemma {:induction false} CutEntriesOlder(log: seq<EventLine>, seqNo: u64)
    requires forall i | 0 <= i < |log| :: log[i].seqNo < seqNo
    ensures Older(CutEntries(log), seqNo)
  {
    if log != [] {
      var init, line := log[..|log| - 1], log[|log| - 1];
      CutEntriesOlder(init, seqNo);
      if line.event.TruncateAfter? {
        UpToOlder(CutEntries(init), line.event.lastKept, seqNo);
      }
    }
  }

  lemma {:induction false} ResolvedPush(q: Query, s: Scan, entries: seq<Entry>, e: Entry)
    ensures Resolved(q, s, entries + [e]) == Resolved(q, s, entries) + Resolved(q, s, [e])
  {
    assert (entries + [e])[..|entries|] == entries;
    assert [e][..0] == [];
  }

  lemma {:induction false} ReversedPush<T>(collected: seq<T>, older: seq<T>, x: T)
    ensures collected + Sequences.Reversed(older + [x]) == (collected + [x]) + Sequences.Reversed(older)
  {
    assert (older + [x])[..|older|] == older;
  }

  /** What is still to collect after `s` from a history: newest first. */
  ghost function ToCollect(q: Query, s: Scan, entries: seq<Entry>): seq<Entry> {
    s.collected + Sequences.Reversed(Resolved(q, s, entries))
  }

  lemma {:induction false} HandleMessageResolves(q: Query, s: Scan, entries: seq<Entry>, line: EventLine)
    requires line.event.MessageAdded? && Older(entries, line.seqNo) && |s.collected| <= q.limit
    ensures ToCollect(q, s, entries + [Entry(line.seqNo, line.tsMs, line.event.message)])
         == ToCollect(q, HandleLine(q, s, line), entries)
  {
    var e, next := Entry(line.seqNo, line.tsMs, line.event.message), HandleLine(q, s, line);
    ResolvedPush(q, s, entries, e);
    if next == s {
      assert Resolved(q, s, [e]) == [];
      assert Resolved(q, s, entries) + [] == Resolved(q, s, entries);
    } else {
      ResolvedForgets(q, s, next, entries, line.seqNo);
      if next.collected == s.collected {
        assert Resolved(q, s, [e]) == [];
      } else {
        var shown := next.collected[|s.collected|];
        assert Resolved(q, s, [e]) == [shown];
        ReversedPush(s.collected, Resolved(q, s, entries), shown);
      }
    }
  }

  /** One line further back: what was still to collect is what the line adds, then what the older lines hold. */
  lemma {:induction false} HandleLineResolves(q: Query, s: Scan, log: seq<EventLine>)
    requires log != [] && Increasing(log) && |s.collected| <= q.limit
    ensures ToCollect(q, s, CutEntries(log))
         == ToCollect(q, HandleLine(q, s, log[|log| - 1]), CutEntries(log[..|log| - 1]))
  {
    var init, line := log[..|log| - 1], log[|log| - 1];
    match line.event
    case MessageAdded(_) =>
      CutEntriesOlder(init, line.seqNo);
      HandleMessageResolves(q, s, CutEntries(init), line);
    case MessageEdit(_, _) => ResolvedEdited(q, s, CutEntries(init), line);
    case TruncateAfter(id) => ResolvedCut(q, s, CutEntries(init), id);
    case _ =>
  }

  function Take<T>(s: seq<T>, n: nat): seq<T> {
    if |s| <= n then s else s[..n]
  }

  lemma {:induction false} ScanLogCollects(q: Query, s: Scan, log: seq<EventLine>)
    requires Increasing(log) && |s.collected| <= q.limit + 1
    ensures ScanLog(q, s, log).collected == Take(ToCollect(q, s, CutEntries(log)), q.limit + 1)
    decreases |log|
  {
    if |s.collected| <= q.limit && log != [] {
      HandleLineResolves(q, s, log);
      ScanLogCollects(q, HandleLine(q, s, log[|log| - 1]), log[..|log| - 1]);
    }
  }

  /** The page a finished scan returns. */
  function FinishPage(q: Query, s: Scan): Page {
    if |s.collected| > q.limit && q.limit > 0 then
      var items := Sequences.Reversed(s.collected[..q.limit]);
      Page(items, Some(items[0].seqNo))
    else Page(Sequences.Reversed(s.collected), None)
  }

  lemma {:induction false} ResolvedAtStart(q: Query, entries: seq<Entry>)
    ensures Resolved(q, NOTHING_SCANNED, entries) == VisibleBefore(q, entries)
  {
    if entries != [] {
      ResolvedAtStart(q, entries[..|entries| - 1]);
    }
  }

  lemma {:induction false} FinishPageIsLast(q: Query, s: Scan, visible: seq<Entry>)
    requires q.limit > 0 && s.collected == Take(Sequences.Reversed(visible), q.limit + 1)
    ensures FinishPage(q, s) == LastPage(visible, q.limit)
  {
    if |visible| <= q.limit {
      assert Sequences.Reversed(s.collected) == visible;
    } else {
      assert Sequences.Reversed(s.collected[..q.limit]) == visible[|visible| - q.limit..];
    }
  }

  /** A complete scan of a log returns the last page of the history it sees. */
  lemma {:induction false} ScanLogPage(q: Query, log: seq<EventLine>)
    requires Increasing(log) && q.limit > 0
    ensures FinishPage(q, ScanLog(q, NOTHING_SCANNED, log)) == LastPage(VisibleBefore(q, CutEntries(log)), q.limit)
  {
    var visible := VisibleBefore(q, CutEntries(log));
    ScanLogCollects(q, NOTHING_SCANNED, log);
    ResolvedAtStart(q, CutEntries(log));
    assert [] + Sequences.Reversed(visible) == Sequences.Reversed(visible);
    FinishPageIsLast(q, ScanLog(q, NOTHING_SCANNED, log), visible);
  }
}
