/** The events file as bytes: its line codec, its lines, and the forward reader's view of it. */
module EventLog {
  import opened Wrappers
  import opened Protocol
  import opened SessionModel

  type byte = b: int | 0 <= b < 0x100

  const LF: byte := 0x0A
  const CR: byte := 0x0D

  datatype SessionError = NotFound | UnsupportedSchema(version: nat) | Deserialize | Io

  /** What trimming one raw line and decoding its JSON yields. */
  datatype ParsedLine = Blank | Malformed | Parsed(line: EventLine)

  /** The JSON encoder and the trim-then-decode parser of the events file, and which bytes are whole UTF-8. */
  datatype Codec =
    Codec(encode: EventLine -> seq<byte>, parse: seq<byte> -> ParsedLine, wholeText: seq<byte> -> bool)

  /** Compact JSON has no raw newline (section 7 of RFC 8259), is text, and decodes to what was encoded; no proper
      prefix of an object decodes; trimming removes a carriage return at the end of a line. */
  ghost predicate Faithful(c: Codec) {
    && (forall l :: LF !in c.encode(l) && c.encode(l) != [] && c.wholeText(c.encode(l)))
    && (forall l :: c.parse(c.encode(l)) == Parsed(l))
    && (forall l, k | 0 < k < |c.encode(l)| :: c.parse(c.encode(l)[..k]) == Malformed)
    && c.parse([]) == Blank && c.wholeText([])
    && (forall b :: c.parse(b + [CR]) == c.parse(b))
  }

  /** An object cut short, or one left without its newline, and the next one after it on the same line do not decode;
      whole text followed by whole text is whole. */
  ghost predicate LinesDoNotJoin(c: Codec) {
    && (forall l, m, k | 0 < k <= |c.encode(l)| :: c.parse(c.encode(l)[..k] + c.encode(m)) == Malformed)
    && (forall a, b {:trigger c.wholeText(a + b)} | c.wholeText(a) && c.wholeText(b) :: c.wholeText(a + b))
  }

  // ---- lines ----

  function FirstNewline(bytes: seq<byte>): (k: nat)
    ensures k <= |bytes|
    ensures k < |bytes| ==> bytes[k] == LF
    ensures LF !in bytes[..k]
  {
    if bytes == [] || bytes[0] == LF then 0
    else
      var k := FirstNewline(bytes[1..]);
      assert bytes[..1 + k] == [bytes[0]] + bytes[1..][..k];
      1 + k
  }

  /** Position after the last newline: zero when there is none. */
  function LastLineStart(bytes: seq<byte>): (k: nat)
    ensures k <= |bytes|
    ensures k > 0 ==> bytes[k - 1] == LF
    ensures LF !in bytes[k..]
  {
    if bytes == [] || bytes[|bytes| - 1] == LF then |bytes|
    else
      var init := bytes[..|bytes| - 1];
      var k := LastLineStart(init);
      assert bytes[k..] == init[k..] + [bytes[|bytes| - 1]];
      k
  }

  lemma {:induction false} NoNewline(bytes: seq<byte>, lo: nat, hi: nat)
    requires lo <= hi <= |bytes| && LF !in bytes[lo..hi]
    ensures forall i | lo <= i < hi :: bytes[i] != LF
  {
    forall i | lo <= i < hi ensures bytes[i] != LF {
      assert bytes[i] == bytes[lo..hi][i - lo];
    }
  }

  lemma {:induction false} LastLineStartUnique(bytes: seq<byte>, k: nat)
    requires k <= |bytes| && LF !in bytes[k..] && (k > 0 ==> bytes[k - 1] == LF)
    ensures LastLineStart(bytes) == k
  {
    NoNewline(bytes, k, |bytes|);
    NoNewline(bytes, LastLineStart(bytes), |bytes|);
  }

  lemma {:induction false} FirstNewlineUnique(bytes: seq<byte>, k: nat)
    requires k <= |bytes| && LF !in bytes[..k] && (k < |bytes| ==> bytes[k] == LF)
    ensures FirstNewline(bytes) == k
  {
    NoNewline(bytes, 0, k);
    NoNewline(bytes, 0, FirstNewline(bytes));
  }

  /** The raw lines of a file, front to back; a last line need not end in a newline. */
  function Lines(bytes: seq<byte>): (lines: seq<seq<byte>>)
    ensures |lines| > 0
  {
    var k := FirstNewline(bytes);
    if k < |bytes| then [bytes[..k]] + Lines(bytes[k + 1..]) else [bytes]
  }

  /** A newline splits a file into the lines before it and the lines after it. */
  lemma {:induction false} LinesSplit(a: seq<byte>, b: seq<byte>)
    ensures Lines(a + [LF] + b) == Lines(a) + Lines(b)
    decreases |a|
  {
    var k, bytes := FirstNewline(a), a + [LF] + b;
    assert bytes[..k] == a[..k];
    FirstNewlineUnique(bytes, k);
    if k < |a| {
      assert bytes[k + 1..] == a[k + 1..] + [LF] + b;
      LinesSplit(a[k + 1..], b);
    } else {
      assert bytes[k + 1..] == b && a[..k] == a;
    }
  }

  /** Splitting at the last newline peels off exactly the last line. */
  lemma {:induction false} LinesFromTheBack(bytes: seq<byte>)
    ensures var start := LastLineStart(bytes);
            Lines(bytes) == if start == 0 then [bytes] else Lines(bytes[..start - 1]) + [bytes[start..]]
  {
    var start := LastLineStart(bytes);
    var last := bytes[start..];
    assert last[..|last|] == last;
    FirstNewlineUnique(last, |last|);
    if start > 0 {
      assert bytes == bytes[..start - 1] + [LF] + last;
      LinesSplit(bytes[..start - 1], last);
    } else {
      assert last == bytes;
    }
  }

  // ---- the file a log leaves behind ----

  ghost function LogBytes(c: Codec, log: seq<EventLine>): seq<byte> {
    if log == [] then []
    else LogBytes(c, log[..|log| - 1]) + c.encode(log[|log| - 1]) + [LF]
  }

  lemma {:induction false} LogBytesEnd(c: Codec, log: seq<EventLine>)
    ensures log != [] ==> LogBytes(c, log) != [] && LogBytes(c, log)[|LogBytes(c, log)| - 1] == LF
  {
  }

  ghost predicate SupportedSchema(log: seq<EventLine>) {
    forall i | 0 <= i < |log| :: log[i].schemaVersion <= SESSION_SCHEMA_VERSION
  }

  /** `bytes` holds exactly the events of `log`, save that the last write may have been cut short: an unparsable
      unterminated tail, or a last line still missing its newline. */
  ghost predicate FileHolds(c: Codec, bytes: seq<byte>, log: seq<EventLine>) {
    || (exists tail :: TornTail(c, tail) && bytes == LogBytes(c, log) + tail)
    || (log != [] && bytes == LogBytes(c, log[..|log| - 1]) + c.encode(log[|log| - 1]))
  }

  ghost predicate TornTail(c: Codec, tail: seq<byte>) {
    LF !in tail && c.wholeText(tail) && !c.parse(tail).Parsed?
  }

  // ---- forward replay ----

  /** Clock readings during a replay, by the sequence number of the event being applied. */
  type Clock = u64 -> string

  /** The events after the snapshot, applied in order. */
  ghost function ReplayAfter(s: State, log: seq<EventLine>, snapshotSeq: u64, clock: Clock): State
    requires |s.messages| == |s.messageIds|
    ensures |ReplayAfter(s, log, snapshotSeq, clock).messages| == |ReplayAfter(s, log, snapshotSeq, clock).messageIds|
  {
    if log == [] then s
    else
      var before := ReplayAfter(s, log[..|log| - 1], snapshotSeq, clock);
      var line := log[|log| - 1];
      if line.seqNo <= snapshotSeq then before else Apply(before, line, clock(line.seqNo))
  }

  /** Reading a file line by line from the front: a line must be whole UTF-8, blank lines are skipped, an unparsable
      line is an error unless it is an unterminated last line, and events the snapshot already has are skipped. */
  ghost function ReplayBytes(c: Codec, bytes: seq<byte>, s: State, snapshotSeq: u64, clock: Clock)
    : (r: Result<State, SessionError>)
    requires |s.messages| == |s.messageIds|
    ensures r.Success? ==> |r.value.messages| == |r.value.messageIds|
    decreases |bytes|
  {
    if bytes == [] then Success(s)
    else
      var k := FirstNewline(bytes);
      var rest := if k < |bytes| then bytes[k + 1..] else [];
      if !c.wholeText(bytes[..k]) then Failure(Io) else
      match c.parse(bytes[..k])
      case Blank => ReplayBytes(c, rest, s, snapshotSeq, clock)
      case Malformed => if k == |bytes| then Success(s) else Failure(Deserialize)
      case Parsed(line) =>
        if line.schemaVersion > SESSION_SCHEMA_VERSION then Failure(UnsupportedSchema(line.schemaVersion))
        else if line.seqNo <= snapshotSeq then ReplayBytes(c, rest, s, snapshotSeq, clock)
        else ReplayBytes(c, rest, Apply(s, line, clock(line.seqNo)), snapshotSeq, clock)
  }

  /** One complete line at the front of a file is one step of the replay. */
  lemma {:induction false} ReplayFirstLine(c: Codec, line: EventLine, rest: seq<byte>, s: State, snapshotSeq: u64,
                                           clock: Clock)
    requires Faithful(c) && line.schemaVersion <= SESSION_SCHEMA_VERSION
    requires |s.messages| == |s.messageIds|
    ensures ReplayBytes(c, c.encode(line) + [LF] + rest, s, snapshotSeq, clock)
         == ReplayBytes(c, rest, ReplayAfter(s, [line], snapshotSeq, clock), snapshotSeq, clock)
  {
    var text := c.encode(line);
    var bytes := text + [LF] + rest;
    assert bytes[..|text|] == text;
    FirstNewlineUnique(bytes, |text|);
    assert bytes[|text| + 1..] == rest;
    assert [line][..0] == [];
    assert ReplayAfter(s, [], snapshotSeq, clock) == s;
  }

  lemma {:induction false} ReplayAfterFront(s: State, log: seq<EventLine>, snapshotSeq: u64, clock: Clock)
    requires log != [] && |s.messages| == |s.messageIds|
    ensures ReplayAfter(s, log, snapshotSeq, clock)
         == ReplayAfter(ReplayAfter(s, log[..1], snapshotSeq, clock), log[1..], snapshotSeq, clock)
  {
    if |log| == 1 {
      assert log[..1] == log && log[1..] == [];
    } else {
      var init := log[..|log| - 1];
      ReplayAfterFront(s, init, snapshotSeq, clock);
      assert init[..1] == log[..1] && log[1..][..|log| - 2] == init[1..];
    }
  }

  lemma {:induction false} LogBytesFront(c: Codec, log: seq<EventLine>)
    requires log != []
    ensures LogBytes(c, log) == c.encode(log[0]) + [LF] + LogBytes(c, log[1..])
  {
    if |log| == 1 {
      assert log[..0] == [] && log[1..] == [];
    } else {
      var init := log[..|log| - 1];
      LogBytesFront(c, init);
      assert log[1..][..|log| - 2] == init[1..];
    }
  }

  lemma {:induction false} ReplayBytesPrefix(c: Codec, log: seq<EventLine>, tail: seq<byte>, s: State,
                                             snapshotSeq: u64, clock: Clock)
    requires Faithful(c) && SupportedSchema(log) && |s.messages| == |s.messageIds|
    ensures ReplayBytes(c, LogBytes(c, log) + tail, s, snapshotSeq, clock)
         == ReplayBytes(c, tail, ReplayAfter(s, log, snapshotSeq, clock), snapshotSeq, clock)
    decreases |log|
  {
    if log == [] {
      assert LogBytes(c, log) + tail == tail;
    } else {
      var rest := LogBytes(c, log[1..]) + tail;
      LogBytesFront(c, log);
      assert LogBytes(c, log) + tail == c.encode(log[0]) + [LF] + rest;
      ReplayFirstLine(c, log[0], rest, s, snapshotSeq, clock);
      assert log[..1] == [log[0]];
      ReplayBytesPrefix(c, log[1..], tail, ReplayAfter(s, log[..1], snapshotSeq, clock), snapshotSeq, clock);
      ReplayAfterFront(s, log, snapshotSeq, clock);
    }
  }

  /** The forward reader recovers every completely written event, whatever was cut off after it. */
  lemma {:induction false} ReplayHeldFile(c: Codec, bytes: seq<byte>, log: seq<EventLine>, s: State, snapshotSeq: u64,
                                          clock: Clock)
    requires Faithful(c) && SupportedSchema(log) && FileHolds(c, bytes, log)
    requires |s.messages| == |s.messageIds|
    ensures ReplayBytes(c, bytes, s, snapshotSeq, clock) == Success(ReplayAfter(s, log, snapshotSeq, clock))
  {
    if tail :| TornTail(c, tail) && bytes == LogBytes(c, log) + tail {
      ReplayBytesPrefix(c, log, tail, s, snapshotSeq, clock);
      assert tail[..|tail|] == tail;
      FirstNewlineUnique(tail, |tail|);
    } else {
      var init, line := log[..|log| - 1], log[|log| - 1];
      var text := c.encode(line);
      ReplayBytesPrefix(c, init, text, s, snapshotSeq, clock);
      assert text[..|text|] == text;
      FirstNewlineUnique(text, |text|);
    }
  }

  /** A cut inside a character, unlike any other, makes the forward reader fail. */
  lemma {:induction false} TornCharacterFailsReplay(c: Codec, log: seq<EventLine>, tail: seq<byte>, s: State,
                                                    snapshotSeq: u64, clock: Clock)
    requires Faithful(c) && SupportedSchema(log) && |s.messages| == |s.messageIds|
    requires LF !in tail && !c.wholeText(tail)
    ensures ReplayBytes(c, LogBytes(c, log) + tail, s, snapshotSeq, clock) == Failure(Io)
  {
    ReplayBytesPrefix(c, log, tail, s, snapshotSeq, clock);
    assert tail[..|tail|] == tail;
    FirstNewlineUnique(tail, |tail|);
  }

  /** A terminated line that does not decode makes the forward reader fail, whatever follows it. */
  lemma {:induction false} MalformedLineFailsReplay(c: Codec, log: seq<EventLine>, raw: seq<byte>, rest: seq<byte>,
                                                    s: State, snapshotSeq: u64, clock: Clock)
    requires Faithful(c) && SupportedSchema(log) && |s.messages| == |s.messageIds|
    requires LF !in raw && c.wholeText(raw) && c.parse(raw) == Malformed
    ensures ReplayBytes(c, LogBytes(c, log) + (raw + [LF] + rest), s, snapshotSeq, clock) == Failure(Deserialize)
  {
    var tail := raw + [LF] + rest;
    ReplayBytesPrefix(c, log, tail, s, snapshotSeq, clock);
    assert tail[..|raw|] == raw;
    FirstNewlineUnique(tail, |raw|);
  }

  lemma {:induction false} ReplaySkips(s: State, log: seq<EventLine>, snapshotSeq: u64, clock: Clock)
    requires |s.messages| == |s.messageIds|
    requires forall i | 0 <= i < |log| :: log[i].seqNo <= snapshotSeq
    ensures ReplayAfter(s, log, snapshotSeq, clock) == s
  {
    if log != [] {
      ReplaySkips(s, log[..|log| - 1], snapshotSeq, clock);
    }
  }

  /** A snapshot of a prefix plus the later events is the replay of the whole log. */
  lemma {:induction false} SnapshotPlusReplay(s: State, log: seq<EventLine>, k: nat, clock: Clock)
    requires Increasing(log) && k <= |log|
    requires |s.messages| == |s.messageIds| && Durable(s) == Replay(log[..k])
    ensures Durable(ReplayAfter(s, log, LastSeq(log[..k]), clock)) == Replay(log)
    decreases |log|
  {
    var snapshotSeq := LastSeq(log[..k]);
    if k == |log| {
      assert log[..k] == log;
      ReplaySkips(s, log, snapshotSeq, clock);
    } else {
      var init, line := log[..|log| - 1], log[|log| - 1];
      assert init[..k] == log[..k];
      SnapshotPlusReplay(s, init, k, clock);
      assert snapshotSeq < line.seqNo;
      assert Durable(Replay(init)) == Replay(init);
      ApplyDurable(ReplayAfter(s, init, snapshotSeq, clock), Replay(init), line, clock(line.seqNo), "");
    }
  }
}
