/** Capturing a stream's output for telemetry, under one byte budget shared by all its texts. */
module StreamCapture {
  import opened Wrappers
  import opened Protocol
  import opened StreamChunks
  import opened MiddleTruncation
  import Sequences

  datatype Capture = Capture(
    content: string,
    thinking: string,
    toolCalls: map<u32, ToolCallDelta>,
    finishReason: Option<FinishReason>,
    metadata: Option<ProviderMetadata>,
    maxBytes: nat,
    bytes: nat,
    truncated: bool)

  function Empty(maxBytes: nat): Capture {
    Capture("", "", map[], None, None, maxBytes, 0, false)
  }

  // ---- one text ----

  function Remaining(maxBytes: nat, bytes: nat): nat {
    if bytes <= maxBytes then maxBytes - bytes else 0
  }

  /** What of a text is kept: all of it, or its longest prefix of whole characters within the budget. */
  function Kept(maxBytes: nat, bytes: nat, truncated: bool, value: string): string {
    if truncated then "" else value[..PrefixChars(value, Remaining(maxBytes, bytes))]
  }

  /** Whether the budget was found wanting. */
  function Overrun(maxBytes: nat, bytes: nat, truncated: bool, value: string): bool {
    truncated || ByteLen(value) > Remaining(maxBytes, bytes)
  }

  predicate IsCharBoundary(s: string, end: nat) {
    exists k | 0 <= k <= |s| :: ByteLen(s[..k]) == end
  }

  lemma {:induction false} ShorterBoundary(s: string, end: nat)
    requires IsCharBoundary(s, end) && ByteLen(s) != end
    ensures s != "" && IsCharBoundary(s[..|s| - 1], end)
  {
    var k :| 0 <= k <= |s| && ByteLen(s[..k]) == end;
    assert s[..|s|] == s;
    assert s[..|s| - 1][..k] == s[..k];
  }

  /** How many characters the first `end` bytes are. */
  function CharsIn(s: string, end: nat): (k: nat)
    requires IsCharBoundary(s, end)
    ensures k <= |s| && ByteLen(s[..k]) == end
  {
    if ByteLen(s) == end then
      assert s[..|s|] == s;
      |s|
    else
      ShorterBoundary(s, end);
      var k := CharsIn(s[..|s| - 1], end);
      assert s[..|s| - 1][..k] == s[..k];
      k
  }

  /** Steps back from the budget to a character boundary. */
  method BoundaryBefore(value: string, remaining: nat) returns (end: nat)
    requires remaining < ByteLen(value)
    ensures end == ByteLen(value[..PrefixChars(value, remaining)]) && IsCharBoundary(value, end)
  {
    ghost var k := PrefixChars(value, remaining);
    PrefixCharsLongest(value, remaining);
    assert value[..|value|] == value && value[..0] == "";
    end := remaining;
    while end > 0 && !IsCharBoundary(value, end)
      invariant ByteLen(value[..k]) <= end <= remaining
      decreases end
    {
      end := end - 1;
    }
    var j: nat :| j <= |value| && ByteLen(value[..j]) == end;
    if j > k {
      ByteLenMonotone(value, k + 1, j);
    } else {
      ByteLenMonotone(value, j, k);
    }
  }

  // ---- observing a chunk ----

  datatype Channel = ContentText | ThinkingText | ArgumentsText(index: u32)

  function TextAt(c: Capture, channel: Channel): string {
    match channel
    case ContentText => c.content
    case ThinkingText => c.thinking
    case ArgumentsText(i) => if i in c.toolCalls then OrEmpty(c.toolCalls[i].arguments) else ""
  }

  function CallAt(c: Capture, index: u32): ToolCallDelta {
    if index in c.toolCalls then c.toolCalls[index] else ToolCallDelta(index, None, None, None)
  }

  function WithText(c: Capture, channel: Channel, text: string): Capture {
    match channel
    case ContentText => c.(content := text)
    case ThinkingText => c.(thinking := text)
    case ArgumentsText(i) => c.(toolCalls := c.toolCalls[i := CallAt(c, i).(arguments := Some(text))])
  }

  function Append(c: Capture, channel: Channel, value: string): Capture {
    var kept := Kept(c.maxBytes, c.bytes, c.truncated, value);
    WithText(c, channel, TextAt(c, channel) + kept)
      .(bytes := c.bytes + ByteLen(kept), truncated := Overrun(c.maxBytes, c.bytes, c.truncated, value))
  }

  function AppendIfAny(c: Capture, channel: Channel, value: Option<string>): Capture {
    if value.Some? then Append(c, channel, value.value) else c
  }

  function Identified(c: Capture, delta: ToolCallDelta): Capture {
    var call := CallAt(c, delta.index);
    c.(toolCalls := c.toolCalls[delta.index := call.(id := if delta.id.Some? then delta.id else call.id,
                                                     name := if delta.name.Some? then delta.name else call.name)])
  }

  function ObserveCall(c: Capture, delta: ToolCallDelta): Capture {
    AppendIfAny(Identified(c, delta), ArgumentsText(delta.index), delta.arguments)
  }

  function ObserveCalls(c: Capture, deltas: seq<ToolCallDelta>): Capture {
    if deltas == [] then c else ObserveCall(ObserveCalls(c, deltas[..|deltas| - 1]), deltas[|deltas| - 1])
  }

  function Noted(c: Capture, chunk: Chunk): Capture {
    c.(metadata := if chunk.metadata.Some? then chunk.metadata else c.metadata,
       finishReason := if chunk.finishReason.Some? then chunk.finishReason else c.finishReason)
  }

  function ObserveTexts(c: Capture, chunk: Chunk): Capture {
    AppendIfAny(AppendIfAny(c, ContentText, chunk.contentDelta), ThinkingText, chunk.thinkingDelta)
  }

  function Observe(c: Capture, chunk: Chunk): Capture {
    Noted(ObserveCalls(ObserveTexts(c, chunk), chunk.toolCalls), chunk)
  }

  function ObserveAll(c: Capture, chunks: seq<Chunk>): Capture {
    if chunks == [] then c else Observe(ObserveAll(c, chunks[..|chunks| - 1]), chunks[|chunks| - 1])
  }

  lemma {:induction false} NothingFits(value: string)
    ensures PrefixChars(value, 0) == 0
  {
    PrefixCharsLongest(value, 0);
    var k := PrefixChars(value, 0);
    assert value[..0] == "";
    ByteLenMonotone(value, 0, k);
  }

  lemma {:induction false} SameBytesSamePrefix(s: string, j: nat, k: nat)
    requires j <= |s| && k <= |s| && ByteLen(s[..j]) == ByteLen(s[..k])
    ensures j == k
  {
    if j < k {
      ByteLenMonotone(s, j, k);
    } else {
      ByteLenMonotone(s, k, j);
    }
  }

  class StreamOutputCapture {
    var content: string
    var thinking: string
    var toolCalls: map<u32, ToolCallDelta>
    var finishReason: Option<FinishReason>
    var metadata: Option<ProviderMetadata>
    const maxBytes: nat
    var bytes: nat
    var truncated: bool

    function Value(): Capture
      reads this
    {
      Capture(content, thinking, toolCalls, finishReason, metadata, maxBytes, bytes, truncated)
    }

    constructor (maxBytes: nat)
      ensures Value() == Empty(maxBytes)
    {
      this.content, this.thinking, this.toolCalls := "", "", map[];
      this.finishReason, this.metadata := None, None;
      this.maxBytes, this.bytes, this.truncated := maxBytes, 0, false;
    }

    /** Appends what fits of a text to a target; once something did not fit nothing more is kept. */
    method AppendLimited(target: string, value: string) returns (text: string)
      modifies this`bytes, this`truncated
      ensures text == target + Kept(maxBytes, old(bytes), old(truncated), value)
      ensures bytes == old(bytes) + ByteLen(Kept(maxBytes, old(bytes), old(truncated), value))
      ensures truncated == Overrun(maxBytes, old(bytes), old(truncated), value)
    {
      if value == "" || truncated {
        assert target + "" == target;
        return target;
      }
      var remaining := Remaining(maxBytes, bytes);
      PrefixCharsLongest(value, remaining);
      assert value[..|value|] == value && value[..0] == "";
      if remaining == 0 {
        ByteLenMonotone(value, 0, |value|);
        NothingFits(value);
        truncated := true;
        return target;
      }
      if ByteLen(value) <= remaining {
        bytes := bytes + ByteLen(value);
        return target + value;
      }
      var end := BoundaryBefore(value, remaining);
      text := target;
      if end > 0 {
        SameBytesSamePrefix(value, CharsIn(value, end), PrefixChars(value, remaining));
        text := target + value[..CharsIn(value, end)];
        bytes := bytes + end;
      } else {
        SameBytesSamePrefix(value, 0, PrefixChars(value, remaining));
      }
      truncated := true;
    }

    method ObserveToolCall(delta: ToolCallDelta)
      modifies this
      ensures Value() == ObserveCall(old(Value()), delta)
    {
      var entry :=
        if delta.index in toolCalls then toolCalls[delta.index] else ToolCallDelta(delta.index, None, None, None);
      if delta.id.Some? {
        entry := entry.(id := delta.id);
      }
      if delta.name.Some? {
        entry := entry.(name := delta.name);
      }
      toolCalls := toolCalls[delta.index := entry];
      if delta.arguments.Some? {
        var text := AppendLimited(OrEmpty(entry.arguments), delta.arguments.value);
        toolCalls := toolCalls[delta.index := entry.(arguments := Some(text))];
      }
    }

    method ObserveToolCalls(deltas: seq<ToolCallDelta>)
      modifies this
      ensures Value() == ObserveCalls(old(Value()), deltas)
    {
      for k := 0 to |deltas|
        invariant Value() == ObserveCalls(old(Value()), deltas[..k])
      {
        assert deltas[..k + 1][..k] == deltas[..k];
        ObserveToolCall(deltas[k]);
      }
      assert deltas[..|deltas|] == deltas;
    }

    method ObserveChunkTexts(chunk: Chunk)
      modifies this
      ensures Value() == ObserveTexts(old(Value()), chunk)
    {
      if chunk.contentDelta.Some? {
        content := AppendLimited(content, chunk.contentDelta.value);
      }
      assert Value() == AppendIfAny(old(Value()), ContentText, chunk.contentDelta);
      if chunk.thinkingDelta.Some? {
        thinking := AppendLimited(thinking, chunk.thinkingDelta.value);
      }
    }

    method ObserveChunk(chunk: Chunk)
      modifies this
      ensures Value() == Observe(old(Value()), chunk)
    {
      ObserveChunkTexts(chunk);
      ObserveToolCalls(chunk.toolCalls);
      if chunk.metadata.Some? {
        metadata := chunk.metadata;
      }
      if chunk.finishReason.Some? {
        finishReason := chunk.finishReason;
      }
    }
  }

  // ---- the stream as one text ----

  /** A character of the stream and the text it belongs to. */
  datatype Tagged = Tagged(channel: Channel, c: char)

  function Tag(channel: Channel, text: string): seq<Tagged> {
    seq(|text|, i requires 0 <= i < |text| => Tagged(channel, text[i]))
  }

  function TagIfAny(channel: Channel, text: Option<string>): seq<Tagged> {
    Tag(channel, OrEmpty(text))
  }

  function CallsStream(deltas: seq<ToolCallDelta>): seq<Tagged> {
    if deltas == [] then []
    else
      var last := deltas[|deltas| - 1];
      CallsStream(deltas[..|deltas| - 1]) + TagIfAny(ArgumentsText(last.index), last.arguments)
  }

  function TextStream(chunk: Chunk): seq<Tagged> {
    TagIfAny(ContentText, chunk.contentDelta) + TagIfAny(ThinkingText, chunk.thinkingDelta)
  }

  /** All characters of a chunk, in the order they are observed. */
  function ChunkStream(chunk: Chunk): seq<Tagged> {
    TextStream(chunk) + CallsStream(chunk.toolCalls)
  }

  function Stream(chunks: seq<Chunk>): seq<Tagged> {
    if chunks == [] then [] else Stream(chunks[..|chunks| - 1]) + ChunkStream(chunks[|chunks| - 1])
  }

  function Chars(ts: seq<Tagged>): string {
    seq(|ts|, i requires 0 <= i < |ts| => ts[i].c)
  }

  /** One text of the stream. */
  function TextOf(channel: Channel, ts: seq<Tagged>): string {
    if ts == [] then ""
    else
      var before, last := TextOf(channel, ts[..|ts| - 1]), ts[|ts| - 1];
      if last.channel == channel then before + [last.c] else before
  }

  lemma {:induction false} TextOfConcat(channel: Channel, a: seq<Tagged>, b: seq<Tagged>)
    ensures TextOf(channel, a + b) == TextOf(channel, a) + TextOf(channel, b)
  {
    if b == [] {
      assert a + b == a;
    } else {
      TextOfConcat(channel, a, b[..|b| - 1]);
      assert (a + b)[..|a + b| - 1] == a + b[..|b| - 1];
    }
  }

  lemma {:induction false} TextOfTag(channel: Channel, own: Channel, text: string)
    ensures TextOf(channel, Tag(own, text)) == if channel == own then text else ""
  {
    if text != "" {
      TextOfTag(channel, own, text[..|text| - 1]);
      assert Tag(own, text)[..|text| - 1] == Tag(own, text[..|text| - 1]);
    }
  }

  // ---- what a capture holds ----

  /** The capture holds exactly the longest prefix of the whole stream that fits the budget, text by text. */
  ghost predicate Holds(c: Capture, ts: seq<Tagged>) {
    var n := PrefixChars(Chars(ts), c.maxBytes);
    && n <= |ts|
    && c.bytes == ByteLen(Chars(ts[..n]))
    && (c.truncated <==> ByteLen(Chars(ts)) > c.maxBytes)
    && forall channel :: TextAt(c, channel) == TextOf(channel, ts[..n])
  }

  lemma {:induction false} PrefixOfLonger(a: string, b: string, budget: nat)
    ensures PrefixChars(a + b, budget)
         == if ByteLen(a) > budget then PrefixChars(a, budget) else |a| + PrefixChars(b, budget - ByteLen(a))
  {
    hide ByteLen;
    PrefixCharsLongest(a + b, budget);
    PrefixCharsLongest(a, budget);
    if ByteLen(a) > budget {
      var k := PrefixChars(a, budget);
      assert a[..|a|] == a;
      assert (a + b)[..k] == a[..k] && (a + b)[..k + 1] == a[..k + 1];
      LongestPrefixUnique(a + b, k, PrefixChars(a + b, budget), budget);
    } else {
      var k := PrefixChars(b, budget - ByteLen(a));
      PrefixCharsLongest(b, budget - ByteLen(a));
      assert (a + b)[..|a| + k] == a + b[..k];
      ByteLenAppend(a, b[..k]);
      if k < |b| {
        assert (a + b)[..|a| + k + 1] == a + b[..k + 1];
        ByteLenAppend(a, b[..k + 1]);
      }
      LongestPrefixUnique(a + b, |a| + k, PrefixChars(a + b, budget), budget);
    }
  }

  /** The budget part of a step. */
  lemma {:induction false} KeptIsFit(a: string, value: string, maxBytes: nat)
    ensures var n := PrefixChars(a, maxBytes);
      var kept := Kept(maxBytes, ByteLen(a[..n]), ByteLen(a) > maxBytes, value);
      && (ByteLen(a) <= maxBytes ==> n == |a|)
      && kept <= value
      && (ByteLen(a) > maxBytes ==> kept == "")
      && PrefixChars(a + value, maxBytes) == n + |kept|
      && (a + value)[..n + |kept|] == a[..n] + kept
      && (ByteLen(a + value) > maxBytes <==> Overrun(maxBytes, ByteLen(a[..n]), ByteLen(a) > maxBytes, value))
  {
    PrefixOfLonger(a, value, maxBytes);
    PrefixCharsLongest(a, maxBytes);
    ByteLenAppend(a, value);
    assert a[..|a|] == a;
  }

  lemma {:induction false} CharsPrefix(ts: seq<Tagged>, n: nat)
    requires n <= |ts|
    ensures Chars(ts[..n]) == Chars(ts)[..n]
  {
  }

  lemma {:induction false} CharsTagged(ts: seq<Tagged>, channel: Channel, text: string)
    ensures Chars(ts + Tag(channel, text)) == Chars(ts) + text
  {
  }

  lemma {:induction false} TaggedPrefix(ts: seq<Tagged>, n: nat, channel: Channel, value: string, kept: string)
    requires kept <= value && n <= |ts| && (n == |ts| || kept == "")
    ensures (ts + Tag(channel, value))[..n + |kept|] == ts[..n] + Tag(channel, kept)
  {
  }

  /** The longest prefix of the stream grows by what is kept. */
  lemma {:induction false} PrefixGrows(ts: seq<Tagged>, maxBytes: nat, channel: Channel, value: string)
    ensures var n := PrefixChars(Chars(ts), maxBytes);
      var us := ts + Tag(channel, value);
      var kept := Kept(maxBytes, ByteLen(Chars(ts[..n])), ByteLen(Chars(ts)) > maxBytes, value);
      var m := PrefixChars(Chars(us), maxBytes);
      && m <= |us| && us[..m] == ts[..n] + Tag(channel, kept)
      && ByteLen(Chars(us[..m])) == ByteLen(Chars(ts[..n])) + ByteLen(kept)
      && (ByteLen(Chars(us)) > maxBytes
          <==> Overrun(maxBytes, ByteLen(Chars(ts[..n])), ByteLen(Chars(ts)) > maxBytes, value))
  {
    var n := PrefixChars(Chars(ts), maxBytes);
    CharsPrefix(ts, n);
    var kept := Kept(maxBytes, ByteLen(Chars(ts)[..n]), ByteLen(Chars(ts)) > maxBytes, value);
    KeptIsFit(Chars(ts), value, maxBytes);
    CharsTagged(ts, channel, value);
    TaggedPrefix(ts, n, channel, value, kept);
    CharsTagged(ts[..n], channel, kept);
    ByteLenAppend(Chars(ts[..n]), kept);
  }

  lemma {:induction false} TextGrows(channel: Channel, ts: seq<Tagged>, own: Channel, kept: string)
    ensures TextOf(channel, ts + Tag(own, kept)) == TextOf(channel, ts) + (if channel == own then kept else "")
  {
    TextOfConcat(channel, ts, Tag(own, kept));
    TextOfTag(channel, own, kept);
  }

  lemma {:induction false} AppendsOnly(c: Capture, channel: Channel, value: string, other: Channel)
    ensures TextAt(Append(c, channel, value), other)
         == TextAt(c, other) + (if other == channel then Kept(c.maxBytes, c.bytes, c.truncated, value) else "")
  {
  }

  /** A capture that holds the stream so far still does after one more text. */
  lemma {:induction false} HoldsOn(c: Capture, ts: seq<Tagged>, channel: Channel, value: string)
    requires Holds(c, ts)
    ensures Holds(Append(c, channel, value), ts + Tag(channel, value))
  {
    var n := PrefixChars(Chars(ts), c.maxBytes);
    PrefixGrows(ts, c.maxBytes, channel, value);
    forall other ensures TextAt(Append(c, channel, value), other)
                      == TextOf(other, ts[..n] + Tag(channel, Kept(c.maxBytes, c.bytes, c.truncated, value))) {
      TextGrows(other, ts[..n], channel, Kept(c.maxBytes, c.bytes, c.truncated, value));
      AppendsOnly(c, channel, value, other);
    }
  }

  lemma {:induction false} HoldsOnIfAny(c: Capture, ts: seq<Tagged>, channel: Channel, value: Option<string>)
    requires Holds(c, ts)
    ensures Holds(AppendIfAny(c, channel, value), ts + TagIfAny(channel, value))
  {
    if value.Some? {
      HoldsOn(c, ts, channel, value.value);
    } else {
      assert ts + Tag(channel, "") == ts;
    }
  }

  lemma {:induction false} HoldsSame(c: Capture, d: Capture, ts: seq<Tagged>)
    requires Holds(c, ts) && c.maxBytes == d.maxBytes && c.bytes == d.bytes && c.truncated == d.truncated
    requires forall channel :: TextAt(c, channel) == TextAt(d, channel)
    ensures Holds(d, ts)
  {
  }

  lemma {:induction false} HoldsOnCall(c: Capture, ts: seq<Tagged>, delta: ToolCallDelta)
    requires Holds(c, ts)
    ensures Holds(ObserveCall(c, delta), ts + TagIfAny(ArgumentsText(delta.index), delta.arguments))
  {
    HoldsSame(c, Identified(c, delta), ts);
    HoldsOnIfAny(Identified(c, delta), ts, ArgumentsText(delta.index), delta.arguments);
  }

  lemma {:induction false} HoldsOnCalls(c: Capture, ts: seq<Tagged>, deltas: seq<ToolCallDelta>)
    requires Holds(c, ts)
    ensures Holds(ObserveCalls(c, deltas), ts + CallsStream(deltas))
  {
    if deltas == [] {
      assert ts + [] == ts;
    } else {
      var before, last := deltas[..|deltas| - 1], deltas[|deltas| - 1];
      HoldsOnCalls(c, ts, before);
      HoldsOnCall(ObserveCalls(c, before), ts + CallsStream(before), last);
      Sequences.Associate(ts, CallsStream(before), TagIfAny(ArgumentsText(last.index), last.arguments));
    }
  }

  lemma {:induction false} HoldsOnTexts(c: Capture, ts: seq<Tagged>, chunk: Chunk)
    requires Holds(c, ts)
    ensures Holds(ObserveTexts(c, chunk), ts + TextStream(chunk))
  {
    var d := AppendIfAny(c, ContentText, chunk.contentDelta);
    HoldsOnIfAny(c, ts, ContentText, chunk.contentDelta);
    HoldsOnIfAny(d, ts + TagIfAny(ContentText, chunk.contentDelta), ThinkingText, chunk.thinkingDelta);
    Sequences.Associate(ts, TagIfAny(ContentText, chunk.contentDelta), TagIfAny(ThinkingText, chunk.thinkingDelta));
  }

  lemma {:induction false} HoldsNoted(c: Capture, ts: seq<Tagged>, chunk: Chunk)
    requires Holds(c, ts)
    ensures Holds(Noted(c, chunk), ts)
  {
    HoldsSame(c, Noted(c, chunk), ts);
  }

  lemma {:induction false} HoldsOnChunk(c: Capture, ts: seq<Tagged>, chunk: Chunk)
    requires Holds(c, ts)
    ensures Holds(Observe(c, chunk), ts + ChunkStream(chunk))
  {
    var d, us := ObserveTexts(c, chunk), ts + TextStream(chunk);
    HoldsOnTexts(c, ts, chunk);
    HoldsOnCalls(d, us, chunk.toolCalls);
    HoldsNoted(ObserveCalls(d, chunk.toolCalls), us + CallsStream(chunk.toolCalls), chunk);
    Sequences.Associate(ts, TextStream(chunk), CallsStream(chunk.toolCalls));
  }

  lemma {:induction false} CallsKeepBudget(c: Capture, deltas: seq<ToolCallDelta>)
    ensures ObserveCalls(c, deltas).maxBytes == c.maxBytes
  {
    if deltas != [] {
      CallsKeepBudget(c, deltas[..|deltas| - 1]);
    }
  }

  lemma {:induction false} BudgetKept(c: Capture, chunk: Chunk)
    ensures Observe(c, chunk).maxBytes == c.maxBytes
  {
    CallsKeepBudget(ObserveTexts(c, chunk), chunk.toolCalls);
  }

  /** After any chunks, a capture holds the longest prefix of whole characters of the stream that fits its budget, each
      text being its part of that prefix; it is truncated exactly when the stream is longer than the budget. */
  lemma {:induction false} CaptureExact(maxBytes: nat, chunks: seq<Chunk>)
    ensures Holds(ObserveAll(Empty(maxBytes), chunks), Stream(chunks))
    ensures ObserveAll(Empty(maxBytes), chunks).maxBytes == maxBytes
  {
    if chunks == [] {
      assert Chars([]) == "" && Stream(chunks)[..0] == [];
    } else {
      var before := chunks[..|chunks| - 1];
      CaptureExact(maxBytes, before);
      HoldsOnChunk(ObserveAll(Empty(maxBytes), before), Stream(before), chunks[|chunks| - 1]);
      BudgetKept(ObserveAll(Empty(maxBytes), before), chunks[|chunks| - 1]);
    }
  }

  // ---- what follows ----

  lemma {:induction false} RemovedSmaller(calls: map<u32, ToolCallDelta>, k: u32)
    requires k in calls
    ensures |calls - {k}| < |calls|
  {
    assert (calls - {k}).Keys == calls.Keys - {k};
  }

  /** Bytes of the argument texts. */
  ghost function ArgumentBytes(calls: map<u32, ToolCallDelta>): nat
    decreases |calls|
  {
    if calls == map[] then 0
    else
      var k :| k in calls;
      RemovedSmaller(calls, k);
      ByteLen(OrEmpty(calls[k].arguments)) + ArgumentBytes(calls - {k})
  }

  lemma {:induction false} ArgumentBytesWithout(calls: map<u32, ToolCallDelta>, k: u32)
    requires k in calls
    ensures ArgumentBytes(calls) == ByteLen(OrEmpty(calls[k].arguments)) + ArgumentBytes(calls - {k})
    decreases |calls|
  {
    var j :| j in calls && ArgumentBytes(calls) == ByteLen(OrEmpty(calls[j].arguments)) + ArgumentBytes(calls - {j});
    if j != k {
      RemovedSmaller(calls, j);
      ArgumentBytesWithout(calls - {j}, k);
      RemovedSmaller(calls, k);
      ArgumentBytesWithout(calls - {k}, j);
      assert calls - {j} - {k} == calls - {k} - {j};
    }
  }

  /** Replacing the text of one call. */
  lemma {:induction false} ArgumentBytesUpdated(calls: map<u32, ToolCallDelta>, k: u32, call: ToolCallDelta)
    ensures ArgumentBytes(calls[k := call]) + (if k in calls then ByteLen(OrEmpty(calls[k].arguments)) else 0)
         == ArgumentBytes(calls) + ByteLen(OrEmpty(call.arguments))
  {
    var updated := calls[k := call];
    ArgumentBytesWithout(updated, k);
    assert updated - {k} == calls - {k};
    if k in calls {
      ArgumentBytesWithout(calls, k);
    } else {
      assert calls - {k} == calls;
    }
  }

  /** The counted bytes are those of all texts together. */
  ghost predicate Counted(c: Capture) {
    c.bytes == ByteLen(c.content) + ByteLen(c.thinking) + ArgumentBytes(c.toolCalls)
  }

  lemma {:induction false} CountedOn(c: Capture, channel: Channel, value: Option<string>)
    requires Counted(c)
    ensures Counted(AppendIfAny(c, channel, value))
  {
    if value.Some? {
      var kept := Kept(c.maxBytes, c.bytes, c.truncated, value.value);
      var text := TextAt(c, channel) + kept;
      ByteLenAppend(TextAt(c, channel), kept);
      if channel.ArgumentsText? {
        ArgumentBytesUpdated(c.toolCalls, channel.index, CallAt(c, channel.index).(arguments := Some(text)));
      }
    }
  }

  lemma {:induction false} CountedOnCalls(c: Capture, deltas: seq<ToolCallDelta>)
    requires Counted(c)
    ensures Counted(ObserveCalls(c, deltas))
  {
    if deltas != [] {
      var before, last := ObserveCalls(c, deltas[..|deltas| - 1]), deltas[|deltas| - 1];
      CountedOnCalls(c, deltas[..|deltas| - 1]);
      ArgumentBytesUpdated(before.toolCalls, last.index, Identified(before, last).toolCalls[last.index]);
      CountedOn(Identified(before, last), ArgumentsText(last.index), last.arguments);
    }
  }

  lemma {:induction false} CountedAlways(maxBytes: nat, chunks: seq<Chunk>)
    ensures Counted(ObserveAll(Empty(maxBytes), chunks))
  {
    if chunks != [] {
      var c, chunk := ObserveAll(Empty(maxBytes), chunks[..|chunks| - 1]), chunks[|chunks| - 1];
      CountedAlways(maxBytes, chunks[..|chunks| - 1]);
      CountedOn(c, ContentText, chunk.contentDelta);
      var d := AppendIfAny(c, ContentText, chunk.contentDelta);
      CountedOn(d, ThinkingText, chunk.thinkingDelta);
      CountedOnCalls(AppendIfAny(d, ThinkingText, chunk.thinkingDelta), chunk.toolCalls);
    }
  }

  lemma {:induction false} TextOfPrefix(channel: Channel, ts: seq<Tagged>, n: nat)
    requires n <= |ts|
    ensures TextOf(channel, ts[..n]) <= TextOf(channel, ts)
  {
    TextOfConcat(channel, ts[..n], ts[n..]);
    assert ts == ts[..n] + ts[n..];
  }

  /** The budget is respected, every text is a prefix of what was streamed, a capture that is not truncated holds
      everything, and one that is leaves at most three bytes unused. */
  lemma {:induction false} CaptureBounded(maxBytes: nat, chunks: seq<Chunk>)
    ensures var c, ts := ObserveAll(Empty(maxBytes), chunks), Stream(chunks);
      && Counted(c) && c.bytes <= maxBytes
      && (forall channel :: TextAt(c, channel) <= TextOf(channel, ts))
      && (c.truncated <==> ByteLen(Chars(ts)) > maxBytes)
      && (!c.truncated ==> forall channel :: TextAt(c, channel) == TextOf(channel, ts))
      && (c.truncated ==> c.bytes + 3 >= maxBytes)
  {
    hide ObserveAll, Stream, Counted;
    var c, ts := ObserveAll(Empty(maxBytes), chunks), Stream(chunks);
    var n := PrefixChars(Chars(ts), maxBytes);
    CaptureExact(maxBytes, chunks);
    CountedAlways(maxBytes, chunks);
    PrefixCharsLongest(Chars(ts), maxBytes);
    CharsPrefix(ts, n);
    assert Chars(ts)[..|ts|] == Chars(ts) && ts[..|ts|] == ts;
    if n < |ts| {
      ByteLenStep(Chars(ts), n);
    }
    forall channel ensures TextAt(c, channel) <= TextOf(channel, ts) {
      TextOfPrefix(channel, ts, n);
    }
  }

  /** `d` is truncated, and holds the texts and the count `c` does. */
  ghost predicate Frozen(c: Capture, d: Capture) {
    d.truncated && d.bytes == c.bytes && forall channel :: TextAt(d, channel) == TextAt(c, channel)
  }

  lemma {:induction false} FrozenOn(c: Capture, d: Capture, channel: Channel, value: Option<string>)
    requires Frozen(c, d)
    ensures Frozen(c, AppendIfAny(d, channel, value))
  {
    if value.Some? {
      forall other ensures TextAt(AppendIfAny(d, channel, value), other) == TextAt(c, other) {
        AppendsOnly(d, channel, value.value, other);
      }
    }
  }

  lemma {:induction false} FrozenOnCalls(c: Capture, d: Capture, deltas: seq<ToolCallDelta>)
    requires Frozen(c, d)
    ensures Frozen(c, ObserveCalls(d, deltas))
  {
    if deltas != [] {
      var before, last := deltas[..|deltas| - 1], deltas[|deltas| - 1];
      FrozenOnCalls(c, d, before);
      FrozenOn(c, Identified(ObserveCalls(d, before), last), ArgumentsText(last.index), last.arguments);
    }
  }

  /** Once truncated, no text and no count changes any more. */
  lemma {:induction false} TruncatedStays(c: Capture, chunks: seq<Chunk>)
    requires c.truncated
    ensures Frozen(c, ObserveAll(c, chunks))
  {
    if chunks != [] {
      var d, chunk := ObserveAll(c, chunks[..|chunks| - 1]), chunks[|chunks| - 1];
      TruncatedStays(c, chunks[..|chunks| - 1]);
      var e := AppendIfAny(d, ContentText, chunk.contentDelta);
      FrozenOn(c, d, ContentText, chunk.contentDelta);
      FrozenOn(c, e, ThinkingText, chunk.thinkingDelta);
      FrozenOnCalls(c, AppendIfAny(e, ThinkingText, chunk.thinkingDelta), chunk.toolCalls);
    }
  }

  // ---- what is kept besides the texts ----

  function AllDeltas(chunks: seq<Chunk>): seq<ToolCallDelta> {
    if chunks == [] then [] else AllDeltas(chunks[..|chunks| - 1]) + chunks[|chunks| - 1].toolCalls
  }

  /** The last id and the last name given for an index. */
  function LastId(i: u32, deltas: seq<ToolCallDelta>): Option<string> {
    if deltas == [] then None
    else if deltas[|deltas| - 1].index == i && deltas[|deltas| - 1].id.Some? then deltas[|deltas| - 1].id
    else LastId(i, deltas[..|deltas| - 1])
  }

  function LastName(i: u32, deltas: seq<ToolCallDelta>): Option<string> {
    if deltas == [] then None
    else if deltas[|deltas| - 1].index == i && deltas[|deltas| - 1].name.Some? then deltas[|deltas| - 1].name
    else LastName(i, deltas[..|deltas| - 1])
  }

  predicate Mentions(i: u32, deltas: seq<ToolCallDelta>) {
    if deltas == [] then false else deltas[|deltas| - 1].index == i || Mentions(i, deltas[..|deltas| - 1])
  }

  /** The calls captured are those mentioned, each under its index with its last id and name. */
  ghost predicate Identifies(c: Capture, deltas: seq<ToolCallDelta>) {
    && (forall i: u32 :: i in c.toolCalls <==> Mentions(i, deltas))
    && (forall i | i in c.toolCalls ::
          && c.toolCalls[i].index == i
          && c.toolCalls[i].id == LastId(i, deltas) && c.toolCalls[i].name == LastName(i, deltas))
  }

  lemma {:induction false} NotMentioned(i: u32, deltas: seq<ToolCallDelta>)
    requires !Mentions(i, deltas)
    ensures LastId(i, deltas).None? && LastName(i, deltas).None?
  {
    if deltas != [] {
      NotMentioned(i, deltas[..|deltas| - 1]);
    }
  }

  lemma {:induction false} AppendKeepsIdentity(c: Capture, deltas: seq<ToolCallDelta>, channel: Channel,
                                                value: Option<string>)
    requires Identifies(c, deltas) && (channel.ArgumentsText? ==> Mentions(channel.index, deltas))
    ensures Identifies(AppendIfAny(c, channel, value), deltas)
  {
    hide LastId, LastName, Mentions, Kept, Overrun;
  }

  lemma {:induction false} IdentifiedMore(c: Capture, deltas: seq<ToolCallDelta>, delta: ToolCallDelta)
    requires Identifies(c, deltas)
    ensures Identifies(Identified(c, delta), deltas + [delta]) && Mentions(delta.index, deltas + [delta])
  {
    assert (deltas + [delta])[..|deltas|] == deltas;
    if delta.index !in c.toolCalls {
      NotMentioned(delta.index, deltas);
    }
  }

  lemma {:induction false} CallsIdentified(c: Capture, before: seq<ToolCallDelta>, deltas: seq<ToolCallDelta>)
    requires Identifies(c, before)
    ensures Identifies(ObserveCalls(c, deltas), before + deltas)
  {
    if deltas == [] {
      assert before + deltas == before;
    } else {
      hide Identifies, Mentions;
      var init, last := deltas[..|deltas| - 1], deltas[|deltas| - 1];
      CallsIdentified(c, before, init);
      IdentifiedMore(ObserveCalls(c, init), before + init, last);
      AppendKeepsIdentity(Identified(ObserveCalls(c, init), last), before + init + [last], ArgumentsText(last.index),
                          last.arguments);
      assert before + deltas == before + init + [last];
    }
  }

  lemma {:induction false} NotedIdentifies(c: Capture, deltas: seq<ToolCallDelta>, chunk: Chunk)
    requires Identifies(c, deltas)
    ensures Identifies(Noted(c, chunk), deltas)
  {
    hide LastId, LastName, Mentions;
  }

  /** After any chunks: the calls by index, each with the last id and name given for it. */
  lemma {:induction false} CaptureIdentifies(maxBytes: nat, chunks: seq<Chunk>)
    ensures Identifies(ObserveAll(Empty(maxBytes), chunks), AllDeltas(chunks))
  {
    if chunks != [] {
      hide Identifies;
      var c, chunk := ObserveAll(Empty(maxBytes), chunks[..|chunks| - 1]), chunks[|chunks| - 1];
      var deltas := AllDeltas(chunks[..|chunks| - 1]);
      CaptureIdentifies(maxBytes, chunks[..|chunks| - 1]);
      AppendKeepsIdentity(c, deltas, ContentText, chunk.contentDelta);
      AppendKeepsIdentity(AppendIfAny(c, ContentText, chunk.contentDelta), deltas, ThinkingText, chunk.thinkingDelta);
      CallsIdentified(ObserveTexts(c, chunk), deltas, chunk.toolCalls);
      NotedIdentifies(ObserveCalls(ObserveTexts(c, chunk), chunk.toolCalls), deltas + chunk.toolCalls, chunk);
    }
  }

  function LastFinish(chunks: seq<Chunk>): Option<FinishReason> {
    if chunks == [] then None
    else if chunks[|chunks| - 1].finishReason.Some? then chunks[|chunks| - 1].finishReason
    else LastFinish(chunks[..|chunks| - 1])
  }

  function LastMetadata(chunks: seq<Chunk>): Option<ProviderMetadata> {
    if chunks == [] then None
    else if chunks[|chunks| - 1].metadata.Some? then chunks[|chunks| - 1].metadata
    else LastMetadata(chunks[..|chunks| - 1])
  }

  lemma {:induction false} CallsNoteNothing(c: Capture, deltas: seq<ToolCallDelta>)
    ensures ObserveCalls(c, deltas).finishReason == c.finishReason && ObserveCalls(c, deltas).metadata == c.metadata
  {
    if deltas != [] {
      CallsNoteNothing(c, deltas[..|deltas| - 1]);
    }
  }

  /** After any chunks: the last finish reason and the last metadata any of them had. */
  lemma {:induction false} CaptureNotes(maxBytes: nat, chunks: seq<Chunk>)
    ensures var c := ObserveAll(Empty(maxBytes), chunks);
      c.finishReason == LastFinish(chunks) && c.metadata == LastMetadata(chunks)
  {
    if chunks != [] {
      var c, chunk := ObserveAll(Empty(maxBytes), chunks[..|chunks| - 1]), chunks[|chunks| - 1];
      CaptureNotes(maxBytes, chunks[..|chunks| - 1]);
      CallsNoteNothing(ObserveTexts(c, chunk), chunk.toolCalls);
    }
  }
}
