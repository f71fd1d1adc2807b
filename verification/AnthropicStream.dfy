/** Reading an Anthropic event stream, whose content blocks may interleave freely. */
module AnthropicStream {
  import opened Wrappers
  import opened Protocol
  import opened StreamChunks
  import opened ToolNames
  import Sequences

  /** A tool_use block being streamed; `input` is the initial input as JSON text. */
  datatype ToolUseBuf = ToolUseBuf(id: Option<string>, name: Option<string>, input: Option<string>, partialJson: string)

  datatype ThinkingBuf = ThinkingBuf(thinking: string, signature: Option<string>)

  /** Usage at the start of a message. */
  datatype StartUsage = StartUsage(input: u32, output: u32, cacheRead: Option<u32>)

  /** Stream events as their JSON parses. An absent field is `None`; other block and delta types carry nothing. */
  datatype Event =
    | MessageStart(id: string, model: string, startUsage: Option<StartUsage>)
    | ToolUseStart(index: u32, toolId: Option<string>, wireName: Option<string>, input: Option<string>)
    | ThinkingStart(index: u32, startThinking: Option<string>, startSignature: Option<string>)
    | TextStart(index: u32, startText: Option<string>)
    | OtherStart(index: u32)
    | TextDelta(index: u32, text: Option<string>)
    | InputJsonDelta(index: u32, partialJson: Option<string>)
    | ThinkingDelta(index: u32, thinking: Option<string>)
    | SignatureDelta(index: u32, signature: Option<string>)
    | OtherDelta(index: u32)
    | BlockStop(index: u32)
    | MessageDelta(stopReason: Option<string>, outputTokens: Option<Option<u32>>)
    | MessageStop
    | Ping
    | Unknown
    | ErrorEvent(message: string)
    | Malformed(reason: string)

  datatype Action = Nothing | Emit(chunk: Chunk) | Stop | Fail(error: string)

  datatype StreamState = StreamState(
    id: string,
    model: string,
    usage: Option<TokenUsage>,
    thinkingBlocks: map<u32, ThinkingBuf>,
    toolUses: map<u32, ToolUseBuf>)

  function Fresh(model: string): StreamState {
    StreamState("", model, None, map[], map[])
  }

  // ---- what every chunk carries ----

  ghost predicate Least(k: u32, keys: set<u32>) {
    k in keys && forall j | j in keys :: k <= j
  }

  lemma {:induction false} MinExists(keys: set<u32>)
    requires keys != {}
    ensures exists k :: Least(k, keys)
  {
    var k :| k in keys;
    var rest := keys - {k};
    if rest == {} {
      assert keys == {k};
      assert Least(k, keys);
    } else {
      MinExists(rest);
      var m :| Least(m, rest);
      var least := if m <= k then m else k;
      forall j | j in keys ensures least <= j {
        assert j == k || j in rest;
      }
      assert Least(least, keys);
    }
  }

  function Min(keys: set<u32>): (k: u32)
    requires keys != {}
    ensures k in keys && forall j :: j in keys ==> k <= j
  {
    MinExists(keys);
    var k :| k in keys && forall j :: j in keys ==> k <= j;
    k
  }

  function BlockOf(buf: ThinkingBuf): ThinkingBlock {
    ThinkingBlock(Some("thinking"), Some(buf.thinking),
                  if buf.signature.Some? && buf.signature.value != "" then buf.signature else None)
  }

  /** The thinking blocks that are not blank, by ascending index. */
  function Blocks(bufs: map<u32, ThinkingBuf>): seq<ThinkingBlock>
    decreases |bufs|
  {
    if bufs == map[] then []
    else
      var k := Min(bufs.Keys);
      var rest := bufs - {k};
      assert |rest| < |bufs| by {
        assert rest.Keys == bufs.Keys - {k};
      }
      if IsBlank(bufs[k].thinking) then Blocks(rest) else [BlockOf(bufs[k])] + Blocks(rest)
  }

  function MetadataOf(bufs: map<u32, ThinkingBuf>): Option<ProviderMetadata> {
    if Blocks(bufs) == [] then None else Some(Anthropic(Blocks(bufs)))
  }

  function Bare(s: StreamState): Chunk {
    Chunk(s.id, s.model, None, None, [], None, None, MetadataOf(s.thinkingBlocks))
  }

  // ---- one event ----

  function InternalNames(wireName: Option<string>): Option<string> {
    if wireName.Some? then Some(InternalName(wireName.value)) else None
  }

  function NonEmpty(s: Option<string>): Option<string> {
    if s.Some? && s.value != "" then s else None
  }

  function ThinkingAt(s: StreamState, index: u32): ThinkingBuf {
    if index in s.thinkingBlocks then s.thinkingBlocks[index] else ThinkingBuf("", None)
  }

  function ToolUseAt(s: StreamState, index: u32): ToolUseBuf {
    if index in s.toolUses then s.toolUses[index] else ToolUseBuf(None, None, None, "")
  }

  /** The pieces, or the initial input when they are blank, or an empty object when there is none. */
  function Arguments(pieces: string, input: Option<string>): string {
    if !IsBlank(pieces) then pieces else if input.Some? then input.value else "{}"
  }

  function Finish(reason: string): FinishReason {
    if reason == "end_turn" then Stopped
    else if reason == "stop_sequence" then StopSequence
    else if reason == "max_tokens" then Length
    else if reason == "tool_use" then ToolCallsDue
    else if reason == "refusal" then Refusal
    else if reason == "pause_turn" then PauseTurn
    else Other(reason)
  }

  function InitialUsage(u: StartUsage): TokenUsage {
    TokenUsage(u.input, u.output, SatAdd32(u.input, u.output),
               if u.cacheRead.Some? && u.cacheRead.value > 0 then Some(u.cacheRead.value) else None)
  }

  function UpdatedUsage(usage: Option<TokenUsage>, output: Option<u32>): TokenUsage {
    var current := if usage.Some? then usage.value else TokenUsage(0, 0, 0, None);
    var completion := if output.Some? then output.value else current.completionTokens;
    current.(completionTokens := completion, totalTokens := SatAdd32(current.promptTokens, completion))
  }

  /** The state after an event. */
  function Next(s: StreamState, e: Event): StreamState {
    match e
    case MessageStart(id, model, usage) =>
      s.(id := id, model := model, usage := if usage.Some? then Some(InitialUsage(usage.value)) else s.usage)
    case ToolUseStart(i, id, name, input) =>
      s.(toolUses := s.toolUses[i := ToolUseBuf(id, InternalNames(name), input, "")])
    case ThinkingStart(i, thinking, signature) =>
      s.(thinkingBlocks := s.thinkingBlocks[i := ThinkingBuf(OrEmpty(thinking), NonEmpty(signature))])
    case InputJsonDelta(i, Some(piece)) =>
      var buf := ToolUseAt(s, i);
      s.(toolUses := s.toolUses[i := buf.(partialJson := buf.partialJson + piece)])
    case ThinkingDelta(i, Some(piece)) =>
      var buf := ThinkingAt(s, i);
      s.(thinkingBlocks := s.thinkingBlocks[i := buf.(thinking := buf.thinking + piece)])
    case SignatureDelta(i, Some(piece)) =>
      var buf := ThinkingAt(s, i);
      s.(thinkingBlocks := s.thinkingBlocks[i := buf.(signature := Some(OrEmpty(buf.signature) + piece))])
    case BlockStop(i) =>
      if i in s.thinkingBlocks then s else s.(toolUses := s.toolUses - {i})
    case MessageDelta(_, Some(output)) => s.(usage := Some(UpdatedUsage(s.usage, output)))
    case _ => s
  }

  /** What an event makes the reader do, given the state after it and the tool uses before. */
  function Response(before: map<u32, ToolUseBuf>, s: StreamState, e: Event): Action {
    match e
    case TextStart(_, Some(text)) => if text == "" then Nothing else Emit(Bare(s).(contentDelta := Some(text)))
    case TextDelta(_, Some(text)) => Emit(Bare(s).(contentDelta := Some(text)))
    case ThinkingDelta(_, Some(piece)) => Emit(Bare(s).(thinkingDelta := Some(piece)))
    case BlockStop(i) =>
      if i in s.thinkingBlocks || i !in before then Nothing
      else
        var buf := before[i];
        Emit(Bare(s).(toolCalls := [ToolCallDelta(i, buf.id, buf.name, Some(Arguments(buf.partialJson, buf.input)))]))
    case MessageDelta(reason, _) =>
      if reason.None? && s.usage.None? then Nothing
      else Emit(Bare(s).(finishReason := if reason.Some? then Some(Finish(reason.value)) else None, usage := s.usage))
    case MessageStop => Stop
    case ErrorEvent(message) => Fail(message)
    case Malformed(reason) => Fail(reason)
    case _ => Nothing
  }

  // ---- the reader ----

  class AnthropicStreamState {
    var id: string
    var model: string
    var usage: Option<TokenUsage>
    var thinkingBlocks: map<u32, ThinkingBuf>
    var toolUses: map<u32, ToolUseBuf>

    function Value(): StreamState
      reads this
    {
      StreamState(id, model, usage, thinkingBlocks, toolUses)
    }

    constructor (model: string)
      ensures Value() == Fresh(model)
    {
      this.id, this.model, this.usage, this.thinkingBlocks, this.toolUses := "", model, None, map[], map[];
    }

    method ProviderMetadata() returns (metadata: Option<ProviderMetadata>)
      ensures metadata == MetadataOf(thinkingBlocks)
    {
      var blocks, rest := [], thinkingBlocks;
      while rest != map[]
        invariant Blocks(thinkingBlocks) == blocks + Blocks(rest)
        decreases |rest|
      {
        var k := Min(rest.Keys);
        var later := rest - {k};
        assert later.Keys == rest.Keys - {k};
        if !IsBlank(rest[k].thinking) {
          Sequences.Associate(blocks, [BlockOf(rest[k])], Blocks(later));
          blocks := blocks + [BlockOf(rest[k])];
        }
        rest := later;
      }
      assert blocks + [] == blocks;
      metadata := if blocks == [] then None else Some(Anthropic(blocks));
    }

    method NewChunk() returns (chunk: Chunk)
      ensures chunk == Bare(Value())
    {
      var metadata := ProviderMetadata();
      chunk := Chunk(id, model, None, None, [], None, None, metadata);
    }

    method HandleStreamEvent(e: Event) returns (action: Action)
      modifies this
      ensures Value() == Next(old(Value()), e)
      ensures action == Response(old(toolUses), Value(), e)
    {
      hide MetadataOf, Finish, Arguments, InitialUsage, UpdatedUsage, InternalNames, NonEmpty;
      match e
      case MessageStart(newId, newModel, startUsage) =>
        id, model := newId, newModel;
        if startUsage.Some? {
          usage := Some(InitialUsage(startUsage.value));
        }
        return Nothing;
      case ToolUseStart(i, toolId, wireName, input) =>
        toolUses := toolUses[i := ToolUseBuf(toolId, InternalNames(wireName), input, "")];
        return Nothing;
      case ThinkingStart(i, thinking, signature) =>
        thinkingBlocks := thinkingBlocks[i := ThinkingBuf(OrEmpty(thinking), NonEmpty(signature))];
        return Nothing;
      case TextStart(_, text) =>
        if text.None? || text.value == "" {
          return Nothing;
        }
        var chunk := NewChunk();
        return Emit(chunk.(contentDelta := text));
      case TextDelta(_, text) =>
        if text.None? {
          return Nothing;
        }
        var chunk := NewChunk();
        return Emit(chunk.(contentDelta := text));
      case InputJsonDelta(i, piece) =>
        if piece.Some? {
          var buf := if i in toolUses then toolUses[i] else ToolUseBuf(None, None, None, "");
          toolUses := toolUses[i := buf.(partialJson := buf.partialJson + piece.value)];
        }
        return Nothing;
      case ThinkingDelta(i, piece) =>
        if piece.None? {
          return Nothing;
        }
        var buf := if i in thinkingBlocks then thinkingBlocks[i] else ThinkingBuf("", None);
        thinkingBlocks := thinkingBlocks[i := buf.(thinking := buf.thinking + piece.value)];
        var chunk := NewChunk();
        return Emit(chunk.(thinkingDelta := piece));
      case SignatureDelta(i, piece) =>
        if piece.Some? {
          var buf := if i in thinkingBlocks then thinkingBlocks[i] else ThinkingBuf("", None);
          thinkingBlocks := thinkingBlocks[i := buf.(signature := Some(OrEmpty(buf.signature) + piece.value))];
        }
        return Nothing;
      case BlockStop(i) =>
        action := HandleBlockStop(i);
      case MessageDelta(reason, delta) =>
        if delta.Some? {
          usage := Some(UpdatedUsage(usage, delta.value));
        }
        if reason.None? && usage.None? {
          return Nothing;
        }
        var chunk := NewChunk();
        return Emit(chunk.(finishReason := if reason.Some? then Some(Finish(reason.value)) else None, usage := usage));
      case MessageStop => return Stop;
      case ErrorEvent(message) => return Fail(message);
      case Malformed(reason) => return Fail(reason);
      case OtherStart(_) => return Nothing;
      case OtherDelta(_) => return Nothing;
      case Ping => return Nothing;
      case Unknown => return Nothing;
    }

    method HandleBlockStop(i: u32) returns (action: Action)
      modifies this
      ensures Value() == Next(old(Value()), BlockStop(i))
      ensures action == Response(old(toolUses), Value(), BlockStop(i))
    {
      if i in thinkingBlocks {
        return Nothing;
      }
      if i !in toolUses {
        assert toolUses - {i} == toolUses;
        return Nothing;
      }
      var buf := toolUses[i];
      toolUses := toolUses - {i};
      var chunk := NewChunk();
      var arguments := Arguments(buf.partialJson, buf.input);
      return Emit(chunk.(toolCalls := [ToolCallDelta(i, buf.id, buf.name, Some(arguments))]));
    }
  }

  // ---- whole streams ----

  function Act(s: StreamState, e: Event): Action {
    Response(s.toolUses, Next(s, e), e)
  }

  function After(s: StreamState, events: seq<Event>): StreamState {
    if events == [] then s else Next(After(s, events[..|events| - 1]), events[|events| - 1])
  }

  function ChunkOf(a: Action): seq<Chunk> {
    if a.Emit? then [a.chunk] else []
  }

  /** The chunks events give, in order. */
  function Chunks(s: StreamState, events: seq<Event>): seq<Chunk> {
    if events == [] then []
    else
      var before, e := events[..|events| - 1], events[|events| - 1];
      Chunks(s, before) + ChunkOf(Act(After(s, before), e))
  }

  predicate Terminal(e: Event) {
    e.MessageStop? || e.ErrorEvent? || e.Malformed?
  }

  /** The events up to the first that ends the stream. */
  function Handled(events: seq<Event>): (n: nat)
    ensures n <= |events|
    ensures forall i | 0 <= i < n :: !Terminal(events[i])
    ensures n < |events| ==> Terminal(events[n])
  {
    if events == [] || Terminal(events[0]) then 0 else 1 + Handled(events[1..])
  }

  function ErrorOf(e: Event): Option<string> {
    match e
    case ErrorEvent(message) => Some(message)
    case Malformed(reason) => Some(reason)
    case _ => None
  }

  lemma {:induction false} HandledIs(events: seq<Event>, n: nat)
    requires n <= |events| && (forall i | 0 <= i < n :: !Terminal(events[i])) && (n < |events| ==> Terminal(events[n]))
    ensures Handled(events) == n
  {
  }

  lemma {:induction false} Push(s: StreamState, events: seq<Event>, n: nat)
    requires n < |events|
    ensures After(s, events[..n + 1]) == Next(After(s, events[..n]), events[n])
    ensures Chunks(s, events[..n + 1]) == Chunks(s, events[..n]) + ChunkOf(Act(After(s, events[..n]), events[n]))
  {
    assert events[..n + 1][..n] == events[..n];
  }

  lemma {:induction false} TerminalEnds(s: StreamState, e: Event)
    ensures var a := Act(s, e);
      && (Terminal(e) <==> a.Stop? || a.Fail?)
      && (Terminal(e) ==> Next(s, e) == s && ErrorOf(e) == if a.Fail? then Some(a.error) else None)
      && (!Terminal(e) ==> ErrorOf(e) == None)
  {
  }

  /** Reads events until one ends the stream. */
  method ReadStream(state: AnthropicStreamState, events: seq<Event>) returns (chunks: seq<Chunk>, error: Option<string>)
    modifies state
    ensures var n := Handled(events);
      && state.Value() == After(old(state.Value()), events[..n])
      && chunks == Chunks(old(state.Value()), events[..n])
      && error == if n < |events| then ErrorOf(events[n]) else None
  {
    ghost var start := state.Value();
    chunks := [];
    for n := 0 to |events|
      invariant state.Value() == After(start, events[..n]) && chunks == Chunks(start, events[..n])
      invariant forall i | 0 <= i < n :: !Terminal(events[i])
    {
      Push(start, events, n);
      TerminalEnds(After(start, events[..n]), events[n]);
      var action := state.HandleStreamEvent(events[n]);
      if action.Stop? || action.Fail? {
        HandledIs(events, n);
        return chunks, if action.Fail? then Some(action.error) else None;
      }
      if action.Emit? {
        chunks := chunks + [action.chunk];
      }
    }
    HandledIs(events, |events|);
    return chunks, None;
  }

  // ---- demultiplexing ----

  /** The content block an event belongs to. */
  function BlockIndex(e: Event): Option<u32> {
    match e
    case ToolUseStart(i, _, _, _) => Some(i)
    case ThinkingStart(i, _, _) => Some(i)
    case TextStart(i, _) => Some(i)
    case OtherStart(i) => Some(i)
    case TextDelta(i, _) => Some(i)
    case InputJsonDelta(i, _) => Some(i)
    case ThinkingDelta(i, _) => Some(i)
    case SignatureDelta(i, _) => Some(i)
    case OtherDelta(i) => Some(i)
    case BlockStop(i) => Some(i)
    case _ => None
  }

  function Projected(i: u32, events: seq<Event>): seq<Event> {
    if events == [] then []
    else
      var before, e := Projected(i, events[..|events| - 1]), events[|events| - 1];
      if BlockIndex(e) == Some(i) then before + [e] else before
  }

  function CallsAmong(i: u32, calls: seq<ToolCallDelta>): seq<ToolCallDelta> {
    if calls == [] then []
    else if calls[0].index == i then [calls[0]] + CallsAmong(i, calls[1..])
    else CallsAmong(i, calls[1..])
  }

  /** The tool calls of one index among some chunks. */
  function CallsFor(i: u32, chunks: seq<Chunk>): seq<ToolCallDelta> {
    if chunks == [] then []
    else CallsFor(i, chunks[..|chunks| - 1]) + CallsAmong(i, chunks[|chunks| - 1].toolCalls)
  }

  lemma {:induction false} CallsForPush(i: u32, chunks: seq<Chunk>, a: Action)
    ensures CallsFor(i, chunks + ChunkOf(a)) == CallsFor(i, chunks) + CallsFor(i, ChunkOf(a))
  {
    if a.Emit? {
      assert (chunks + [a.chunk])[..|chunks|] == chunks;
      assert CallsFor(i, [a.chunk]) == [] + CallsAmong(i, a.chunk.toolCalls);
    } else {
      assert chunks + [] == chunks;
    }
  }

  /** Two states hold the same for one block. */
  ghost predicate SameBlock(i: u32, s: StreamState, t: StreamState) {
    && (i in s.thinkingBlocks <==> i in t.thinkingBlocks)
    && (i in s.thinkingBlocks ==> s.thinkingBlocks[i] == t.thinkingBlocks[i])
    && (i in s.toolUses <==> i in t.toolUses)
    && (i in s.toolUses ==> s.toolUses[i] == t.toolUses[i])
  }

  lemma {:induction false} OtherBlocksUntouched(i: u32, s: StreamState, e: Event)
    requires BlockIndex(e) != Some(i)
    ensures SameBlock(i, s, Next(s, e))
  {
  }

  lemma {:induction false} CallsOfAction(i: u32, a: Action)
    ensures CallsFor(i, ChunkOf(a)) == if a.Emit? then CallsAmong(i, a.chunk.toolCalls) else []
  {
    if a.Emit? {
      assert [a.chunk][..0] == [];
    }
  }

  lemma {:induction false} NoCallElsewhere(i: u32, s: StreamState, e: Event)
    requires BlockIndex(e) != Some(i)
    ensures CallsFor(i, ChunkOf(Act(s, e))) == []
  {
    CallsOfAction(i, Act(s, e));
  }

  lemma {:induction false} SameBlockSameStep(i: u32, s: StreamState, t: StreamState, e: Event)
    requires SameBlock(i, s, t) && BlockIndex(e) == Some(i)
    ensures SameBlock(i, Next(s, e), Next(t, e))
  {
  }

  lemma {:induction false} SameBlockSameCalls(i: u32, s: StreamState, t: StreamState, e: Event)
    requires SameBlock(i, s, t) && BlockIndex(e) == Some(i)
    ensures CallsFor(i, ChunkOf(Act(s, e))) == CallsFor(i, ChunkOf(Act(t, e)))
  {
    CallsOfAction(i, Act(s, e));
    CallsOfAction(i, Act(t, e));
  }

  /** Whatever interleaves with the events of a block, its calls and its buffers come from its own events only. */
  lemma {:induction false} Demultiplexes(i: u32, s: StreamState, events: seq<Event>)
    ensures SameBlock(i, After(s, events), After(s, Projected(i, events)))
    ensures CallsFor(i, Chunks(s, events)) == CallsFor(i, Chunks(s, Projected(i, events)))
  {
    if events != [] {
      var before, e := events[..|events| - 1], events[|events| - 1];
      var own := Projected(i, before);
      Demultiplexes(i, s, before);
      CallsForPush(i, Chunks(s, before), Act(After(s, before), e));
      if BlockIndex(e) == Some(i) {
        assert (own + [e])[..|own|] == own;
        CallsForPush(i, Chunks(s, own), Act(After(s, own), e));
        SameBlockSameStep(i, After(s, before), After(s, own), e);
        SameBlockSameCalls(i, After(s, before), After(s, own), e);
      } else {
        OtherBlocksUntouched(i, After(s, before), e);
        NoCallElsewhere(i, After(s, before), e);
      }
    }
  }

  // ---- what a block's call is ----

  predicate MarksThinking(i: u32, e: Event) {
    || (e.ThinkingStart? && e.index == i)
    || (e.ThinkingDelta? && e.index == i && e.thinking.Some?)
    || (e.SignatureDelta? && e.index == i && e.signature.Some?)
  }

  predicate IsStart(i: u32, e: Event) {
    e.ToolUseStart? && e.index == i
  }

  predicate IsPiece(i: u32, e: Event) {
    e.InputJsonDelta? && e.index == i && e.partialJson.Some?
  }

  predicate IsStop(i: u32, e: Event) {
    e.BlockStop? && e.index == i
  }

  /** The JSON pieces of a block, in order. */
  function Pieces(i: u32, events: seq<Event>): string {
    if events == [] then ""
    else
      var before, e := Pieces(i, events[..|events| - 1]), events[|events| - 1];
      if IsPiece(i, e) then before + e.partialJson.value else before
  }

  /** Nothing that starts or stops the block, or makes it a thinking block. */
  ghost predicate Inside(i: u32, events: seq<Event>) {
    forall k | 0 <= k < |events| :: !IsStart(i, events[k]) && !IsStop(i, events[k]) && !MarksThinking(i, events[k])
  }

  lemma {:induction false} InsideStep(i: u32, s: StreamState, e: Event)
    requires i in s.toolUses && i !in s.thinkingBlocks && Inside(i, [e])
    ensures var t := Next(s, e);
      && i in t.toolUses && i !in t.thinkingBlocks
      && t.toolUses[i] == if IsPiece(i, e) then Appended(s.toolUses[i], e.partialJson.value) else s.toolUses[i]
    ensures CallsFor(i, ChunkOf(Act(s, e))) == []
  {
    assert !IsStart(i, [e][0]) && !IsStop(i, [e][0]) && !MarksThinking(i, [e][0]);
    CallsOfAction(i, Act(s, e));
  }

  function Appended(buf: ToolUseBuf, piece: string): ToolUseBuf {
    buf.(partialJson := buf.partialJson + piece)
  }

  /** From a state where the block is started, only pieces change it, and no call comes of it. */
  lemma {:induction false} PiecesCollect(i: u32, s: StreamState, mid: seq<Event>)
    requires i in s.toolUses && i !in s.thinkingBlocks && Inside(i, mid)
    ensures var t := After(s, mid);
      && i in t.toolUses && i !in t.thinkingBlocks
      && t.toolUses[i] == Appended(s.toolUses[i], Pieces(i, mid))
    ensures CallsFor(i, Chunks(s, mid)) == []
  {
    if mid != [] {
      var before, e := mid[..|mid| - 1], mid[|mid| - 1];
      PiecesCollect(i, s, before);
      CallsForPush(i, Chunks(s, before), Act(After(s, before), e));
      InsideStep(i, After(s, before), e);
      if IsPiece(i, e) {
        Sequences.Associate(s.toolUses[i].partialJson, Pieces(i, before), e.partialJson.value);
      }
    }
  }

  lemma {:induction false} AfterConcat(s: StreamState, a: seq<Event>, b: seq<Event>)
    ensures After(s, a + b) == After(After(s, a), b)
    ensures Chunks(s, a + b) == Chunks(s, a) + Chunks(After(s, a), b)
  {
    if b == [] {
      assert a + b == a;
    } else {
      var init, e := b[..|b| - 1], b[|b| - 1];
      AfterConcat(s, a, init);
      assert (a + b)[..|a + b| - 1] == a + init;
      Sequences.Associate(Chunks(s, a), Chunks(After(s, a), init), ChunkOf(Act(After(s, a + init), e)));
    }
  }

  lemma {:induction false} CallsForConcat(i: u32, a: seq<Chunk>, b: seq<Chunk>)
    ensures CallsFor(i, a + b) == CallsFor(i, a) + CallsFor(i, b)
  {
    if b == [] {
      assert a + b == a;
    } else {
      CallsForConcat(i, a, b[..|b| - 1]);
      assert (a + b)[..|a + b| - 1] == a + b[..|b| - 1];
    }
  }

  lemma {:induction false} OneEvent(s: StreamState, e: Event)
    ensures After(s, [e]) == Next(s, e) && Chunks(s, [e]) == ChunkOf(Act(s, e))
  {
    assert [e][..0] == [];
  }

  /** What a block holds before its stop. */
  lemma {:induction false} BlockHolds(s: StreamState, start: Event, mid: seq<Event>, i: u32)
    requires IsStart(i, start) && i !in s.thinkingBlocks && Inside(i, mid)
    ensures var t := After(s, [start] + mid);
      && i in t.toolUses && i !in t.thinkingBlocks
      && t.toolUses[i] == ToolUseBuf(start.toolId, InternalNames(start.wireName), start.input, Pieces(i, mid))
    ensures CallsFor(i, Chunks(s, [start] + mid)) == []
  {
    var started := Next(s, start);
    OneEvent(s, start);
    CallsOfAction(i, Act(s, start));
    AfterConcat(s, [start], mid);
    PiecesCollect(i, started, mid);
    assert "" + Pieces(i, mid) == Pieces(i, mid);
    CallsForConcat(i, Chunks(s, [start]), Chunks(started, mid));
  }

  lemma {:induction false} StopAlone(s: StreamState, i: u32)
    requires i in s.toolUses && i !in s.thinkingBlocks
    ensures var buf := s.toolUses[i];
      CallsFor(i, Chunks(s, [BlockStop(i)]))
      == [ToolCallDelta(i, buf.id, buf.name, Some(Arguments(buf.partialJson, buf.input)))]
    ensures i !in After(s, [BlockStop(i)]).toolUses
  {
    var stop := BlockStop(i);
    OneEvent(s, stop);
    CallsOfAction(i, Act(s, stop));
    var calls := Act(s, stop).chunk.toolCalls;
    assert calls[1..] == [];
  }

  lemma {:induction false} StopGivesCall(s: StreamState, events: seq<Event>, i: u32)
    requires var t := After(s, events); i in t.toolUses && i !in t.thinkingBlocks
    requires CallsFor(i, Chunks(s, events)) == []
    ensures var buf := After(s, events).toolUses[i];
      CallsFor(i, Chunks(s, events + [BlockStop(i)]))
      == [ToolCallDelta(i, buf.id, buf.name, Some(Arguments(buf.partialJson, buf.input)))]
    ensures i !in After(s, events + [BlockStop(i)]).toolUses
  {
    var t := After(s, events);
    StopAlone(t, i);
    AfterConcat(s, events, [BlockStop(i)]);
    CallsForConcat(i, Chunks(s, events), Chunks(t, [BlockStop(i)]));
  }

  /** The name a call comes out with: the wire name but for the one that is renamed. */
  ghost predicate Named(name: Option<string>, wireName: Option<string>) {
    && (wireName.None? ==> name.None?)
    && (wireName == Some("kiliax_web_search") ==> name == Some("web_search"))
    && (wireName != Some("kiliax_web_search") ==> name == wireName)
  }

  /** The pieces unless they are all white space; then the initial input, or an empty object without one. */
  ghost predicate GivenArguments(arguments: Option<string>, pieces: string, input: Option<string>) {
    if exists k | 0 <= k < |pieces| :: !IsWhitespace(pieces[k]) then arguments == Some(pieces)
    else if input.Some? then arguments == input
    else arguments == Some("{}")
  }

  lemma {:induction false} NameIsNamed(wireName: Option<string>)
    ensures Named(InternalNames(wireName), wireName)
  {
  }

  lemma {:induction false} ArgumentsAreGiven(pieces: string, input: Option<string>)
    ensures GivenArguments(Some(Arguments(pieces, input)), pieces, input)
  {
  }

  /** A tool_use block gives one call, at its stop, with its id and name, and its pieces in order or its initial input
      when they are blank; whatever came before, and whatever comes in between for other blocks. */
  lemma {:induction false} BlockGivesItsCall(s: StreamState, start: Event, mid: seq<Event>, i: u32)
    requires IsStart(i, start) && i !in s.thinkingBlocks && Inside(i, mid)
    ensures CallsFor(i, Chunks(s, [start] + mid)) == []
    ensures var calls := CallsFor(i, Chunks(s, [start] + mid + [BlockStop(i)]));
      && |calls| == 1 && calls[0].index == i && calls[0].id == start.toolId
      && Named(calls[0].name, start.wireName)
      && GivenArguments(calls[0].arguments, Pieces(i, mid), start.input)
    ensures i !in After(s, [start] + mid + [BlockStop(i)]).toolUses
  {
    hide Next, Response, Pieces, Arguments, InternalNames, Named, GivenArguments;
    BlockHolds(s, start, mid, i);
    StopGivesCall(s, [start] + mid, i);
    NameIsNamed(start.wireName);
    ArgumentsAreGiven(Pieces(i, mid), start.input);
  }

  lemma {:induction false} ThinkingStays(i: u32, s: StreamState, e: Event)
    requires i in s.thinkingBlocks
    ensures i in Next(s, e).thinkingBlocks && CallsFor(i, ChunkOf(Act(s, e))) == []
  {
    CallsOfAction(i, Act(s, e));
  }

  /** Once an index is a thinking block no call comes of it. */
  lemma {:induction false} ThinkingGivesNoCall(i: u32, s: StreamState, events: seq<Event>)
    requires i in s.thinkingBlocks
    ensures i in After(s, events).thinkingBlocks && CallsFor(i, Chunks(s, events)) == []
  {
    if events != [] {
      var before, e := events[..|events| - 1], events[|events| - 1];
      ThinkingGivesNoCall(i, s, before);
      CallsForPush(i, Chunks(s, before), Act(After(s, before), e));
      ThinkingStays(i, After(s, before), e);
    }
  }

  // ---- once per start ----

  /** Whether a tool_use block of an index is under way. */
  predicate Open(i: u32, events: seq<Event>) {
    if events == [] then false
    else
      var e := events[|events| - 1];
      IsStart(i, e) || IsPiece(i, e) || (!IsStop(i, e) && Open(i, events[..|events| - 1]))
  }

  /** How often one was opened: by a start, or by a piece without one. */
  function Openings(i: u32, events: seq<Event>): nat {
    if events == [] then 0
    else
      var init, e := events[..|events| - 1], events[|events| - 1];
      Openings(i, init) + (if (IsStart(i, e) || IsPiece(i, e)) && !Open(i, init) then 1 else 0)
  }

  /** One event opens a tool_use block, closes it with a call, or neither. */
  lemma {:induction false} OpensOrCloses(i: u32, s: StreamState, e: Event)
    requires i !in s.thinkingBlocks && !MarksThinking(i, e)
    ensures var t, calls := Next(s, e), CallsFor(i, ChunkOf(Act(s, e)));
      && i !in t.thinkingBlocks
      && (i in t.toolUses <==> IsStart(i, e) || IsPiece(i, e) || (!IsStop(i, e) && i in s.toolUses))
      && |calls| == if IsStop(i, e) && i in s.toolUses then 1 else 0
  {
    CallsOfAction(i, Act(s, e));
  }

  /** Every opening of a tool_use block gives exactly one call, unless it is still open at the end. */
  lemma {:induction false} OncePerOpening(i: u32, model: string, events: seq<Event>)
    requires forall k | 0 <= k < |events| :: !MarksThinking(i, events[k])
    ensures var s := After(Fresh(model), events);
      && i !in s.thinkingBlocks && (i in s.toolUses <==> Open(i, events))
      && |CallsFor(i, Chunks(Fresh(model), events))| + (if Open(i, events) then 1 else 0) == Openings(i, events)
  {
    if events != [] {
      var before, e := events[..|events| - 1], events[|events| - 1];
      OncePerOpening(i, model, before);
      CallsForPush(i, Chunks(Fresh(model), before), Act(After(Fresh(model), before), e));
      OpensOrCloses(i, After(Fresh(model), before), e);
    }
  }

  // ---- text and thinking ----

  /** The text among some events, whatever their blocks. */
  function TextOf(events: seq<Event>): string {
    if events == [] then "" else TextOf(events[..|events| - 1]) + TextIn(events[|events| - 1])
  }

  function ThinkingOf(events: seq<Event>): string {
    if events == [] then "" else ThinkingOf(events[..|events| - 1]) + ThinkingIn(events[|events| - 1])
  }

  function Content(chunks: seq<Chunk>): string {
    if chunks == [] then "" else Content(chunks[..|chunks| - 1]) + OrEmpty(chunks[|chunks| - 1].contentDelta)
  }

  function Thought(chunks: seq<Chunk>): string {
    if chunks == [] then "" else Thought(chunks[..|chunks| - 1]) + OrEmpty(chunks[|chunks| - 1].thinkingDelta)
  }

  lemma {:induction false} OutputPush(chunks: seq<Chunk>, a: Action)
    ensures Content(chunks + ChunkOf(a)) == Content(chunks) + (if a.Emit? then OrEmpty(a.chunk.contentDelta) else "")
    ensures Thought(chunks + ChunkOf(a)) == Thought(chunks) + (if a.Emit? then OrEmpty(a.chunk.thinkingDelta) else "")
  {
    if a.Emit? {
      assert (chunks + [a.chunk])[..|chunks|] == chunks;
    } else {
      assert chunks + [] == chunks;
    }
  }

  function TextIn(e: Event): string {
    match e
    case TextStart(_, text) => OrEmpty(text)
    case TextDelta(_, text) => OrEmpty(text)
    case _ => ""
  }

  function ThinkingIn(e: Event): string {
    if e.ThinkingDelta? then OrEmpty(e.thinking) else ""
  }

  lemma {:induction false} OutputOfEvent(s: StreamState, e: Event)
    ensures var a := Act(s, e);
      && TextIn(e) == (if a.Emit? then OrEmpty(a.chunk.contentDelta) else "")
      && ThinkingIn(e) == (if a.Emit? then OrEmpty(a.chunk.thinkingDelta) else "")
  {
  }

  /** No text and no streamed thinking is lost, repeated or reordered. */
  lemma {:induction false} OutputConserved(s: StreamState, events: seq<Event>)
    ensures Content(Chunks(s, events)) == TextOf(events)
    ensures Thought(Chunks(s, events)) == ThinkingOf(events)
  {
    if events != [] {
      var before, e := events[..|events| - 1], events[|events| - 1];
      OutputConserved(s, before);
      OutputPush(Chunks(s, before), Act(After(s, before), e));
      OutputOfEvent(After(s, before), e);
    }
  }

  ghost predicate UsageAdds(s: StreamState) {
    s.usage.Some? ==> s.usage.value.totalTokens == SatAdd32(s.usage.value.promptTokens, s.usage.value.completionTokens)
  }

  lemma {:induction false} UsageStep(s: StreamState, e: Event)
    requires UsageAdds(s)
    ensures UsageAdds(Next(s, e))
    ensures Act(s, e).Emit? && Act(s, e).chunk.usage.Some? ==> Act(s, e).chunk.usage == Next(s, e).usage
  {
  }

  ghost predicate UsageReported(c: Chunk) {
    c.usage.Some? ==> c.usage.value.totalTokens == SatAdd32(c.usage.value.promptTokens, c.usage.value.completionTokens)
  }

  /** Token totals always add up, in the state and in every chunk. */
  lemma {:induction false} TotalsAddUp(model: string, events: seq<Event>)
    ensures UsageAdds(After(Fresh(model), events))
    ensures forall k | 0 <= k < |Chunks(Fresh(model), events)| :: UsageReported(Chunks(Fresh(model), events)[k])
  {
    if events != [] {
      var before, e := events[..|events| - 1], events[|events| - 1];
      TotalsAddUp(model, before);
      UsageStep(After(Fresh(model), before), e);
    }
  }

  // ---- a block that starts with a piece ----

  lemma {:induction false} OrphanStarts(s: StreamState, first: Event, i: u32)
    requires IsPiece(i, first) && i !in s.toolUses && i !in s.thinkingBlocks
    ensures var started := Next(s, first);
      && i in started.toolUses && i !in started.thinkingBlocks
      && started.toolUses[i] == ToolUseBuf(None, None, None, first.partialJson.value)
    ensures CallsFor(i, ChunkOf(Act(s, first))) == []
  {
    CallsOfAction(i, Act(s, first));
    assert "" + first.partialJson.value == first.partialJson.value;
  }

  lemma {:induction false} OrphanHolds(s: StreamState, first: Event, mid: seq<Event>, i: u32)
    requires IsPiece(i, first) && i !in s.toolUses && i !in s.thinkingBlocks && Inside(i, mid)
    ensures var t := After(s, [first] + mid);
      && i in t.toolUses && i !in t.thinkingBlocks
      && t.toolUses[i] == ToolUseBuf(None, None, None, first.partialJson.value + Pieces(i, mid))
    ensures CallsFor(i, Chunks(s, [first] + mid)) == []
  {
    hide Next, Act, Chunks, Pieces, CallsFor, After;
    var started := Next(s, first);
    OneEvent(s, first);
    OrphanStarts(s, first, i);
    AfterConcat(s, [first], mid);
    PiecesCollect(i, started, mid);
    CallsForConcat(i, Chunks(s, [first]), Chunks(started, mid));
  }

  /** Pieces without a start give a call without id and name. */
  lemma {:induction false} OrphanGivesItsCall(s: StreamState, first: Event, mid: seq<Event>, i: u32)
    requires IsPiece(i, first) && i !in s.toolUses && i !in s.thinkingBlocks && Inside(i, mid)
    ensures var calls := CallsFor(i, Chunks(s, [first] + mid + [BlockStop(i)]));
      && |calls| == 1 && calls[0].index == i && calls[0].id.None? && calls[0].name.None?
      && GivenArguments(calls[0].arguments, first.partialJson.value + Pieces(i, mid), None)
  {
    hide Next, Response, Pieces, Arguments, GivenArguments;
    OrphanHolds(s, first, mid, i);
    StopGivesCall(s, [first] + mid, i);
    ArgumentsAreGiven(first.partialJson.value + Pieces(i, mid), None);
  }

  // ---- what a thinking block holds ----

  function ThoughtIn(i: u32, e: Event): string {
    if e.ThinkingDelta? && e.index == i then OrEmpty(e.thinking) else ""
  }

  function SignatureIn(i: u32, e: Event): Option<string> {
    if e.SignatureDelta? && e.index == i then e.signature else None
  }

  /** The thinking and the signature streamed for a block, in order. */
  function Thoughts(i: u32, events: seq<Event>): string {
    if events == [] then "" else Thoughts(i, events[..|events| - 1]) + ThoughtIn(i, events[|events| - 1])
  }

  function Signatures(i: u32, events: seq<Event>): string {
    if events == [] then "" else Signatures(i, events[..|events| - 1]) + OrEmpty(SignatureIn(i, events[|events| - 1]))
  }

  predicate SignsAny(i: u32, events: seq<Event>) {
    exists k | 0 <= k < |events| :: SignatureIn(i, events[k]).Some?
  }

  ghost predicate ThinkingCollected(buf: ThinkingBuf, before: ThinkingBuf, thoughts: string, signed: bool,
                                    signature: string) {
    && buf.thinking == before.thinking + thoughts
    && (if before.signature.Some? || signed then buf.signature == Some(OrEmpty(before.signature) + signature)
        else buf.signature.None?)
  }

  lemma {:induction false} ThinkingStep(i: u32, s: StreamState, e: Event)
    requires i in s.thinkingBlocks && !(e.ThinkingStart? && e.index == i)
    ensures i in Next(s, e).thinkingBlocks
    ensures ThinkingCollected(Next(s, e).thinkingBlocks[i], s.thinkingBlocks[i], ThoughtIn(i, e),
                              SignatureIn(i, e).Some?, OrEmpty(SignatureIn(i, e)))
  {
    assert s.thinkingBlocks[i].thinking + "" == s.thinkingBlocks[i].thinking;
    assert OrEmpty(s.thinkingBlocks[i].signature) + "" == OrEmpty(s.thinkingBlocks[i].signature);
  }

  lemma {:induction false} CollectedTwice(a: ThinkingBuf, b: ThinkingBuf, c: ThinkingBuf, thoughts: string,
                                          signed: bool, signature: string, more: string, again: bool, rest: string)
    requires ThinkingCollected(b, a, thoughts, signed, signature) && ThinkingCollected(c, b, more, again, rest)
    requires !again ==> rest == ""
    requires !signed ==> signature == ""
    ensures ThinkingCollected(c, a, thoughts + more, signed || again, signature + rest)
  {
    Sequences.Associate(a.thinking, thoughts, more);
    Sequences.Associate(OrEmpty(a.signature), signature, rest);
  }

  lemma {:induction false} SignsMore(i: u32, events: seq<Event>)
    requires events != []
    ensures SignsAny(i, events)
       <==> SignsAny(i, events[..|events| - 1]) || SignatureIn(i, events[|events| - 1]).Some?
  {
    var init := events[..|events| - 1];
    if SignsAny(i, events) && SignatureIn(i, events[|events| - 1]).None? {
      var k :| 0 <= k < |events| && SignatureIn(i, events[k]).Some?;
      assert SignatureIn(i, init[k]).Some?;
    }
    if SignsAny(i, init) {
      var k :| 0 <= k < |init| && SignatureIn(i, init[k]).Some?;
      assert SignatureIn(i, events[k]).Some?;
    }
  }

  /** A thinking block holds what it held and all that is streamed for it since, in order, until it starts again. */
  lemma {:induction false} ThinkingCollects(i: u32, s: StreamState, events: seq<Event>)
    requires i in s.thinkingBlocks
    requires forall k | 0 <= k < |events| :: !(events[k].ThinkingStart? && events[k].index == i)
    ensures i in After(s, events).thinkingBlocks
    ensures ThinkingCollected(After(s, events).thinkingBlocks[i], s.thinkingBlocks[i], Thoughts(i, events),
                              SignsAny(i, events), Signatures(i, events))
    ensures !SignsAny(i, events) ==> Signatures(i, events) == ""
  {
    var buf := s.thinkingBlocks[i];
    if events == [] {
      assert buf.thinking + "" == buf.thinking && OrEmpty(buf.signature) + "" == OrEmpty(buf.signature);
    } else {
      hide Next;
      var init, e := events[..|events| - 1], events[|events| - 1];
      var t := After(s, init);
      ThinkingCollects(i, s, init);
      ThinkingStep(i, t, e);
      SignsMore(i, events);
      CollectedTwice(buf, t.thinkingBlocks[i], Next(t, e).thinkingBlocks[i], Thoughts(i, init), SignsAny(i, init),
                     Signatures(i, init), ThoughtIn(i, e), SignatureIn(i, e).Some?, OrEmpty(SignatureIn(i, e)));
    }
  }

  /** It starts with what its start carries; an empty signature is none. */
  lemma {:induction false} ThinkingStarts(s: StreamState, start: Event)
    requires start.ThinkingStart?
    ensures var buf := Next(s, start).thinkingBlocks[start.index];
      && (start.startThinking.Some? ==> buf.thinking == start.startThinking.value)
      && (start.startThinking.None? ==> buf.thinking == "")
      && buf.signature == (if start.startSignature == Some("") then None else start.startSignature)
  {
  }

  // ---- what every chunk reports ----

  /** Indices below `k` with thinking that is not blank. */
  ghost function Before(bufs: map<u32, ThinkingBuf>, k: u32): set<u32> {
    set j | j in bufs && j < k && !IsBlank(bufs[j].thinking)
  }

  ghost function Telling(bufs: map<u32, ThinkingBuf>): set<u32> {
    set j | j in bufs && !IsBlank(bufs[j].thinking)
  }

  /** The recorded block of a buffer. */
  ghost predicate Records(b: ThinkingBlock, buf: ThinkingBuf) {
    && b.kind == Some("thinking") && b.thinking == Some(buf.thinking)
    && b.signature == (if buf.signature == Some("") then None else buf.signature)
  }

  ghost predicate LeastKey(bufs: map<u32, ThinkingBuf>, least: u32) {
    least in bufs && forall j | j in bufs :: least <= j
  }

  function Own(bufs: map<u32, ThinkingBuf>, k: u32): set<u32>
    requires k in bufs
  {
    if IsBlank(bufs[k].thinking) then {} else {k}
  }

  lemma {:induction false} TellingWithout(bufs: map<u32, ThinkingBuf>, least: u32)
    requires LeastKey(bufs, least)
    ensures Telling(bufs) == Own(bufs, least) + Telling(bufs - {least}) && least !in Telling(bufs - {least})
  {
    hide IsBlank;
    assert (bufs - {least}).Keys == bufs.Keys - {least};
  }

  lemma {:induction false} BeforeWithout(bufs: map<u32, ThinkingBuf>, least: u32, k: u32)
    requires LeastKey(bufs, least) && k in bufs && k != least
    ensures Before(bufs, k) == Own(bufs, least) + Before(bufs - {least}, k) && least !in Before(bufs - {least}, k)
  {
    hide IsBlank;
    assert (bufs - {least}).Keys == bufs.Keys - {least};
  }

  lemma {:induction false} NoneBefore(bufs: map<u32, ThinkingBuf>, least: u32)
    requires LeastKey(bufs, least)
    ensures Before(bufs, least) == {}
  {
    hide IsBlank;
  }

  lemma {:induction false} BlocksFirst(bufs: map<u32, ThinkingBuf>)
    returns (least: u32)
    requires bufs != map[]
    ensures LeastKey(bufs, least) && |bufs - {least}| < |bufs|
    ensures Blocks(bufs)
         == (if Own(bufs, least) == {} then [] else [BlockOf(bufs[least])]) + Blocks(bufs - {least})
  {
    hide IsBlank, BlockOf;
    least := Min(bufs.Keys);
    assert (bufs - {least}).Keys == bufs.Keys - {least};
  }

  lemma {:induction false} BlockRecords(buf: ThinkingBuf)
    ensures Records(BlockOf(buf), buf)
  {
  }

  lemma {:induction false} RankOf(bufs: map<u32, ThinkingBuf>, k: u32)
    requires k in Telling(bufs)
    ensures |Before(bufs, k)| < |Blocks(bufs)| && Blocks(bufs)[|Before(bufs, k)|] == BlockOf(bufs[k])
    decreases |bufs|
  {
    hide IsBlank, BlockOf, Blocks, Before;
    var least := BlocksFirst(bufs);
    TellingWithout(bufs, least);
    if k == least {
      NoneBefore(bufs, least);
    } else {
      RankOf(bufs - {least}, k);
      BeforeWithout(bufs, least, k);
    }
  }

  lemma {:induction false} BlockPerIndex(bufs: map<u32, ThinkingBuf>)
    ensures |Blocks(bufs)| == |Telling(bufs)|
    decreases |bufs|
  {
    if bufs == map[] {
      assert Telling(bufs) == {};
    } else {
      hide IsBlank, BlockOf, Blocks, Telling;
      var least := BlocksFirst(bufs);
      TellingWithout(bufs, least);
      BlockPerIndex(bufs - {least});
    }
  }

  /** The metadata has one block per index whose thinking is not blank, by ascending index, or is absent when there is
      none. */
  lemma {:induction false} MetadataTells(bufs: map<u32, ThinkingBuf>)
    ensures Telling(bufs) == {} <==> MetadataOf(bufs) == None
    ensures forall k | k in Telling(bufs) ::
      && MetadataOf(bufs).Some? && MetadataOf(bufs).value.Anthropic?
      && var blocks := MetadataOf(bufs).value.thinkingBlocks;
         |Before(bufs, k)| < |blocks| == |Telling(bufs)| && Records(blocks[|Before(bufs, k)|], bufs[k])
  {
    hide Blocks, Before, Records, BlockOf;
    BlockPerIndex(bufs);
    forall k | k in Telling(bufs)
      ensures |Before(bufs, k)| < |Blocks(bufs)| && Records(Blocks(bufs)[|Before(bufs, k)|], bufs[k])
    {
      RankOf(bufs, k);
      BlockRecords(bufs[k]);
    }
  }

  /** The last output count of some message deltas, or the one at the start. */
  function LastOutput(events: seq<Event>, start: u32): u32 {
    if events == [] then start
    else
      match events[|events| - 1]
      case MessageDelta(_, Some(Some(n))) => n
      case _ => LastOutput(events[..|events| - 1], start)
  }

  /** Id, model and usage come from the start of the message; only its output count is brought up to date. */
  ghost predicate MessageHeld(s: StreamState, start: Event, output: u32)
    requires start.MessageStart? && start.startUsage.Some?
  {
    var u := start.startUsage.value;
    && s.id == start.id && s.model == start.model
    && s.usage.Some? && s.usage.value.promptTokens == u.input && s.usage.value.completionTokens == output
    && s.usage.value.totalTokens == (if u.input + output <= 0xFFFF_FFFF then u.input + output else 0xFFFF_FFFF)
    && s.usage.value.cachedTokens == (if u.cacheRead == Some(0) then None else u.cacheRead)
  }

  lemma {:induction false} MessageHeldStep(s: StreamState, start: Event, output: u32, e: Event)
    requires start.MessageStart? && start.startUsage.Some? && MessageHeld(s, start, output) && !e.MessageStart?
    ensures MessageHeld(Next(s, e), start, if e.MessageDelta? && e.outputTokens.Some? && e.outputTokens.value.Some?
                                           then e.outputTokens.value.value else output)
  {
  }

  lemma {:induction false} MessageHolds(s: StreamState, start: Event, mid: seq<Event>)
    requires start.MessageStart? && start.startUsage.Some?
    requires forall k | 0 <= k < |mid| :: !mid[k].MessageStart?
    ensures MessageHeld(After(s, [start] + mid), start, LastOutput(mid, start.startUsage.value.output))
  {
    AfterConcat(s, [start], mid);
    OneEvent(s, start);
    if mid != [] {
      hide Next;
      var init, e := mid[..|mid| - 1], mid[|mid| - 1];
      MessageHolds(s, start, init);
      AfterConcat(s, [start], init);
      MessageHeldStep(After(s, [start] + init), start, LastOutput(init, start.startUsage.value.output), e);
    }
  }

  /** A message delta reports the stop reason and the usage held; every chunk names the message held. */
  lemma {:induction false} DeltaReports(s: StreamState, reason: string, outputTokens: Option<Option<u32>>)
    ensures var e := MessageDelta(Some(reason), outputTokens);
      var t, a := Next(s, e), Act(s, e);
      && a.Emit? && a.chunk.usage == t.usage && a.chunk.finishReason.Some?
      && var finish := a.chunk.finishReason.value;
         && (finish == Stopped <==> reason == "end_turn") && (finish == StopSequence <==> reason == "stop_sequence")
         && (finish == Length <==> reason == "max_tokens") && (finish == ToolCallsDue <==> reason == "tool_use")
         && (finish == Refusal <==> reason == "refusal") && (finish == PauseTurn <==> reason == "pause_turn")
         && (finish.Other? ==> finish.reason == reason)
  {
  }

  lemma {:induction false} ChunksNameTheMessage(s: StreamState, e: Event)
    ensures var t, a := Next(s, e), Act(s, e);
      a.Emit? ==> a.chunk.id == t.id && a.chunk.model == t.model && a.chunk.metadata == MetadataOf(t.thinkingBlocks)
  {
    hide MetadataOf;
  }
}
