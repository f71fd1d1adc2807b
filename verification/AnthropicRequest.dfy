/** Turning a history into Anthropic wire messages. */
module AnthropicRequest {
  import opened Wrappers
  import opened Protocol
  import opened History
  import opened Compaction
  import opened ToolNames
  import AgentModel
  import Sequences

  datatype Role = UserRole | AssistantRole

  datatype Block =
    | Thinking(thinking: string, signature: Option<string>)
    | TextBlock(text: string)
    | Image(source: string)
    | Document(mediaType: string, data: string)
    | ToolUse(id: string, name: string, input: string)
    | ToolResult(toolUseId: string, output: string)

  datatype WireMessage = WireMessage(role: Role, content: seq<Block>)

  datatype ConvertError = BadArguments(callId: string) | BadUserContent(reason: string) | EmptyAssistant | NoMessages

  /** What the converter asks of its surroundings: JSON decoding, image loading and file checks. */
  datatype Surroundings = Surroundings(
    parseArguments: string -> Option<string>,
    imageSource: string -> Result<string, string>,
    checkFile: UserPart -> Option<string>)

  // ---- one message at a time ----

  function PartsToBlocks(env: Surroundings, parts: seq<UserPart>): Result<seq<Block>, ConvertError> {
    if parts == [] then Success([])
    else
      var rest :- PartsToBlocks(env, parts[..|parts| - 1]);
      match parts[|parts| - 1]
      case TextPart(text) => Success(if IsBlank(text) then rest else rest + [TextBlock(text)])
      case ImagePart(path) =>
        (var source := env.imageSource(path);
         if source.Failure? then Failure(BadUserContent(source.error)) else Success(rest + [Image(source.value)]))
      case FilePart(_, mediaType, data) =>
        (var bad := env.checkFile(parts[|parts| - 1]);
         if bad.Some? then Failure(BadUserContent(bad.value)) else Success(rest + [Document(mediaType, data)]))
  }

  function UserBlocks(env: Surroundings, body: UserContent): Result<seq<Block>, ConvertError> {
    match body
    case Text(text) =>
      if IsBlank(text) then Failure(BadUserContent("user message text must not be empty"))
      else Success([TextBlock(text)])
    case Parts(parts) =>
      var blocks :- PartsToBlocks(env, parts);
      if blocks == [] then Failure(BadUserContent("user message content must not be empty")) else Success(blocks)
  }

  function RecordedThinking(blocks: seq<ThinkingBlock>): seq<Block> {
    if blocks == [] then []
    else
      var before, b := RecordedThinking(blocks[..|blocks| - 1]), blocks[|blocks| - 1];
      if b.kind == Some("thinking") && b.thinking.Some? && !IsBlank(b.thinking.value)
      then before + [Thinking(b.thinking.value, if b.signature == Some("") then None else b.signature)]
      else before
  }

  function ThinkingBlocks(reasoning: Option<string>, metadata: Option<ProviderMetadata>): seq<Block> {
    var recorded :=
      if metadata.Some? && metadata.value.Anthropic? then RecordedThinking(metadata.value.thinkingBlocks) else [];
    if recorded == [] && reasoning.Some? && !IsBlank(reasoning.value) then [Thinking(reasoning.value, None)]
    else recorded
  }

  function CallBlocks(env: Surroundings, calls: seq<ToolCall>): Result<seq<Block>, ConvertError> {
    if calls == [] then Success([])
    else
      var rest :- CallBlocks(env, calls[..|calls| - 1]);
      var call := calls[|calls| - 1];
      var input := env.parseArguments(call.arguments);
      if input.None? then Failure(BadArguments(call.id))
      else Success(rest + [ToolUse(call.id, WireName(call.name), input.value)])
  }

  function AssistantBlocks(env: Surroundings, m: Message): Result<seq<Block>, ConvertError>
    requires m.Assistant?
  {
    var text := if m.content.Some? && !IsBlank(m.content.value) then [TextBlock(m.content.value)] else [];
    var uses :- CallBlocks(env, m.toolCalls);
    var blocks := ThinkingBlocks(m.reasoning, m.metadata) + text + uses;
    if blocks == [] then Failure(EmptyAssistant) else Success(blocks)
  }

  function ResultBlocks(tools: seq<Message>): (blocks: seq<Block>)
    requires forall i | 0 <= i < |tools| :: tools[i].Tool?
    ensures |blocks| == |tools|
    ensures forall i | 0 <= i < |tools| :: blocks[i] == ToolResult(tools[i].toolCallId, tools[i].output)
  {
    seq(|tools|, i requires 0 <= i < |tools| => ToolResult(tools[i].toolCallId, tools[i].output))
  }

  /** Tool messages at the front of a history. */
  function ToolRun(ms: seq<Message>): (n: nat)
    ensures n <= |ms|
    ensures n < |ms| ==> !ms[n].Tool?
    ensures forall i | 0 <= i < n :: ms[i].Tool?
  {
    if ms == [] || !ms[0].Tool? then 0 else 1 + ToolRun(ms[1..])
  }

  // ---- the whole request ----

  /** The wire messages of a history; each run of tool messages becomes one user message. */
  function Wire(env: Surroundings, ms: seq<Message>): Result<seq<WireMessage>, ConvertError>
    decreases |ms|
  {
    if ms == [] then Success([])
    else if IsPreamble(ms[0]) then Wire(env, ms[1..])
    else if ms[0].Tool? then
      var n := ToolRun(ms);
      var rest :- Wire(env, ms[n..]);
      Success([WireMessage(UserRole, ResultBlocks(ms[..n]))] + rest)
    else
      var blocks :- if ms[0].User? then UserBlocks(env, ms[0].body) else AssistantBlocks(env, ms[0]);
      var rest :- Wire(env, ms[1..]);
      Success([WireMessage(if ms[0].User? then UserRole else AssistantRole, blocks)] + rest)
  }

  function SystemParts(ms: seq<Message>): seq<string> {
    if ms == [] then []
    else (if IsPreamble(ms[0]) && !IsBlank(ms[0].text) then [ms[0].text] else []) + SystemParts(ms[1..])
  }

  function Prefixed(front: seq<WireMessage>, rest: Result<seq<WireMessage>, ConvertError>)
    : Result<seq<WireMessage>, ConvertError> {
    if rest.Failure? then rest else Success(front + rest.value)
  }

  lemma {:induction false} PrefixedTwice(a: seq<WireMessage>, b: seq<WireMessage>,
                                         rest: Result<seq<WireMessage>, ConvertError>)
    ensures Prefixed(a, Prefixed(b, rest)) == Prefixed(a + b, rest)
  {
    if rest.Success? {
      Sequences.Associate(a, b, rest.value);
    }
  }

  lemma {:induction false} ToolRunIs(ms: seq<Message>, n: nat)
    requires n <= |ms| && (forall i | 0 <= i < n :: ms[i].Tool?) && (n < |ms| ==> !ms[n].Tool?)
    ensures ToolRun(ms) == n
  {
  }

  /** The next wire message, if the message at the front makes one, and the history left. */
  method ConvertNext(env: Surroundings, ms: seq<Message>)
    returns (r: Result<seq<WireMessage>, ConvertError>, rest: seq<Message>)
    requires ms != [] && !IsPreamble(ms[0])
    ensures |rest| < |ms|
    ensures Wire(env, ms) == if r.Failure? then r else Prefixed(r.value, Wire(env, rest))
    ensures SystemParts(rest) == SystemParts(ms)
  {
    rest := ms[1..];
    if ms[0].Tool? {
      var blocks := [ToolResult(ms[0].toolCallId, ms[0].output)];
      ghost var n := 1;
      assert SystemParts(ms) == SystemParts(rest) by { assert [] + SystemParts(rest) == SystemParts(rest); }
      while rest != [] && rest[0].Tool?
        invariant 1 <= n <= |ms| && rest == ms[n..] && forall i | 0 <= i < n :: ms[i].Tool?
        invariant blocks == ResultBlocks(ms[..n]) && SystemParts(rest) == SystemParts(ms)
        decreases |rest|
      {
        assert SystemParts(rest) == SystemParts(rest[1..]) by {
          assert [] + SystemParts(rest[1..]) == SystemParts(rest[1..]);
        }
        blocks := blocks + [ToolResult(rest[0].toolCallId, rest[0].output)];
        rest := rest[1..];
        n := n + 1;
      }
      ToolRunIs(ms, n);
      return Success([WireMessage(UserRole, blocks)]), rest;
    }
    assert SystemParts(ms) == SystemParts(rest) by { assert [] + SystemParts(rest) == SystemParts(rest); }
    var blocks := if ms[0].User? then UserBlocks(env, ms[0].body) else AssistantBlocks(env, ms[0]);
    if blocks.Failure? {
      return Failure(blocks.error), rest;
    }
    return Success([WireMessage(if ms[0].User? then UserRole else AssistantRole, blocks.value)]), rest;
  }

  datatype Request = Request(system: Option<string>, messages: seq<WireMessage>)

  function Join(parts: seq<string>): string
    requires parts != []
  {
    if |parts| == 1 then parts[0] else parts[0] + "\n\n" + Join(parts[1..])
  }

  function Joined(parts: seq<string>): Option<string> {
    if parts == [] then None else Some(Join(parts))
  }

  function ToRequest(env: Surroundings, ms: seq<Message>): Result<Request, ConvertError> {
    var wire :- Wire(env, ms);
    if wire == [] then Failure(NoMessages) else Success(Request.Request(Joined(SystemParts(ms)), wire))
  }

  method ToAnthropicRequest(env: Surroundings, messages: seq<Message>) returns (r: Result<Request, ConvertError>)
    ensures r == ToRequest(env, messages)
  {
    var system, out, rest := [], [], messages;
    assert Wire(env, rest).Success? ==> [] + Wire(env, rest).value == Wire(env, rest).value;
    assert [] + SystemParts(rest) == SystemParts(rest);
    while rest != []
      invariant Wire(env, messages) == Prefixed(out, Wire(env, rest))
      invariant SystemParts(messages) == system + SystemParts(rest)
      decreases |rest|
    {
      if IsPreamble(rest[0]) {
        if !IsBlank(rest[0].text) {
          Sequences.Associate(system, [rest[0].text], SystemParts(rest[1..]));
          system := system + [rest[0].text];
        } else {
          assert [] + SystemParts(rest[1..]) == SystemParts(rest[1..]);
        }
        rest := rest[1..];
      } else {
        var next, later := ConvertNext(env, rest);
        if next.Failure? {
          return Failure(next.error);
        }
        PrefixedTwice(out, next.value, Wire(env, later));
        out, rest := out + next.value, later;
      }
    }
    assert out + [] == out && system + [] == system;
    if out == [] {
      return Failure(NoMessages);
    }
    return Success(Request.Request(Joined(system), out));
  }

  // ---- pairing on the wire ----

  function UseIds(blocks: seq<Block>): seq<string> {
    if blocks == [] then []
    else
      var before, last := UseIds(blocks[..|blocks| - 1]), blocks[|blocks| - 1];
      before + (if last.ToolUse? then [last.id] else [])
  }

  function ResultIds(blocks: seq<Block>): seq<string> {
    if blocks == [] then []
    else
      var before, last := ResultIds(blocks[..|blocks| - 1]), blocks[|blocks| - 1];
      before + (if last.ToolResult? then [last.toolUseId] else [])
  }

  /** Each message's tool results answer, in order, exactly the tool uses of the message before it; a message with
      results is a user message of nothing else, one with uses is an assistant message, and the last one has none. */
  ghost predicate PairedOnWire(wire: seq<WireMessage>) {
    PairedFrom([], wire)
  }

  ghost predicate PairedFrom(owed: seq<string>, wire: seq<WireMessage>)
    decreases |wire|
  {
    if wire == [] then owed == []
    else Answering(owed, wire[0]) && PairedFrom(UseIds(wire[0].content), wire[1..])
  }

  ghost predicate Answering(ids: seq<string>, m: WireMessage) {
    && ResultIds(m.content) == ids
    && (ids != [] ==> m.role.UserRole? && |m.content| == |ids|)
    && (UseIds(m.content) != [] ==> m.role.AssistantRole?)
  }

  lemma {:induction false} IdsConcat(a: seq<Block>, b: seq<Block>)
    ensures UseIds(a + b) == UseIds(a) + UseIds(b)
    ensures ResultIds(a + b) == ResultIds(a) + ResultIds(b)
  {
    if b == [] {
      assert a + b == a;
    } else {
      IdsConcat(a, b[..|b| - 1]);
      assert (a + b)[..|a + b| - 1] == a + b[..|b| - 1];
    }
  }

  ghost predicate NoToolBlocks(blocks: seq<Block>) {
    forall i | 0 <= i < |blocks| :: !blocks[i].ToolUse? && !blocks[i].ToolResult?
  }

  lemma {:induction false} NoIds(blocks: seq<Block>)
    requires NoToolBlocks(blocks)
    ensures UseIds(blocks) == [] && ResultIds(blocks) == []
  {
    if blocks != [] {
      NoIds(blocks[..|blocks| - 1]);
    }
  }

  lemma {:induction false} PartsNoTools(env: Surroundings, parts: seq<UserPart>)
    ensures PartsToBlocks(env, parts).Success? ==> NoToolBlocks(PartsToBlocks(env, parts).value)
  {
    if parts != [] {
      PartsNoTools(env, parts[..|parts| - 1]);
    }
  }

  lemma {:induction false} ThinkingNoTools(blocks: seq<ThinkingBlock>)
    ensures NoToolBlocks(RecordedThinking(blocks))
  {
    if blocks != [] {
      ThinkingNoTools(blocks[..|blocks| - 1]);
    }
  }

  lemma {:induction false} CallBlockIds(env: Surroundings, calls: seq<ToolCall>)
    ensures var r := CallBlocks(env, calls);
      r.Success? ==> UseIds(r.value) == CallIds(calls) && ResultIds(r.value) == [] && |r.value| == |calls|
  {
    if calls != [] {
      var init, call := calls[..|calls| - 1], calls[|calls| - 1];
      CallBlockIds(env, init);
      assert CallIds(calls) == CallIds(init) + [call.id];
    }
  }

  /** An assistant message carries its calls, in order, and no results. */
  lemma {:induction false} AssistantIds(env: Surroundings, m: Message)
    requires m.Assistant?
    ensures var r := AssistantBlocks(env, m);
      r.Success? ==> UseIds(r.value) == CallIds(m.toolCalls) && ResultIds(r.value) == []
  {
    var text := if m.content.Some? && !IsBlank(m.content.value) then [TextBlock(m.content.value)] else [];
    var thinking, uses := ThinkingBlocks(m.reasoning, m.metadata), CallBlocks(env, m.toolCalls);
    if uses.Success? {
      if m.metadata.Some? && m.metadata.value.Anthropic? {
        ThinkingNoTools(m.metadata.value.thinkingBlocks);
      }
      NoIds(thinking + text);
      CallBlockIds(env, m.toolCalls);
      IdsConcat(thinking + text, uses.value);
    }
  }

  lemma {:induction false} UserIds(env: Surroundings, body: UserContent)
    ensures UserBlocks(env, body).Success? ==>
      UseIds(UserBlocks(env, body).value) == [] && ResultIds(UserBlocks(env, body).value) == []
  {
    var r := UserBlocks(env, body);
    if r.Success? {
      if body.Parts? {
        PartsNoTools(env, body.parts);
      }
      NoIds(r.value);
    }
  }

  lemma {:induction false} ResultBlockIds(tools: seq<Message>)
    requires forall i | 0 <= i < |tools| :: tools[i].Tool?
    ensures UseIds(ResultBlocks(tools)) == [] && |ResultIds(ResultBlocks(tools))| == |tools|
    ensures forall i | 0 <= i < |tools| :: ResultIds(ResultBlocks(tools))[i] == tools[i].toolCallId
  {
    if tools != [] {
      var init := tools[..|tools| - 1];
      ResultBlockIds(init);
      assert ResultBlocks(tools)[..|tools| - 1] == ResultBlocks(init);
    }
  }

  lemma {:induction false} PairedPush(owed: seq<string>, first: WireMessage, rest: seq<WireMessage>)
    requires Answering(owed, first) && PairedFrom(UseIds(first.content), rest)
    ensures PairedFrom(owed, [first] + rest)
  {
    assert ([first] + rest)[1..] == rest;
  }

  lemma {:induction false} ResultsAnswer(calls: seq<ToolCall>, tools: seq<Message>)
    requires calls != [] && ResultsMatch(calls, tools)
    ensures Answering(CallIds(calls), WireMessage(UserRole, ResultBlocks(tools))) && UseIds(ResultBlocks(tools)) == []
  {
    ResultBlockIds(tools);
    assert ResultIds(ResultBlocks(tools)) == CallIds(calls);
  }

  /** A run of tool messages becomes one wire message. */
  lemma {:induction false} RunOnWire(env: Surroundings, tools: seq<Message>, later: seq<Message>)
    requires tools != [] && (forall i | 0 <= i < |tools| :: tools[i].Tool?) && (later != [] ==> !later[0].Tool?)
    requires Wire(env, tools + later).Success?
    ensures Wire(env, later).Success?
    ensures Wire(env, tools + later).value == [WireMessage(UserRole, ResultBlocks(tools))] + Wire(env, later).value
  {
    var ms, n := tools + later, |tools|;
    assert ms[..n] == tools && ms[n..] == later;
    ToolRunIs(ms, n);
  }

  /** The tool messages after an assistant with calls are its results, and become one message. */
  lemma {:induction false} ResultsOnWire(env: Surroundings, ms: seq<Message>)
    requires ms != [] && HasCalls(ms[0]) && WellFormed(ms) && Wire(env, ms[1..]).Success?
    ensures var n := |ms[0].toolCalls|;
      && n < |ms| && WellFormed(ms[n + 1..]) && Wire(env, ms[n + 1..]).Success?
      && exists results ::
           && Answering(CallIds(ms[0].toolCalls), results) && UseIds(results.content) == []
           && Wire(env, ms[1..]).value == [results] + Wire(env, ms[n + 1..]).value
  {
    var n := |ms[0].toolCalls|;
    var tools, later := ms[1..n + 1], ms[n + 1..];
    assert ms[1..] == tools + later;
    ResultsAnswer(ms[0].toolCalls, tools);
    RunOnWire(env, tools, later);
  }

  /** Converting a well-formed history pairs every tool use with its result on the wire. */
  lemma {:induction false} WellFormedPairsOnWire(env: Surroundings, ms: seq<Message>)
    requires WellFormed(ms) && Wire(env, ms).Success?
    ensures PairedOnWire(Wire(env, ms).value)
    decreases |ms|
  {
    if ms == [] {
    } else if IsPreamble(ms[0]) {
      WellFormedPairsOnWire(env, ms[1..]);
    } else if ms[0].User? {
      WellFormedPairsOnWire(env, ms[1..]);
      UserIds(env, ms[0].body);
      PairedPush([], WireMessage(UserRole, UserBlocks(env, ms[0].body).value), Wire(env, ms[1..]).value);
    } else {
      AssistantIds(env, ms[0]);
      var uses := WireMessage(AssistantRole, AssistantBlocks(env, ms[0]).value);
      if HasCalls(ms[0]) {
        ResultsOnWire(env, ms);
        var later := ms[|ms[0].toolCalls| + 1..];
        WellFormedPairsOnWire(env, later);
        var results :| Answering(CallIds(ms[0].toolCalls), results) && UseIds(results.content) == []
          && Wire(env, ms[1..]).value == [results] + Wire(env, later).value;
        PairedPush(UseIds(uses.content), results, Wire(env, later).value);
        PairedPush([], uses, Wire(env, ms[1..]).value);
      } else {
        assert CallIds(ms[0].toolCalls) == [];
        WellFormedPairsOnWire(env, ms[1..]);
        PairedPush([], uses, Wire(env, ms[1..]).value);
      }
    }
  }

  /** What a history must satisfy for its conversion to succeed. */
  ghost predicate Convertible(env: Surroundings, m: Message) {
    && (m.User? ==> UserBlocks(env, m.body).Success?)
    && (m.Assistant? ==> forall i | 0 <= i < |m.toolCalls| :: env.parseArguments(m.toolCalls[i].arguments).Some?)
  }

  lemma {:induction false} CallsConvert(env: Surroundings, calls: seq<ToolCall>)
    ensures CallBlocks(env, calls).Success? <==>
      forall i | 0 <= i < |calls| :: env.parseArguments(calls[i].arguments).Some?
    ensures CallBlocks(env, calls).Failure? ==> CallBlocks(env, calls).error.BadArguments?
    ensures CallBlocks(env, calls).Success? ==> |CallBlocks(env, calls).value| == |calls|
  {
    if calls != [] {
      CallsConvert(env, calls[..|calls| - 1]);
    }
  }

  /** An assistant message that is not empty is never rejected as empty. */
  lemma {:induction false} AssistantConverts(env: Surroundings, m: Message)
    requires m.Assistant? && !IsEmptyAssistant(m)
    ensures AssistantBlocks(env, m).Success? <==> Convertible(env, m)
    ensures AssistantBlocks(env, m) != Failure(EmptyAssistant)
  {
    CallsConvert(env, m.toolCalls);
  }

  lemma {:induction false} RunConvertsIff(env: Surroundings, tools: seq<Message>, later: seq<Message>)
    requires tools != [] && (forall i | 0 <= i < |tools| :: tools[i].Tool?) && (later != [] ==> !later[0].Tool?)
    ensures Wire(env, tools + later).Success? <==> Wire(env, later).Success?
  {
    var ms, n := tools + later, |tools|;
    assert ms[..n] == tools && ms[n..] == later;
    ToolRunIs(ms, n);
  }

  /** The first item of a well-formed history, with its results, and the rest convert on their own. */
  lemma {:induction false} ItemConvertsIff(env: Surroundings, ms: seq<Message>)
    requires ms != [] && WellFormed(ms)
    ensures ItemLength(ms[0]) <= |ms| && WellFormed(ms[ItemLength(ms[0])..])
    ensures Wire(env, ms).Success? <==> Convertible(env, ms[0]) && Wire(env, ms[ItemLength(ms[0])..]).Success?
    ensures forall i | 0 < i < ItemLength(ms[0]) :: ms[i].Tool?
  {
    var n := ItemLength(ms[0]);
    if ms[0].Assistant? {
      AssistantConverts(env, ms[0]);
      if HasCalls(ms[0]) {
        assert ms[1..] == ms[1..n] + ms[n..];
        assert forall i | 0 < i < n :: ms[i] == ms[1..n][i - 1];
        RunConvertsIff(env, ms[1..n], ms[n..]);
      }
    }
  }

  /** A well-formed history converts exactly when its user content and its tool arguments do. */
  lemma {:induction false} ConversionSucceedsIff(env: Surroundings, ms: seq<Message>)
    requires WellFormed(ms)
    ensures Wire(env, ms).Success? <==> forall i | 0 <= i < |ms| :: Convertible(env, ms[i])
    decreases |ms|
  {
    if ms != [] {
      hide Wire, WellFormed;
      var n := ItemLength(ms[0]);
      ItemConvertsIff(env, ms);
      ConversionSucceedsIff(env, ms[n..]);
      assert forall i | n <= i < |ms| :: ms[i] == ms[n..][i - n];
    }
  }

  /** Only system and developer messages leave nothing to send. */
  lemma {:induction false} NothingToSendIff(env: Surroundings, ms: seq<Message>)
    requires Wire(env, ms).Success?
    ensures Wire(env, ms).value == [] <==> forall i | 0 <= i < |ms| :: IsPreamble(ms[i])
    decreases |ms|
  {
    if ms != [] && IsPreamble(ms[0]) {
      NothingToSendIff(env, ms[1..]);
      assert forall i | 0 < i < |ms| :: ms[i] == ms[1..][i - 1];
    }
  }

  /** A well-formed history makes a request exactly when its user content and its tool arguments convert and it holds
      more than system and developer messages. */
  lemma {:induction false} RequestSucceedsIff(env: Surroundings, ms: seq<Message>)
    requires WellFormed(ms)
    ensures ToRequest(env, ms).Success? <==>
      && (forall i | 0 <= i < |ms| :: Convertible(env, ms[i]))
      && (exists i :: 0 <= i < |ms| && !IsPreamble(ms[i]))
  {
    ConversionSucceedsIff(env, ms);
    if Wire(env, ms).Success? {
      NothingToSendIff(env, ms);
    }
  }

  lemma {:induction false} PartsError(env: Surroundings, parts: seq<UserPart>)
    ensures PartsToBlocks(env, parts).Failure? ==> PartsToBlocks(env, parts).error.BadUserContent?
  {
    if parts != [] {
      PartsError(env, parts[..|parts| - 1]);
    }
  }

  lemma {:induction false} UserError(env: Surroundings, body: UserContent)
    ensures UserBlocks(env, body).Failure? ==> UserBlocks(env, body).error.BadUserContent?
  {
    if body.Parts? {
      PartsError(env, body.parts);
    }
  }

  /** The rejection of empty assistant messages is unreachable from a well-formed history. */
  lemma {:induction false} NeverEmptyAssistant(env: Surroundings, ms: seq<Message>)
    requires WellFormed(ms)
    ensures Wire(env, ms) != Failure(EmptyAssistant)
    decreases |ms|
  {
    if ms != [] && Wire(env, ms).Failure? {
      var n := if HasCalls(ms[0]) then |ms[0].toolCalls| + 1 else 1;
      NeverEmptyAssistant(env, ms[n..]);
      if ms[0].User? {
        UserError(env, ms[0].body);
      } else if ms[0].Assistant? {
        AssistantConverts(env, ms[0]);
        CallsConvert(env, ms[0].toolCalls);
        if HasCalls(ms[0]) {
          var rest := ms[1..];
          assert forall i | 0 <= i < n - 1 :: ms[1..n][i] == ms[i + 1] == rest[i];
          assert rest[n - 1..] == ms[n..];
          ToolRunIs(rest, n - 1);
        }
      }
    }
  }

  // ---- nothing is lost on the wire ----

  function ToolBlocks(blocks: seq<Block>): seq<Block> {
    if blocks == [] then []
    else
      var before, last := ToolBlocks(blocks[..|blocks| - 1]), blocks[|blocks| - 1];
      before + (if last.ToolUse? || last.ToolResult? then [last] else [])
  }

  function AllToolBlocks(wire: seq<WireMessage>): seq<Block> {
    if wire == [] then [] else ToolBlocks(wire[0].content) + AllToolBlocks(wire[1..])
  }

  /** The calls and results of a history, in order, as blocks. */
  function CallsAndResults(env: Surroundings, ms: seq<Message>): seq<Block> {
    if ms == [] then []
    else
      var rest := CallsAndResults(env, ms[1..]);
      match ms[0]
      case Assistant(_, _, calls, _, _) =>
        var uses := CallBlocks(env, calls);
        (if uses.Success? then uses.value else []) + rest
      case Tool(id, output) => [ToolResult(id, output)] + rest
      case _ => rest
  }

  lemma {:induction false} ToolBlocksConcat(a: seq<Block>, b: seq<Block>)
    ensures ToolBlocks(a + b) == ToolBlocks(a) + ToolBlocks(b)
  {
    if b == [] {
      assert a + b == a;
    } else {
      var init, last := b[..|b| - 1], b[|b| - 1];
      ToolBlocksConcat(a, init);
      assert (a + b)[..|a + b| - 1] == a + init;
      Sequences.Associate(ToolBlocks(a), ToolBlocks(init), if last.ToolUse? || last.ToolResult? then [last] else []);
    }
  }

  lemma {:induction false} NoToolBlocksKept(blocks: seq<Block>)
    requires NoToolBlocks(blocks)
    ensures ToolBlocks(blocks) == []
  {
    if blocks != [] {
      NoToolBlocksKept(blocks[..|blocks| - 1]);
    }
  }

  lemma {:induction false} AllToolBlocksKept(blocks: seq<Block>)
    requires forall i | 0 <= i < |blocks| :: blocks[i].ToolUse? || blocks[i].ToolResult?
    ensures ToolBlocks(blocks) == blocks
  {
    if blocks != [] {
      AllToolBlocksKept(blocks[..|blocks| - 1]);
    }
  }

  lemma {:induction false} CallBlocksAreUses(env: Surroundings, calls: seq<ToolCall>)
    ensures CallBlocks(env, calls).Success? ==>
      forall i | 0 <= i < |CallBlocks(env, calls).value| :: CallBlocks(env, calls).value[i].ToolUse?
  {
    if calls != [] {
      CallBlocksAreUses(env, calls[..|calls| - 1]);
    }
  }

  lemma {:induction false} AssistantToolBlocks(env: Surroundings, m: Message)
    requires m.Assistant? && AssistantBlocks(env, m).Success?
    ensures CallBlocks(env, m.toolCalls).Success?
    ensures ToolBlocks(AssistantBlocks(env, m).value) == CallBlocks(env, m.toolCalls).value
  {
    var text := if m.content.Some? && !IsBlank(m.content.value) then [TextBlock(m.content.value)] else [];
    var thinking, uses := ThinkingBlocks(m.reasoning, m.metadata), CallBlocks(env, m.toolCalls);
    if m.metadata.Some? && m.metadata.value.Anthropic? {
      ThinkingNoTools(m.metadata.value.thinkingBlocks);
    }
    NoToolBlocksKept(thinking + text);
    CallBlocksAreUses(env, m.toolCalls);
    AllToolBlocksKept(uses.value);
    ToolBlocksConcat(thinking + text, uses.value);
  }

  lemma {:induction false} UserToolBlocks(env: Surroundings, body: UserContent)
    requires UserBlocks(env, body).Success?
    ensures ToolBlocks(UserBlocks(env, body).value) == []
  {
    if body.Parts? {
      PartsNoTools(env, body.parts);
    }
    NoToolBlocksKept(UserBlocks(env, body).value);
  }

  lemma {:induction false} RunBlocks(env: Surroundings, tools: seq<Message>, rest: seq<Message>)
    requires forall i | 0 <= i < |tools| :: tools[i].Tool?
    ensures CallsAndResults(env, tools + rest) == ResultBlocks(tools) + CallsAndResults(env, rest)
  {
    if tools == [] {
      assert tools + rest == rest;
    } else {
      hide CallBlocks;
      RunBlocks(env, tools[1..], rest);
      assert (tools + rest)[0] == tools[0] && (tools + rest)[1..] == tools[1..] + rest;
      var first := [ToolResult(tools[0].toolCallId, tools[0].output)];
      assert ResultBlocks(tools) == first + ResultBlocks(tools[1..]);
      Sequences.Associate(first, ResultBlocks(tools[1..]), CallsAndResults(env, rest));
    }
  }

  lemma {:induction false} PushToolBlocks(first: WireMessage, rest: seq<WireMessage>)
    ensures AllToolBlocks([first] + rest) == ToolBlocks(first.content) + AllToolBlocks(rest)
  {
    assert ([first] + rest)[1..] == rest;
  }

  /** Every call with its decoded arguments and every result with its output is on the wire once, in order. */
  lemma {:induction false} WireCarriesCallsAndResults(env: Surroundings, ms: seq<Message>)
    requires Wire(env, ms).Success?
    ensures AllToolBlocks(Wire(env, ms).value) == CallsAndResults(env, ms)
    decreases |ms|
  {
    if ms == [] {
    } else if IsPreamble(ms[0]) {
      WireCarriesCallsAndResults(env, ms[1..]);
    } else if ms[0].Tool? {
      var n := ToolRun(ms);
      WireCarriesCallsAndResults(env, ms[n..]);
      assert ms == ms[..n] + ms[n..];
      RunBlocks(env, ms[..n], ms[n..]);
      AllToolBlocksKept(ResultBlocks(ms[..n]));
      PushToolBlocks(WireMessage(UserRole, ResultBlocks(ms[..n])), Wire(env, ms[n..]).value);
    } else {
      var rest := Wire(env, ms[1..]).value;
      WireCarriesCallsAndResults(env, ms[1..]);
      if ms[0].User? {
        UserToolBlocks(env, ms[0].body);
        PushToolBlocks(WireMessage(UserRole, UserBlocks(env, ms[0].body).value), rest);
        assert [] + AllToolBlocks(rest) == AllToolBlocks(rest);
      } else {
        AssistantToolBlocks(env, ms[0]);
        PushToolBlocks(WireMessage(AssistantRole, AssistantBlocks(env, ms[0]).value), rest);
      }
    }
  }

  /** Sanitize, shorten and drop as often as the compaction loop does: what is sent pairs on the wire. */
  lemma {:induction false} PipelinePairsOnWire(env: Surroundings, ms: seq<Message>, k: nat)
    requires var prepared := Shortened(Repair(ms).messages);
      Dropped(prepared, k).Some? && Wire(env, Dropped(prepared, k).value).Success?
    ensures PairedOnWire(Wire(env, Dropped(Shortened(Repair(ms).messages), k).value).value)
  {
    var sanitized := Repair(ms).messages;
    var prepared := Shortened(sanitized);
    RepairIsWellFormed(ms);
    ShortenedWellFormed(sanitized, prepared);
    DroppedWellFormed(prepared, k);
    WellFormedPairsOnWire(env, Dropped(prepared, k).value);
  }

  /** Every request the compaction loop sends, prompt included, pairs on the wire, whatever the history. */
  lemma {:induction false} SentPairsOnWire(env: Surroundings, ms: seq<Message>, prompt: string,
                                           requests: seq<seq<Message>>, k: nat)
    requires Sent(Shortened(Repair(ms).messages), prompt, requests) && k < |requests| && Wire(env, requests[k]).Success?
    ensures PairedOnWire(Wire(env, requests[k]).value)
  {
    hide Sent, PairedOnWire;
    var sanitized := Repair(ms).messages;
    RepairIsWellFormed(ms);
    ShortenedWellFormed(sanitized, Shortened(sanitized));
    SentWellFormed(Shortened(sanitized), prompt, requests, k);
    WellFormedPairsOnWire(env, requests[k]);
  }

  /** So does every request of an agent run. */
  lemma {:induction false} RunPairsOnWire(env: Surroundings, w: AgentModel.World, ms: seq<Message>, k: nat)
    requires k < |AgentModel.Requests(w, 0, ms)| && Wire(env, AgentModel.Requests(w, 0, ms)[k]).Success?
    ensures PairedOnWire(Wire(env, AgentModel.Requests(w, 0, ms)[k]).value)
  {
    AgentModel.RequestsWellFormed(w, 0, ms);
    WellFormedPairsOnWire(env, AgentModel.Requests(w, 0, ms)[k]);
  }
}
