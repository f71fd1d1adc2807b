/** What an Anthropic request holds, message by message. */
module WireContent {
  import opened Wrappers
  import opened Protocol
  import opened AnthropicRequest
  import Sequences

  /** Some character is not white space. */
  predicate Says(text: string) {
    exists i | 0 <= i < |text| :: !IsWhitespace(text[i])
  }

  // ---- what one message says ----

  function PartsSaid(env: Surroundings, parts: seq<UserPart>): seq<Block> {
    if parts == [] then []
    else
      var rest := PartsSaid(env, parts[1..]);
      match parts[0]
      case TextPart(text) => (if Says(text) then [TextBlock(text)] else []) + rest
      case ImagePart(path) =>
        (if env.imageSource(path).Success? then [Image(env.imageSource(path).value)] else []) + rest
      case FilePart(_, mediaType, data) => [Document(mediaType, data)] + rest
  }

  /** Recorded thinking that is not blank, each with its signature unless that is empty. */
  function Recorded(blocks: seq<ThinkingBlock>): seq<Block> {
    if blocks == [] then []
    else
      match blocks[0]
      case ThinkingBlock(Some(kind), Some(thinking), signature) =>
        (if kind == "thinking" && Says(thinking)
         then [Thinking(thinking, if signature == Some("") then None else signature)] else [])
        + Recorded(blocks[1..])
      case _ => Recorded(blocks[1..])
  }

  /** The recorded thinking, or the reasoning text when there is none. */
  function Thought(reasoning: Option<string>, metadata: Option<ProviderMetadata>): seq<Block> {
    match (metadata, reasoning)
    case (Some(Anthropic(blocks)), _) =>
      if Recorded(blocks) != [] then Recorded(blocks)
      else if reasoning.Some? && Says(reasoning.value) then [Thinking(reasoning.value, None)]
      else []
    case (_, Some(text)) => if Says(text) then [Thinking(text, None)] else []
    case (_, None) => []
  }

  function Asks(env: Surroundings, call: ToolCall): seq<Block> {
    match env.parseArguments(call.arguments)
    case Some(input) =>
      [ToolUse(call.id, if call.name == "web_search" then "kiliax_web_search" else call.name, input)]
    case None => []
  }

  function AllAsks(env: Surroundings, calls: seq<ToolCall>): seq<Block> {
    if calls == [] then [] else Asks(env, calls[0]) + AllAsks(env, calls[1..])
  }

  /** Thinking first, then the text if there is any, then the tool uses. */
  function Said(env: Surroundings, m: Message): seq<Block> {
    match m
    case System(_) => []
    case Developer(_) => []
    case User(Text(text), _) => [TextBlock(text)]
    case User(Parts(parts), _) => PartsSaid(env, parts)
    case Assistant(content, reasoning, calls, _, metadata) =>
      Thought(reasoning, metadata) + (if content.Some? && Says(content.value) then [TextBlock(content.value)] else [])
      + AllAsks(env, calls)
    case Tool(id, output) => [ToolResult(id, output)]
  }

  function AllSaid(env: Surroundings, ms: seq<Message>): seq<Block> {
    if ms == [] then [] else Said(env, ms[0]) + AllSaid(env, ms[1..])
  }

  // ---- what the converter makes of it ----

  lemma {:induction false} PartsSaidPush(env: Surroundings, init: seq<UserPart>, last: UserPart)
    ensures PartsSaid(env, init + [last]) == PartsSaid(env, init) + PartsSaid(env, [last])
  {
    if init == [] {
      assert init + [last] == [last];
    } else {
      assert (init + [last])[0] == init[0] && (init + [last])[1..] == init[1..] + [last];
      PartsSaidPush(env, init[1..], last);
    }
  }

  lemma {:induction false} PartsAreSaid(env: Surroundings, parts: seq<UserPart>)
    ensures PartsToBlocks(env, parts).Success? ==> PartsToBlocks(env, parts).value == PartsSaid(env, parts)
  {
    if parts != [] {
      var init, last := parts[..|parts| - 1], parts[|parts| - 1];
      PartsAreSaid(env, init);
      assert parts == init + [last];
      PartsSaidPush(env, init, last);
      assert [last][1..] == [];
    }
  }

  lemma {:induction false} RecordedPush(init: seq<ThinkingBlock>, last: ThinkingBlock)
    ensures Recorded(init + [last]) == Recorded(init) + Recorded([last])
  {
    if init == [] {
      assert init + [last] == [last];
    } else {
      assert (init + [last])[0] == init[0] && (init + [last])[1..] == init[1..] + [last];
      RecordedPush(init[1..], last);
    }
  }

  lemma {:induction false} RecordedIs(blocks: seq<ThinkingBlock>)
    ensures RecordedThinking(blocks) == Recorded(blocks)
  {
    if blocks != [] {
      var init, last := blocks[..|blocks| - 1], blocks[|blocks| - 1];
      RecordedIs(init);
      assert blocks == init + [last];
      RecordedPush(init, last);
      assert [last][1..] == [];
      assert last.thinking.Some? ==> (Says(last.thinking.value) <==> !IsBlank(last.thinking.value));
    }
  }

  lemma {:induction false} ThoughtIs(reasoning: Option<string>, metadata: Option<ProviderMetadata>)
    ensures ThinkingBlocks(reasoning, metadata) == Thought(reasoning, metadata)
  {
    if metadata.Some? && metadata.value.Anthropic? {
      RecordedIs(metadata.value.thinkingBlocks);
    }
    assert reasoning.Some? ==> (Says(reasoning.value) <==> !IsBlank(reasoning.value));
  }

  lemma {:induction false} AllAsksPush(env: Surroundings, init: seq<ToolCall>, last: ToolCall)
    ensures AllAsks(env, init + [last]) == AllAsks(env, init) + Asks(env, last)
  {
    if init == [] {
      assert init + [last] == [last] && [last][1..] == [];
    } else {
      assert (init + [last])[0] == init[0] && (init + [last])[1..] == init[1..] + [last];
      AllAsksPush(env, init[1..], last);
    }
  }

  lemma {:induction false} CallsAreAsked(env: Surroundings, calls: seq<ToolCall>)
    ensures CallBlocks(env, calls).Success? ==> CallBlocks(env, calls).value == AllAsks(env, calls)
  {
    if calls != [] {
      var init, last := calls[..|calls| - 1], calls[|calls| - 1];
      CallsAreAsked(env, init);
      assert calls == init + [last];
      AllAsksPush(env, init, last);
    }
  }

  lemma {:induction false} UserIsSaid(env: Surroundings, body: UserContent, hidden: bool)
    ensures UserBlocks(env, body).Success? ==> UserBlocks(env, body).value == Said(env, User(body, hidden))
  {
    if body.Parts? {
      PartsAreSaid(env, body.parts);
    }
  }

  lemma {:induction false} PartsConvertIff(env: Surroundings, parts: seq<UserPart>)
    ensures PartsToBlocks(env, parts).Success? <==> forall i | 0 <= i < |parts| :: PartConverts(env, parts[i])
  {
    if parts != [] {
      PartsConvertIff(env, parts[..|parts| - 1]);
    }
  }

  /** User content converts if and only if it says something, every image loads and every file is valid. */
  lemma {:induction false} UserConvertsIff(env: Surroundings, body: UserContent)
    ensures UserBlocks(env, body).Success? <==>
      match body
      case Text(text) => Says(text)
      case Parts(parts) => PartsSaid(env, parts) != [] && forall i | 0 <= i < |parts| :: PartConverts(env, parts[i])
  {
    if body.Parts? {
      PartsConvertIff(env, body.parts);
      PartsAreSaid(env, body.parts);
    } else {
      assert Says(body.text) <==> !IsBlank(body.text);
    }
  }

  predicate PartConverts(env: Surroundings, part: UserPart) {
    match part
    case TextPart(_) => true
    case ImagePart(path) => env.imageSource(path).Success?
    case FilePart(_, _, _) => env.checkFile(part).None?
  }

  lemma {:induction false} AssistantIsSaid(env: Surroundings, m: Message)
    requires m.Assistant?
    ensures AssistantBlocks(env, m).Success? ==> AssistantBlocks(env, m).value == Said(env, m)
  {
    hide ThinkingBlocks, Thought, CallBlocks, AllAsks;
    ThoughtIs(m.reasoning, m.metadata);
    CallsAreAsked(env, m.toolCalls);
    assert m.content.Some? ==> (Says(m.content.value) <==> !IsBlank(m.content.value));
  }

  lemma {:induction false} ResultsAreSaid(env: Surroundings, tools: seq<Message>)
    requires forall i | 0 <= i < |tools| :: tools[i].Tool?
    ensures ResultBlocks(tools) == AllSaid(env, tools)
  {
    if tools != [] {
      ResultsAreSaid(env, tools[1..]);
      assert ResultBlocks(tools) == [ToolResult(tools[0].toolCallId, tools[0].output)] + ResultBlocks(tools[1..]);
    }
  }

  // ---- the messages of a request ----

  /** The turns of a history: each user and each assistant message is one, and so is each run of tool messages. */
  function Turns(ms: seq<Message>): seq<seq<Message>>
    decreases |ms|
  {
    if ms == [] then []
    else if ms[0].System? || ms[0].Developer? then Turns(ms[1..])
    else if ms[0].Tool? then [ms[..ToolRun(ms)]] + Turns(ms[ToolRun(ms)..])
    else [[ms[0]]] + Turns(ms[1..])
  }

  ghost predicate Conveys(env: Surroundings, turn: seq<Message>, m: WireMessage) {
    && turn != [] && m.content == AllSaid(env, turn)
    && m.role == if turn[0].Assistant? then AssistantRole else UserRole
  }

  ghost predicate AllConveyed(env: Surroundings, turns: seq<seq<Message>>, wire: seq<WireMessage>) {
    |wire| == |turns| && forall i | 0 <= i < |turns| :: Conveys(env, turns[i], wire[i])
  }

  lemma {:induction false} ConveyedPush(env: Surroundings, turn: seq<Message>, m: WireMessage, turns: seq<seq<Message>>,
                                        wire: seq<WireMessage>)
    requires Conveys(env, turn, m) && AllConveyed(env, turns, wire)
    ensures AllConveyed(env, [turn] + turns, [m] + wire)
  {
    hide Conveys;
  }

  lemma {:induction false} AloneIsSaid(env: Surroundings, m: Message)
    ensures AllSaid(env, [m]) == Said(env, m)
  {
    hide Said;
    assert [m][1..] == [] && AllSaid(env, []) == [];
  }

  /** Each turn becomes one message with everything it says, in order. */
  lemma {:induction false} WireConveysTurns(env: Surroundings, ms: seq<Message>)
    ensures Wire(env, ms).Success? ==> AllConveyed(env, Turns(ms), Wire(env, ms).value)
    decreases |ms|
  {
    if ms != [] && Wire(env, ms).Success? {
      hide AllConveyed, AllSaid, Said, UserBlocks, AssistantBlocks;
      if ms[0].System? || ms[0].Developer? {
        WireConveysTurns(env, ms[1..]);
      } else if ms[0].Tool? {
        var n := ToolRun(ms);
        WireConveysTurns(env, ms[n..]);
        ResultsAreSaid(env, ms[..n]);
        var message := WireMessage(UserRole, ResultBlocks(ms[..n]));
        ConveyedPush(env, ms[..n], message, Turns(ms[n..]), Wire(env, ms[n..]).value);
      } else {
        var rest := Wire(env, ms[1..]).value;
        WireConveysTurns(env, ms[1..]);
        AloneIsSaid(env, ms[0]);
        if ms[0].User? {
          UserIsSaid(env, ms[0].body, ms[0].hidden);
          ConveyedPush(env, [ms[0]], WireMessage(UserRole, UserBlocks(env, ms[0].body).value), Turns(ms[1..]), rest);
        } else {
          AssistantIsSaid(env, ms[0]);
          var message := WireMessage(AssistantRole, AssistantBlocks(env, ms[0]).value);
          ConveyedPush(env, [ms[0]], message, Turns(ms[1..]), rest);
        }
      }
    } else if ms == [] {
      assert AllConveyed(env, [], []);
    }
  }

  // ---- the system text ----

  /** Instructions that are not blank, in order, from the last one back. */
  function Instructions(ms: seq<Message>): seq<string> {
    if ms == [] then []
    else
      Instructions(ms[..|ms| - 1]) +
      match ms[|ms| - 1]
      case System(text) => if Says(text) then [text] else []
      case Developer(text) => if Says(text) then [text] else []
      case _ => []
  }

  lemma {:induction false} SystemPartsPush(init: seq<Message>, last: Message)
    ensures SystemParts(init + [last]) == SystemParts(init) + SystemParts([last])
  {
    if init == [] {
      assert init + [last] == [last];
    } else {
      assert (init + [last])[0] == init[0] && (init + [last])[1..] == init[1..] + [last];
      SystemPartsPush(init[1..], last);
    }
  }

  lemma {:induction false} SystemPartsAre(ms: seq<Message>)
    ensures SystemParts(ms) == Instructions(ms)
  {
    if ms != [] {
      var init, last := ms[..|ms| - 1], ms[|ms| - 1];
      SystemPartsAre(init);
      assert ms == init + [last];
      SystemPartsPush(init, last);
      assert [last][1..] == [];
      assert last.System? || last.Developer? ==> (Says(last.text) <==> !IsBlank(last.text));
    }
  }

  /** Texts with a blank line between one and the next. */
  function Paragraphs(texts: seq<string>): string {
    if texts == [] then ""
    else if |texts| == 1 then texts[0]
    else Paragraphs(texts[..|texts| - 1]) + "\n\n" + texts[|texts| - 1]
  }

  lemma {:induction false} JoinPush(init: seq<string>, last: string)
    requires init != []
    ensures Join(init + [last]) == Join(init) + "\n\n" + last
  {
    var all := init + [last];
    assert all[0] == init[0] && all[1..] == init[1..] + [last];
    if |init| > 1 {
      JoinPush(init[1..], last);
      Sequences.Associate(init[0] + "\n\n", Join(init[1..]), "\n\n" + last);
      assert Join(init[1..]) + "\n\n" + last == Join(init[1..]) + ("\n\n" + last);
    } else {
      assert all[1..] == [last];
    }
  }

  lemma {:induction false} JoinIsParagraphs(texts: seq<string>)
    requires texts != []
    ensures Join(texts) == Paragraphs(texts)
  {
    if |texts| > 1 {
      JoinPush(texts[..|texts| - 1], texts[|texts| - 1]);
      JoinIsParagraphs(texts[..|texts| - 1]);
      assert texts == texts[..|texts| - 1] + [texts[|texts| - 1]];
    }
  }

  /** A request conveys every turn and, in its system text, all instructions. */
  lemma {:induction false} RequestConveys(env: Surroundings, ms: seq<Message>)
    ensures var r := ToRequest(env, ms);
      r.Success? ==>
        && AllConveyed(env, Turns(ms), r.value.messages)
        && r.value.system == if Instructions(ms) == [] then None else Some(Paragraphs(Instructions(ms)))
  {
    hide Wire, AllConveyed;
    WireConveysTurns(env, ms);
    SystemPartsAre(ms);
    if Instructions(ms) != [] {
      JoinIsParagraphs(Instructions(ms));
    }
  }
}
