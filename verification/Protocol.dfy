/** Chat messages, text and machine integers shared by every component. */
module Protocol {
  import opened Wrappers

  const U64_MAX := 0xFFFF_FFFF_FFFF_FFFF

  type u64 = n: int | 0 <= n <= U64_MAX

  const U32_MAX := 0xFFFF_FFFF

  type u32 = n: int | 0 <= n <= U32_MAX

  function SatAdd(a: u64, b: u64): u64 {
    if a + b <= U64_MAX then a + b else U64_MAX
  }

  datatype ToolCall = ToolCall(id: string, name: string, arguments: string)

  datatype UserPart =
    | TextPart(text: string)
    | ImagePart(path: string)
    | FilePart(filename: string, mediaType: string, data: string)

  datatype UserContent = Text(text: string) | Parts(parts: seq<UserPart>) {
    /** The first text the content carries, if any. */
    function FirstText(): Option<string> {
      match this
      case Text(text) => Some(text)
      case Parts(parts) => FirstPartText(parts)
    }
  }

  function FirstPartText(parts: seq<UserPart>): Option<string> {
    if parts == [] then None
    else if parts[0].TextPart? then Some(parts[0].text)
    else FirstPartText(parts[1..])
  }

  /** One recorded thinking block; a field is `None` where the JSON has no such string. */
  datatype ThinkingBlock = ThinkingBlock(kind: Option<string>, thinking: Option<string>, signature: Option<string>)

  datatype ProviderMetadata =
    | OpenAiResponses(output: seq<string>)
    | Anthropic(thinkingBlocks: seq<ThinkingBlock>)

  datatype TokenUsage =
    TokenUsage(promptTokens: u32, completionTokens: u32, totalTokens: u32, cachedTokens: Option<u32>)

  datatype Message =
    | Developer(text: string)
    | System(text: string)
    | User(body: UserContent, hidden: bool)
    | Assistant(content: Option<string>, reasoning: Option<string>, toolCalls: seq<ToolCall>,
                usage: Option<TokenUsage>, metadata: Option<ProviderMetadata>)
    | Tool(toolCallId: string, output: string)

  // ---- text ----

  /** The code points with the Unicode White_Space property. */
  predicate IsWhitespace(c: char) {
    var n := c as int;
    || 0x09 <= n <= 0x0D || n == 0x20 || n == 0x85 || n == 0xA0 || n == 0x1680
    || 0x2000 <= n <= 0x200A || n == 0x2028 || n == 0x2029 || n == 0x202F || n == 0x205F || n == 0x3000
  }

  predicate IsBlank(s: string) {
    forall i | 0 <= i < |s| :: IsWhitespace(s[i])
  }

  function TrimStart(s: string): string {
    if s != [] && IsWhitespace(s[0]) then TrimStart(s[1..]) else s
  }

  function TrimEnd(s: string): string {
    if s != [] && IsWhitespace(s[|s| - 1]) then TrimEnd(s[..|s| - 1]) else s
  }

  function Trim(s: string): string {
    TrimEnd(TrimStart(s))
  }

  /** Bytes the UTF-8 encoding of a code point takes (section 3 of RFC 3629). */
  function CharBytes(c: char): (n: nat)
    ensures 1 <= n <= 4
  {
    var code := c as int;
    if code < 0x80 then 1 else if code < 0x800 then 2 else if code < 0x1_0000 then 3 else 4
  }

  /** Length of a text in UTF-8 bytes. */
  function ByteLen(s: string): nat {
    if s == [] then 0 else ByteLen(s[..|s| - 1]) + CharBytes(s[|s| - 1])
  }

  lemma {:induction false} ByteLenAppend(a: string, b: string)
    ensures ByteLen(a + b) == ByteLen(a) + ByteLen(b)
  {
    if b == [] {
      assert a + b == a;
    } else {
      ByteLenAppend(a, b[..|b| - 1]);
      assert (a + b)[..|a + b| - 1] == a + b[..|b| - 1];
    }
  }
}
