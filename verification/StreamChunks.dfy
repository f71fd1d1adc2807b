/** What providers' streams are turned into: chunks of output with tool call fragments. */
module StreamChunks {
  import opened Wrappers
  import opened Protocol

  function SatAdd32(a: u32, b: u32): u32 {
    if a + b <= U32_MAX then a + b else U32_MAX
  }

  datatype FinishReason = Stopped | StopSequence | Length | ToolCallsDue | Refusal | PauseTurn | Other(reason: string)

  datatype ToolCallDelta =
    ToolCallDelta(index: u32, id: Option<string>, name: Option<string>, arguments: Option<string>)

  datatype Chunk = Chunk(
    id: string,
    model: string,
    contentDelta: Option<string>,
    thinkingDelta: Option<string>,
    toolCalls: seq<ToolCallDelta>,
    finishReason: Option<FinishReason>,
    usage: Option<TokenUsage>,
    metadata: Option<ProviderMetadata>)

  function OrEmpty(s: Option<string>): string {
    if s.Some? then s.value else ""
  }
}
