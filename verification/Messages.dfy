/** The vocabulary shared by the agent driver, its session log and the projection:
    messages, tool results, stream chunks, log entries and agent events. */
module Messages {
  import opened Options

  datatype StopReason = Pending | Stop | Length | ToolUse | Error | Aborted | Deferred

  datatype Block =
    | TextBlock(text: string)
    | ThinkingBlock(thinking: string)
    | ToolCallBlock(id: string, name: string, arguments: string)

  datatype Assistant = Assistant(
    content: seq<Block>, stop: StopReason, error: Option<string>, model: string)

  /** A tool result as the model reads it; `added` is absent rather than empty. */
  datatype ToolMessage = ToolMessage(
    callId: string, content: string, toolName: string, isError: bool,
    details: Option<string>, added: Option<seq<string>>)

  datatype Message =
    | UserMessage(text: string)
    | AssistantMessage(reply: Assistant)
    | ToolResultMessage(result: ToolMessage)

  /** The pipeline's own finalized outcome of one tool call. `terminate` never reaches the model. */
  datatype ToolResult = ToolResult(
    callId: string, content: string, toolName: string, isError: bool,
    details: Option<string>, terminate: bool, added: seq<string>)

  const EMPTY_DETAILS: string := "{}"

  /** The model-visible projection of a tool result. */
  function ToMessage(r: ToolResult): ToolMessage {
    ToolMessage(r.callId, r.content, r.toolName, r.isError, r.details,
                if r.added == [] then None else Some(r.added))
  }

  /** Rebuild a tool result from its logged message and the `terminate` flag logged beside it. */
  function FromMessage(m: ToolMessage, terminate: bool): ToolResult {
    ToolResult(m.callId, m.content, m.toolName, m.isError,
               if m.details == None then Some(EMPTY_DETAILS) else m.details,
               terminate,
               if m.added == None then [] else m.added.value)
  }

  /** A logged result is rebuilt exactly when its `details` were present, as the pipeline guarantees. */
  lemma ToolResultRoundTrip(r: ToolResult)
    ensures FromMessage(ToMessage(r), r.terminate) == r <==> r.details.Some?
    ensures FromMessage(ToMessage(r), r.terminate).(details := r.details) == r
    ensures r.details == None ==> FromMessage(ToMessage(r), r.terminate).details == Some("{}")
    ensures var t := ToMessage(r);
      && t.callId == r.callId && t.content == r.content && t.toolName == r.toolName && t.isError == r.isError
      && t.details == r.details && (t.added.Some? <==> r.added != [])
  {
    if r.added != [] {
      assert ToMessage(r).added == Some(r.added);
    }
  }

  /** One streaming update, with the type-specific fields each variant carries. */
  datatype Chunk =
    | TextStart(index: nat, partial: Assistant)
    | TextDelta(index: nat, delta: string, partial: Assistant)
    | TextEnd(index: nat, text: string, partial: Assistant)
    | ThinkingStart(index: nat, partial: Assistant)
    | ThinkingDelta(index: nat, delta: string, partial: Assistant)
    | ThinkingEnd(index: nat, thinking: string, partial: Assistant)
    | ToolCallStart(index: nat, partial: Assistant)
    | ToolCallDelta(index: nat, delta: string, partial: Assistant)
    | ToolCallEnd(index: nat, call: Block, partial: Assistant)

  datatype ChunkKind =
    | KTextStart | KTextDelta | KTextEnd
    | KThinkingStart | KThinkingDelta | KThinkingEnd
    | KToolCallStart | KToolCallDelta | KToolCallEnd

  function KindOf(c: Chunk): ChunkKind {
    match c
    case TextStart(_, _) => KTextStart
    case TextDelta(_, _, _) => KTextDelta
    case TextEnd(_, _, _) => KTextEnd
    case ThinkingStart(_, _) => KThinkingStart
    case ThinkingDelta(_, _, _) => KThinkingDelta
    case ThinkingEnd(_, _, _) => KThinkingEnd
    case ToolCallStart(_, _) => KToolCallStart
    case ToolCallDelta(_, _, _) => KToolCallDelta
    case ToolCallEnd(_, _, _) => KToolCallEnd
  }

  /** Only a delta chunk logs its increment; every other kind logs none. */
  function DeltaOf(c: Chunk): Option<string> {
    match c
    case TextDelta(_, d, _) => Some(d)
    case ThinkingDelta(_, d, _) => Some(d)
    case ToolCallDelta(_, d, _) => Some(d)
    case _ => None
  }

  /** What the stream contract promises of a chunk: its block exists in the partial message, and an
      end chunk repeats exactly that finished block. */
  predicate WellFormed(c: Chunk) {
    && c.index < |c.partial.content|
    && var block := c.partial.content[c.index];
       match c
       case TextEnd(_, text, _) => block == TextBlock(text)
       case ThinkingEnd(_, thinking, _) => block == ThinkingBlock(thinking)
       case ToolCallEnd(_, call, _) => block.ToolCallBlock? && block == call
       case _ => true
  }

  datatype EndReason = Completed | Terminated | Stopped | Rejected | Errored | AbortedRun | Failed

  datatype Event =
    | AgentStart
    | AgentEnd(reason: EndReason, messages: seq<Message>)
    | TurnStart
    | TurnEnd(reply: Option<Message>, results: seq<Message>)
    | MessageUpdate(chunk: Chunk, partial: Message)
    | MessageStart(message: Message)
    | MessageEnd(message: Message)
    | ToolExecutionStart(callId: string, toolName: string, arguments: string)
    | ToolExecutionUpdate(callId: string, toolName: string, arguments: string, output: string)
    | ToolExecutionEnd(callId: string, toolName: string, result: ToolResult, isError: bool)

  /** One logged tool result: the message, where its call finished within the batch, and `terminate`. */
  datatype LoggedResult = LoggedResult(message: ToolMessage, completion: nat, terminate: bool)

  datatype Entry =
    | RunOpened
    | RunClosed(reason: EndReason, override: Option<seq<Message>>)
    | TurnOpened
    | TurnClosed(failure: Option<Message>)
    | HeaderRecorded
    | StreamOpened(partial: Assistant)
    | ChunkLogged(kind: ChunkKind, index: nat, partial: Assistant, delta: Option<string>)
    | ReplyLogged(reply: Assistant)
    | CallLogged(id: string, name: string, arguments: string)
    | ResultLogged(result: LoggedResult)
    | InputLogged(message: Message)
    | SessionReset
}
