/** The event vocabulary of the append-only session log (backend/pkg/session/events.go).

    Text is a sequence of bytes written as `char`, because the source measures text with Go's
    `len`. A payload is a datatype rather than JSON: a payload that does not decode as the shape
    its event type asks for is one built with another constructor. */
module SessionEvents {
  import opened Wrappers

  datatype EventType =
    | UserMessage
    | AssistantMessage
    | ToolResult
    | TurnStart
    | TurnEnd
    | StepStart
    | StepEnd
    | AssistantChunk
    | ToolCall
    | CompactionStart
    | CompactionSummary
    | CompactionEnd
    | SessionEndSeed
    | OtherKnown(name: string)
    | Unknown(name: string)

  datatype ContentBlock =
    | TextBlock(text: string)
    | ReasoningBlock(text: string)
    | ToolCallBlock(id: string, name: string, arguments: string)
    | ToolResultBlock(callId: string, isError: bool, content: seq<ContentBlock>)
    | OtherBlock(json: string)

  datatype Message = Message(role: string, content: seq<ContentBlock>)

  datatype TurnEndReason = Completed | MaxTokens | Aborted | Failed

  datatype Data =
    | UserData(message: Message)
    | AssistantData(turn: nat, step: nat, message: Message)
    | ToolResultData(turn: nat, step: nat, message: Message, rest: string)
    | ToolCallData(turn: nat, step: nat, callId: string)
    | ChunkData(turn: nat, step: nat, chunk: string)
    | TurnData(turn: nat)
    | TurnEndData(turn: nat, reason: TurnEndReason)
    | StepData(turn: nat, step: nat)
    | CompactionStartData(compactionId: string, owner: Option<nat>)
    | CompactionSummaryData(compactionId: string, start: int, end: int, shadowed: seq<int>, shadowedTokens: int)
    | CompactionEndData(compactionId: string, owner: Option<nat>, failed: bool)
    | OtherData(json: string)

  /** `Append` is the bare marker, `Replace` the positional replacement, and `Malformed` any other
      operation name. */
  datatype SurfaceOp = Append | Replace(start: int, end: int) | Malformed

  datatype Envelope = Envelope(
    seqNo: int,
    kind: EventType,
    data: Data,
    sources: Option<seq<int>>,
    surfaceOp: Option<SurfaceOp>,
    ignorable: bool)

  predicate Eligible(kind: EventType) {
    kind.UserMessage? || kind.AssistantMessage? || kind.ToolResult?
  }

  predicate Supported(e: Envelope) {
    e.kind.Unknown? ==> e.ignorable
  }

  /** The message one surface event contributes to model history: `Err` when its payload does not
      decode, `Ok(None)` when it contributes nothing. */
  function ProjectEventMessage(e: Envelope): Result<Option<Message>, ()> {
    match e.kind
    case UserMessage =>
      if e.data.UserData? then Ok(Some(e.data.message)) else Err(())
    case AssistantMessage =>
      if !e.data.AssistantData? then Err(())
      else if e.data.message.content == [] then Ok(None)
      else Ok(Some(e.data.message))
    case ToolResult =>
      if e.data.ToolResultData? then Ok(Some(e.data.message)) else Err(())
    case _ => Ok(None)
  }

  /** A surface event whose payload is not the one of its kind. */
  predicate Misshapen(e: Envelope) {
    || (e.kind.UserMessage? && !e.data.UserData?)
    || (e.kind.AssistantMessage? && !e.data.AssistantData?)
    || (e.kind.ToolResult? && !e.data.ToolResultData?)
  }

  /** A surface event with something to say: any but an assistant message without content. */
  predicate Speaks(e: Envelope) {
    Eligible(e.kind) && !Misshapen(e) && !(e.kind.AssistantMessage? && e.data.message.content == [])
  }

  /** The messages of the events, in order and word for word; an assistant message without content is left
      out. */
  function MessagesOf(es: seq<Envelope>): seq<Message> {
    if es == [] then []
    else
      var n := |es| - 1;
      MessagesOf(es[..n]) + if Speaks(es[n]) then [es[n].data.message] else []
  }

  lemma ProjectMeaning(e: Envelope)
    ensures ProjectEventMessage(e) ==
            if Misshapen(e) then Err(()) else if Speaks(e) then Ok(Some(e.data.message)) else Ok(None)
  {
  }

  /** An envelope as `NewEnvelope` builds it: no provenance and no surface marker yet. */
  function NewEnvelope(seqNo: int, kind: EventType, data: Data): Envelope {
    Envelope(seqNo, kind, data, None, None, false)
  }

  /** A log-only event as other writers emit it: no boundary, not on the surface, in no step. */
  predicate Neutral(e: Envelope) {
    e.kind.OtherKnown? && e.surfaceOp.None? && e.sources.None?
  }

  ghost predicate AllNeutral(events: seq<Envelope>) {
    forall i :: 0 <= i < |events| ==> Neutral(events[i])
  }
}
