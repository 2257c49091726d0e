/** Reading Bedrock Converse answers, whole and event by event, as src/aws-bedrock/api.ts does. */
module BedrockStream {
  import opened Optional
  import opened ChatTypes
  import opened Sequences
  import opened Encodings

  datatype RawUsage = RawUsage(
    inputTokens: Option<int>,
    outputTokens: Option<int>,
    totalTokens: Option<int>,
    cacheWriteInputTokens: Option<int>,
    cacheReadInputTokens: Option<int>)

  datatype Start = ToolUseStart(toolUseId: Option<string>, name: Option<string>) | OtherStart

  datatype Delta =
    | TextDelta(text: string)
    | ToolUseDelta(input: Option<string>)
    | ReasoningTextDelta(text: string)
    | SignatureDelta(signature: string)
    | RedactedDelta(data: seq<Byte>)
    | EmptyReasoningDelta
    | NoDelta

  datatype FailureKind = Throttling | Unavailable | Internal | ModelStream(originalStatus: Option<int>) | Validation

  datatype Event =
    | MessageStart
    | ContentBlockStart(startIndex: Option<int>, start: Start)
    | ContentBlockDelta(deltaIndex: Option<int>, delta: Delta)
    | MessageStop(stopReason: Option<string>)
    | MetadataEvent(usage: Option<RawUsage>, serviceTier: Option<string>)
    | Failure(kind: FailureKind, message: Option<string>)
    | OtherEvent

  datatype StreamEvent = StreamEvent(event: Event, requestId: Option<string>, showThoughts: bool)

  datatype StreamError = StreamError(message: string, status: Option<int>)

  datatype Outcome = Responded(response: ChatResponse) | Threw(message: string)

  // ------------------------------------------------------------------ mappings

  function MapStopReason(reason: Option<string>): Option<FinishReason> {
    match reason
    case None => None
    case Some(r) =>
      if r == "end_turn" || r == "stop_sequence" then Some(Stop)
      else if r == "max_tokens" || r == "model_context_window_exceeded" then Some(Length)
      else if r == "tool_use" then Some(FunctionCall)
      else if r == "content_filtered" || r == "guardrail_intervened" then Some(ContentFilter)
      else if r == "malformed_model_output" || r == "malformed_tool_use" then Some(Error)
      else None
  }

  function MapServiceTier(tier: Option<string>): Option<string> {
    match tier
    case None => None
    case Some(t) =>
      if t == "flex" then Some("flex")
      else if t == "priority" then Some("priority")
      else if t == "default" || t == "reserved" then Some("standard")
      else None
  }

  function MapTokenUsage(usage: Option<RawUsage>, serviceTier: Option<string>): TokenUsage {
    var raw := usage.GetOr(RawUsage(None, None, None, None, None));
    var prompt, completion := raw.inputTokens.GetOr(0), raw.outputTokens.GetOr(0);
    TokenUsage(prompt, completion, raw.totalTokens.GetOr(prompt + completion),
               raw.cacheWriteInputTokens, raw.cacheReadInputTokens, None, MapServiceTier(serviceTier))
  }

  function ErrorOf(event: Event): Option<StreamError> {
    match event
    case Failure(Throttling, m) => Some(StreamError(m.GetOr("Bedrock throttled"), Some(429)))
    case Failure(Unavailable, m) => Some(StreamError(m.GetOr("Bedrock unavailable"), Some(503)))
    case Failure(Internal, m) => Some(StreamError(m.GetOr("Bedrock internal error"), Some(500)))
    case Failure(ModelStream(status), m) => Some(StreamError(m.GetOr("Bedrock stream error"), status))
    case Failure(Validation, m) => Some(StreamError(m.GetOr("Invalid Bedrock stream request"), Some(400)))
    case _ => None
  }

  // ------------------------------------------------ what the mappings promise

  /** A missing counter is zero, a missing total the sum, and the cache counters are passed on as they are. */
  predicate Counted(tokens: TokenUsage, usage: Option<RawUsage>, serviceTier: Option<string>) {
    && (usage.None? ==>
          && tokens.promptTokens == 0 && tokens.completionTokens == 0 && tokens.totalTokens == 0
          && tokens.cacheCreationTokens.None? && tokens.cacheReadTokens.None?)
    && (usage.Some? ==>
          var raw := usage.value;
          && tokens.promptTokens == (if raw.inputTokens.Some? then raw.inputTokens.value else 0)
          && tokens.completionTokens == (if raw.outputTokens.Some? then raw.outputTokens.value else 0)
          && tokens.totalTokens == (if raw.totalTokens.Some? then raw.totalTokens.value
                                    else tokens.promptTokens + tokens.completionTokens)
          && tokens.cacheCreationTokens == raw.cacheWriteInputTokens
          && tokens.cacheReadTokens == raw.cacheReadInputTokens)
    && tokens.reasoningTokens.None?
    && Tiered(tokens.serviceTier, serviceTier)
  }

  predicate Tiered(tier: Option<string>, named: Option<string>) {
    && (tier == Some("flex") <==> named == Some("flex"))
    && (tier == Some("priority") <==> named == Some("priority"))
    && (tier == Some("standard") <==> named == Some("default") || named == Some("reserved"))
    && (tier.Some? ==> tier.value == "flex" || tier.value == "priority" || tier.value == "standard")
  }

  /** Which of Bedrock's stop reasons each finish reason stands for; any other has none. */
  predicate StopsAs(finish: Option<FinishReason>, reason: Option<string>) {
    && (finish == Some(Stop) <==> reason == Some("end_turn") || reason == Some("stop_sequence"))
    && (finish == Some(Length) <==> reason == Some("max_tokens") || reason == Some("model_context_window_exceeded"))
    && (finish == Some(FunctionCall) <==> reason == Some("tool_use"))
    && (finish == Some(ContentFilter) <==> reason == Some("content_filtered") || reason == Some("guardrail_intervened"))
    && (finish == Some(Error) <==> reason == Some("malformed_model_output") || reason == Some("malformed_tool_use"))
  }

  /** The error that a failure event stands for: its own message or the one of its kind, and the status of its kind. */
  predicate FailsAs(error: StreamError, kind: FailureKind, message: Option<string>) {
    && (message.Some? ==> error.message == message.value)
    && (message.None? ==>
          error.message == match kind
                           case Throttling => "Bedrock throttled"
                           case Unavailable => "Bedrock unavailable"
                           case Internal => "Bedrock internal error"
                           case ModelStream(_) => "Bedrock stream error"
                           case Validation => "Invalid Bedrock stream request")
    && (kind.Throttling? ==> error.status == Some(429))
    && (kind.Unavailable? ==> error.status == Some(503))
    && (kind.Internal? ==> error.status == Some(500))
    && (kind.Validation? ==> error.status == Some(400))
    && (kind.ModelStream? ==> error.status == kind.originalStatus)
  }

  lemma UsageCounted(usage: Option<RawUsage>, serviceTier: Option<string>)
    ensures Counted(MapTokenUsage(usage, serviceTier), usage, serviceTier)
  {
    hide MapServiceTier, Tiered;
    TierIs(serviceTier);
  }

  lemma TierIs(named: Option<string>)
    ensures Tiered(MapServiceTier(named), named)
  {
    assert "flex"[0] != "priority"[0] && "flex"[0] != "standard"[0] && "priority"[0] != "standard"[0];
    assert "default"[0] != "reserved"[0] && "default"[0] != "flex"[0];
  }

  lemma StopReasonIs(reason: Option<string>)
    ensures StopsAs(MapStopReason(reason), reason)
  {
  }

  /** Exactly the failure events are errors. */
  lemma FailureIs(event: Event)
    ensures ErrorOf(event).Some? <==> event.Failure?
    ensures event.Failure? ==> FailsAs(ErrorOf(event).value, event.kind, event.message)
  {
  }

  // ---------------------------------------------------------- the whole answer

  /** A tool input: `Structured` is an object or array, `Scalar` a number or boolean, by its JSON text. */
  datatype Document = Missing | Null | StringValue(text: string) | Structured(json: string) | Scalar(json: string)

  datatype Block =
    | TextBlock(text: string)
    | ToolUseBlock(toolUseId: Option<string>, name: Option<string>, input: Document)
    | ReasoningBlock(reasoning: Option<string>, signature: Option<string>)
    | RedactedBlock(data: seq<Byte>)
    | OtherBlock

  datatype Converse = Converse(
    content: seq<Block>,
    stopReason: Option<string>,
    usage: Option<RawUsage>,
    serviceTier: Option<string>,
    requestId: Option<string>,
    showThoughts: bool)

  /** `fromBedrockDocument`, with the absent and null inputs that never reach it. */
  function ParamsOf(input: Document): Params {
    match input
    case Missing => Absent
    case Null => Absent
    case StringValue(text) => Text(text)
    case Structured(json) => Json(json)
    case Scalar(json) => Text(json)
  }

  function TextOf(block: Block): string { if block.TextBlock? then block.text else "" }

  function CallOf(block: Block): seq<Call> {
    match block
    case ToolUseBlock(id, name, input) => [Call(id.GetOr(""), name.GetOr(""), ParamsOf(input))]
    case _ => []
  }

  function ThoughtOf(block: Block): seq<ThoughtBlock> {
    match block
    case ReasoningBlock(text, signature) =>
      [ThoughtBlock(text.GetOr(""), false, if signature == Some("") then None else signature)]
    case RedactedBlock(data) => [ThoughtBlock(Base64(data), true, None)]
    case _ => []
  }

  /** What an unencrypted thought block shows. */
  function Visible(thought: ThoughtBlock): string { if thought.encrypted then "" else thought.data }

  function BatchResult(resp: Converse): ChatResult {
    var content := Concat(TextOf, resp.content);
    var calls := Concat(CallOf, resp.content);
    var thoughts := Concat(ThoughtOf, resp.content);
    ChatResult(
      resp.requestId,
      if content == "" then None else Some(content),
      if calls == [] then None else Some(calls),
      if thoughts == [] then None else Some(thoughts),
      if thoughts == [] || !resp.showThoughts then None else Some(Concat(Visible, thoughts)),
      MapStopReason(resp.stopReason))
  }

  function BatchResponse(resp: Converse): ChatResponse {
    ChatResponse([BatchResult(resp)], resp.requestId, None, None)
  }

  // ------------------------------------------------------------ event by event

  function ToolIdsAfter(toolIds: map<int, string>, event: Event): map<int, string> {
    if event.ContentBlockStart? && event.start.ToolUseStart?
    then toolIds[event.startIndex.GetOr(0) := event.start.toolUseId.GetOr("")] else toolIds
  }

  function DeltaResult(toolIds: map<int, string>, index: int, delta: Delta, showThoughts: bool): ChatResult {
    match delta
    case TextDelta(text) => EMPTY_RESULT.(content := Some(text))
    case ToolUseDelta(input) =>
      var id := if index in toolIds then toolIds[index] else "";
      EMPTY_RESULT.(functionCalls := Some([Call(id, "", Text(input.GetOr("")))]))
    case ReasoningTextDelta(text) =>
      EMPTY_RESULT.(thoughtBlocks := Some([ThoughtBlock(text, false, None)]),
                    thought := if showThoughts then Some(text) else None)
    case SignatureDelta(signature) => EMPTY_RESULT.(thoughtBlocks := Some([ThoughtBlock("", false, Some(signature))]))
    case RedactedDelta(data) => EMPTY_RESULT.(thoughtBlocks := Some([ThoughtBlock(Base64(data), true, None)]))
    case EmptyReasoningDelta => EMPTY_RESULT
    case NoDelta => EMPTY_RESULT.(content := Some(""))
  }

  function EventResult(toolIds: map<int, string>, resp: StreamEvent): ChatResult {
    match resp.event
    case MessageStart => EMPTY_RESULT.(id := resp.requestId, content := Some(""))
    case ContentBlockStart(_, ToolUseStart(id, name)) =>
      EMPTY_RESULT.(functionCalls := Some([Call(id.GetOr(""), name.GetOr(""), Text(""))]))
    case ContentBlockStart(_, OtherStart) => EMPTY_RESULT.(content := Some(""))
    case ContentBlockDelta(index, delta) => DeltaResult(toolIds, index.GetOr(0), delta, resp.showThoughts)
    case MessageStop(reason) => EMPTY_RESULT.(content := Some(""), finishReason := MapStopReason(reason))
    case _ => EMPTY_RESULT.(content := Some(""))
  }

  function EventResponse(toolIds: map<int, string>, resp: StreamEvent): ChatResponse {
    ChatResponse([EventResult(toolIds, resp)], resp.requestId, None, None)
  }

  function TokensAfter(tokens: Option<TokenUsage>, event: Event): Option<TokenUsage> {
    if event.MetadataEvent? then Some(MapTokenUsage(event.usage, event.serviceTier)) else tokens
  }

  /** The per-stream object that the caller passes to every event. */
  class StreamState {
    var toolIds: map<int, string>

    constructor ()
      ensures toolIds == map[]
    {
      toolIds := map[];
    }
  }

  lemma NothingRead()
    ensures Concat(TextOf, []) == "" && Concat(CallOf, []) == [] && Concat(ThoughtOf, []) == []
  {
  }

  class BedrockImpl {
    var tokensUsed: Option<TokenUsage>

    constructor ()
      ensures tokensUsed == None
    {
      tokensUsed := None;
    }

    method CreateChatResp(resp: Converse) returns (response: ChatResponse)
      modifies this
      ensures response == BatchResponse(resp)
      ensures tokensUsed == Some(MapTokenUsage(resp.usage, resp.serviceTier))
      ensures tokensUsed.Some? && Counted(tokensUsed.value, resp.usage, resp.serviceTier)
    {
      hide Counted, Concat, Base64, MapTokenUsage, MapStopReason, ParamsOf;
      UsageCounted(resp.usage, resp.serviceTier);
      NothingRead();
      assert resp.content[..0] == [];
      var result := EMPTY_RESULT.(id := resp.requestId, finishReason := MapStopReason(resp.stopReason));
      var content, functionCalls, thoughtBlocks := "", [], [];
      for n := 0 to |resp.content|
        invariant content == Concat(TextOf, resp.content[..n])
        invariant functionCalls == Concat(CallOf, resp.content[..n])
        invariant thoughtBlocks == Concat(ThoughtOf, resp.content[..n])
      {
        ConcatStep(TextOf, resp.content, n);
        ConcatStep(CallOf, resp.content, n);
        ConcatStep(ThoughtOf, resp.content, n);
        match resp.content[n] {
          case TextBlock(text) =>
            content := content + text;
          case ToolUseBlock(id, name, input) =>
            functionCalls := functionCalls + [Call(id.GetOr(""), name.GetOr(""), ParamsOf(input))];
          case ReasoningBlock(text, signature) =>
            var kept := if signature == Some("") then None else signature;
            thoughtBlocks := thoughtBlocks + [ThoughtBlock(text.GetOr(""), false, kept)];
          case RedactedBlock(data) =>
            thoughtBlocks := thoughtBlocks + [ThoughtBlock(Base64(data), true, None)];
          case OtherBlock =>
        }
      }
      assert resp.content[..|resp.content|] == resp.content;
      if content != "" {
        result := result.(content := Some(content));
      }
      if functionCalls != [] {
        result := result.(functionCalls := Some(functionCalls));
      }
      if thoughtBlocks != [] {
        result := result.(thoughtBlocks := Some(thoughtBlocks));
        if resp.showThoughts {
          result := result.(thought := Some(Concat(Visible, thoughtBlocks)));
        }
      }
      tokensUsed := Some(MapTokenUsage(resp.usage, resp.serviceTier));
      response := ChatResponse([result], resp.requestId, None, None);
    }

    method CreateChatStreamResp(resp: StreamEvent, state: StreamState) returns (outcome: Outcome)
      modifies this, state
      ensures outcome == if ErrorOf(resp.event).Some? then Threw(ErrorOf(resp.event).value.message)
                         else Responded(EventResponse(old(state.toolIds), resp))
      ensures state.toolIds == ToolIdsAfter(old(state.toolIds), resp.event)
      ensures tokensUsed == TokensAfter(old(tokensUsed), resp.event)
      ensures outcome.Threw? <==> resp.event.Failure?
      ensures outcome.Responded? ==>
                && |outcome.response.results| == 1 && outcome.response.remoteId == resp.requestId
                && outcome.response.results[0].id == (if resp.event.MessageStart? then resp.requestId else None)
      ensures resp.event.MetadataEvent? ==>
                tokensUsed.Some? && Counted(tokensUsed.value, resp.event.usage, resp.event.serviceTier)
    {
      FailureIs(resp.event);
      if resp.event.MetadataEvent? {
        UsageCounted(resp.event.usage, resp.event.serviceTier);
      }
      hide Counted, FailsAs;
      var failure := ErrorOf(resp.event);
      if failure.Some? {
        return Threw(failure.value.message);
      }
      var result := EMPTY_RESULT;
      match resp.event {
        case MessageStart =>
          result := result.(id := resp.requestId, content := Some(""));
        case ContentBlockStart(index, start) =>
          match start {
            case ToolUseStart(toolUseId, name) =>
              var id := toolUseId.GetOr("");
              state.toolIds := state.toolIds[index.GetOr(0) := id];
              result := result.(functionCalls := Some([Call(id, name.GetOr(""), Text(""))]));
            case OtherStart =>
              result := result.(content := Some(""));
          }
        case ContentBlockDelta(index, delta) =>
          result := DeltaResult(state.toolIds, index.GetOr(0), delta, resp.showThoughts);
        case MessageStop(reason) =>
          result := result.(content := Some(""), finishReason := MapStopReason(reason));
        case MetadataEvent(usage, serviceTier) =>
          tokensUsed := Some(MapTokenUsage(usage, serviceTier));
          result := result.(content := Some(""));
        case _ =>
          result := result.(content := Some(""));
      }
      outcome := Responded(ChatResponse([result], resp.requestId, None, None));
    }
  }
}
