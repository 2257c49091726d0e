/**
 * The whole streaming path against the whole answer: Bedrock events are read (src/aws-bedrock/api.ts), stamped with the
 * provider's token usage (src/ax/ai/base.ts) and adapted to AI SDK parts (src/aisdk/provider.ts).
 */
module StreamPipeline {
  import opened Optional
  import opened Sequences
  import opened Encodings
  import opened ChatTypes
  import opened SdkTransformer
  import opened StreamGrammar
  import opened ToolReassembly
  import opened AnswerSplits
  import opened SdkGenerate
  import Batch = StreamEqualsBatch
  import Totals = StreamTotals
  import Bedrock = BedrockStream

  /**
   * The usage that the provider remembers when each event is read.  All requests of a provider share it, so whatever
   * ends in between may have changed it.
   */
  type Memory = seq<Option<TokenUsage>>

  /** The model's name, and the provider metadata that the adapter extracts: the same for all responses to a request. */
  datatype Service = Service(model: string, metadata: Option<Metadata>)

  /** A response without usage of its own gets what `getTokenUsage` says at that moment. */
  function Stamped(chunk: ChatResponse, service: Service, tokens: Option<TokenUsage>): ChatResponse {
    chunk.(modelUsage := if chunk.modelUsage.None? && tokens.Some? then Some(ModelUsage(Some(service.model), tokens))
                         else chunk.modelUsage,
           providerMetadata := service.metadata)
  }

  /** What the adapter is given for the events of a stream. */
  function Delivered(env: Envelope, service: Service, before: Memory, events: seq<Event>): seq<ChatResponse>
    requires |before| == |events|
  {
    if events == [] then []
    else
      var n := |events| - 1;
      Delivered(env, service, before[..n], events[..n])
      + [Stamped(Bedrock.EventResponse(IdsAfter(map[], events[..n]), env.Wrap(events[n])), service,
                 Bedrock.TokensAfter(before[n], events[n]))]
  }

  lemma DeliveredStep(env: Envelope, service: Service, before: Memory, events: seq<Event>, n: nat)
    requires n < |events| == |before|
    ensures var chunk := Bedrock.EventResponse(IdsAfter(map[], events[..n]), env.Wrap(events[n]));
            && IdsAfter(map[], events[..n + 1]) == Bedrock.ToolIdsAfter(IdsAfter(map[], events[..n]), events[n])
            && Run(Delivered(env, service, before[..n + 1], events[..n + 1])) ==
               var (state, parts) := Run(Delivered(env, service, before[..n], events[..n]));
               var stamped := Stamped(chunk, service, Bedrock.TokensAfter(before[n], events[n]));
               var (next, more) := TransformChunk(state, stamped);
               (next, parts + more)
  {
    hide TransformChunk, Stamped, Bedrock.EventResponse, Bedrock.TokensAfter, Bedrock.ToolIdsAfter;
    assert events[..n + 1][..n] == events[..n] && before[..n + 1][..n] == before[..n];
    var shorter := Delivered(env, service, before[..n], events[..n]);
    var longer := Delivered(env, service, before[..n + 1], events[..n + 1]);
    assert longer[..|longer| - 1] == shorter;
  }

  lemma NothingDelivered(env: Envelope, service: Service)
    ensures Run(Delivered(env, service, [], [])) == (INITIAL, []) && IdsAfter(map[], []) == map[]
  {
  }

  /** Relays events until the first failure, which errors the stream without a flush. */
  method Relay(impl: Bedrock.BedrockImpl, env: Envelope, service: Service, before: Memory, events: seq<Event>)
    returns (parts: seq<Part>, taken: nat, failure: Option<string>)
    requires |before| == |events|
    modifies impl
    ensures taken <= |events| && forall i :: 0 <= i < taken ==> Bedrock.ErrorOf(events[i]).None?
    ensures if taken == |events| then
              && failure == None
              && parts == Output(Delivered(env, service, before, events))
              && (taken > 0 ==> impl.tokensUsed == Bedrock.TokensAfter(before[taken - 1], events[taken - 1]))
            else
              && Bedrock.ErrorOf(events[taken]).Some?
              && failure == Some(Bedrock.ErrorOf(events[taken]).value.message)
              && parts == Run(Delivered(env, service, before[..taken], events[..taken])).1
              && impl.tokensUsed == before[taken]
  {
    hide *;
    var state := new Bedrock.StreamState();
    var controller := new Controller();
    var adapter := new AxToSDKTransformer();
    NothingDelivered(env, service);
    assert events[..0] == [] && before[..0] == [];
    taken := 0;
    while taken < |events|
      invariant 0 <= taken <= |events|
      invariant forall i :: 0 <= i < taken ==> Bedrock.ErrorOf(events[i]).None?
      invariant state.toolIds == IdsAfter(map[], events[..taken])
      invariant adapter.View() == Run(Delivered(env, service, before[..taken], events[..taken])).0
      invariant controller.enqueued == Run(Delivered(env, service, before[..taken], events[..taken])).1
      invariant taken > 0 ==> impl.tokensUsed == Bedrock.TokensAfter(before[taken - 1], events[taken - 1])
    {
      DeliveredStep(env, service, before, events, taken);
      impl.tokensUsed := before[taken];
      UnchangedByFailure(impl.tokensUsed, events[taken]);
      var outcome := impl.CreateChatStreamResp(env.Wrap(events[taken]), state);
      WrapKeeps(env, events[taken]);
      match outcome {
        case Threw(message) =>
          return controller.enqueued, taken, Some(message);
        case Responded(response) =>
          adapter.Transform(Stamped(response, service, impl.tokensUsed), controller);
      }
      taken := taken + 1;
    }
    assert events[..taken] == events && before[..taken] == before;
    adapter.Flush(controller);
    OutputIs(Delivered(env, service, before, events));
    return controller.enqueued, taken, None;
  }

  lemma WrapKeeps(env: Envelope, event: Event)
    ensures env.Wrap(event).event == event
  {
  }

  lemma UnchangedByFailure(tokens: Option<TokenUsage>, event: Event)
    ensures Bedrock.ErrorOf(event).Some? ==> Bedrock.TokensAfter(tokens, event) == tokens
  {
  }

  lemma OutputIs(chunks: seq<ChatResponse>)
    ensures Output(chunks) == Run(chunks).1 + Closing(Run(chunks).0)
  {
  }

  // ------------------------------------------------ the stamp changes nothing but usage

  lemma StampKeeps(ids: map<int, string>, event: Bedrock.StreamEvent, service: Service, tokens: Option<TokenUsage>)
    ensures var chunk := Bedrock.EventResponse(ids, event);
            && Stamped(chunk, service, tokens).results == chunk.results
            && chunk.modelUsage.None? && HasResult(chunk)
            && Stamped(chunk, service, tokens).remoteId == event.requestId
  {
    hide Bedrock.EventResult;
  }

  lemma {:induction false} DeliveredReads(env: Envelope, service: Service, before: Memory, events: seq<Event>)
    requires |before| == |events|
    ensures var delivered, chunks := Delivered(env, service, before, events), Chunks(env, map[], events);
            && AllContent(delivered) == AllContent(chunks) && AllCalls(delivered) == AllCalls(chunks)
            && AllHaveResults(delivered) && |delivered| == |events|
  {
    if events != [] {
      hide Bedrock.EventResponse, Stamped, Bedrock.TokensAfter;
      var n := |events| - 1;
      DeliveredReads(env, service, before[..n], events[..n]);
      StampKeeps(IdsAfter(map[], events[..n]), env.Wrap(events[n]), service, Bedrock.TokensAfter(before[n], events[n]));
    }
  }

  /** Stamped or not, the adapter finishes as the events alone decide. */
  lemma {:induction false} DeliveredDecides(env: Envelope, service: Service, before: Memory, events: seq<Event>)
    requires |before| == |events|
    ensures Run(Delivered(env, service, before, events)).0.finishReason == StreamFinish(EndsInCall(false, events))
  {
    Totals.FinishReasonDecided(Delivered(env, service, before, events));
    DecidedStamped(env, service, before, events);
    hide Run, Delivered, EndsInCall;
  }

  lemma {:induction false} DecidedStamped(env: Envelope, service: Service, before: Memory, events: seq<Event>)
    requires |before| == |events|
    ensures Totals.DecidedBy(Delivered(env, service, before, events)) == StreamFinish(EndsInCall(false, events))
  {
    if events != [] {
      hide Bedrock.EventResponse, Stamped, Bedrock.TokensAfter, CarriesCall, CarriesText;
      var n := |events| - 1;
      DecidedStamped(env, service, before[..n], events[..n]);
      var ids, event := IdsAfter(map[], events[..n]), env.Wrap(events[n]);
      StampKeeps(ids, event, service, Bedrock.TokensAfter(before[n], events[n]));
      EventDecides(ids, event);
    }
  }

  // --------------------------------------------------------- provider metadata

  lemma MergeSame(metadata: Option<Metadata>)
    ensures MergeMetadata(None, metadata) == metadata == MergeMetadata(metadata, metadata)
  {
    if metadata.Some? {
      SpreadOntoNothing(metadata.value);
      SpreadOntoItself(metadata.value);
    }
  }

  lemma ChunkProvider(state: State, chunk: ChatResponse)
    ensures TransformChunk(state, chunk).0.providerMetadata
            == MergeMetadata(state.providerMetadata, chunk.providerMetadata)
  {
    hide MergeMetadata, MergeCalls, AddUsage, MapFinishReason;
  }

  /** Merging the same metadata again and again changes nothing. */
  lemma {:induction false} DeliveredProvider(env: Envelope, service: Service, before: Memory, events: seq<Event>)
    requires |before| == |events|
    ensures Run(Delivered(env, service, before, events)).0.providerMetadata
            == if events == [] then None else service.metadata
  {
    if events == [] {
      NothingDelivered(env, service);
    } else {
      hide *;
      var n := |events| - 1;
      DeliveredProvider(env, service, before[..n], events[..n]);
      DeliveredStep(env, service, before, events, n);
      assert before[..n + 1] == before && events[..n + 1] == events;
      var chunk := Bedrock.EventResponse(IdsAfter(map[], events[..n]), env.Wrap(events[n]));
      var stamped := Stamped(chunk, service, Bedrock.TokensAfter(before[n], events[n]));
      StampCarries(chunk, service, Bedrock.TokensAfter(before[n], events[n]));
      ChunkProvider(Run(Delivered(env, service, before[..n], events[..n])).0, stamped);
      MergeSame(service.metadata);
    }
  }

  lemma StampCarries(chunk: ChatResponse, service: Service, tokens: Option<TokenUsage>)
    ensures Stamped(chunk, service, tokens).providerMetadata == service.metadata
  {
  }

  // ------------------------------------------------------------ usage over a stream

  function Given(tokens: Option<TokenUsage>): seq<TokenUsage> {
    if tokens.Some? then [tokens.value] else []
  }

  /** What is remembered at all, in order. */
  function Remembered(before: Memory): seq<TokenUsage> {
    Concat(Given, before)
  }

  function Stamps(before: Memory, events: seq<Event>): Memory
    requires |before| == |events|
  {
    seq(|events|, i requires 0 <= i < |events| => Bedrock.TokensAfter(before[i], events[i]))
  }

  lemma {:induction false} DeliveredTokens(env: Envelope, service: Service, before: Memory, events: seq<Event>)
    requires |before| == |events|
    ensures Totals.TokensOf(Delivered(env, service, before, events)) == Remembered(Stamps(before, events))
  {
    if events != [] {
      hide Bedrock.EventResponse, Bedrock.TokensAfter;
      var n := |events| - 1;
      DeliveredTokens(env, service, before[..n], events[..n]);
      assert Stamps(before, events)[..n] == Stamps(before[..n], events[..n]);
      StampKeeps(IdsAfter(map[], events[..n]), env.Wrap(events[n]), service, Bedrock.TokensAfter(before[n], events[n]));
    }
  }

  predicate Reports(event: Event) { event.MetadataEvent? }

  /** The usage is the raw counters, a missing token count as zero. */
  predicate Billed(usage: Usage, raw: Option<Bedrock.RawUsage>) {
    if raw.None? then usage == Usage(Some(0), None, None, Some(0), None)
    else
      && usage.inputTotal == Some(if raw.value.inputTokens.Some? then raw.value.inputTokens.value else 0)
      && usage.outputTotal == Some(if raw.value.outputTokens.Some? then raw.value.outputTokens.value else 0)
      && usage.cacheRead == raw.value.cacheReadInputTokens
      && usage.cacheWrite == raw.value.cacheWriteInputTokens
      && usage.reasoning.None?
  }

  lemma OwnBilled(raw: Option<Bedrock.RawUsage>, serviceTier: Option<string>)
    ensures var own := Some(Bedrock.MapTokenUsage(raw, serviceTier));
            Billed(CreateUsage(own), raw) && AddUsage(ZERO_USAGE, own) == CreateUsage(own)
  {
    Bedrock.UsageCounted(raw, serviceTier);
    hide Bedrock.Tiered;
  }

  /** With nothing remembered before the report, a stream bills the counters that it reports. */
  lemma UndisturbedUsage(env: Envelope, service: Service, before: Memory, body: seq<Event>, last: Event)
    requires |before| == |body| + 1 && forall i :: 0 <= i < |body| ==> before[i].None?
    requires (forall i :: 0 <= i < |body| ==> !Reports(body[i])) && Reports(last)
    ensures var finish := FinishIn(Output(Delivered(env, service, before, body + [last])));
            finish.Some? && Billed(finish.value.usage, last.usage)
  {
    hide *;
    StreamedUsage(env, service, before, body, last);
    RememberedUsage(None, before[..|body|]);
    ReportIs(last);
    OwnBilled(last.usage, last.serviceTier);
    FinishCarries(Delivered(env, service, before, body + [last]));
  }

  lemma ReportIs(event: Event)
    requires Reports(event)
    ensures event.MetadataEvent?
  {
  }

  /** A stream that reports its usage once, at the end: everything remembered before is added to its own. */
  lemma StreamedUsage(env: Envelope, service: Service, before: Memory, body: seq<Event>, last: Event)
    requires |before| == |body| + 1
    requires (forall i :: 0 <= i < |body| ==> !Reports(body[i])) && Reports(last)
    ensures Run(Delivered(env, service, before, body + [last])).0.usage
            == AddUsage(Totals.TotalUsage(Remembered(before[..|body|])),
                        Some(Bedrock.MapTokenUsage(last.usage, last.serviceTier)))
  {
    var events, own := body + [last], Bedrock.MapTokenUsage(last.usage, last.serviceTier);
    ReportStamps(before, body, last, own);
    hide *;
    DeliveredTokens(env, service, before, events);
    Totals.UsageIsSummed(Delivered(env, service, before, events));
    RememberOne(before[..|body|], own);
    Totals.TotalUsageSnoc(Remembered(before[..|body|]), own);
  }

  lemma ReportStamps(before: Memory, body: seq<Event>, last: Event, own: TokenUsage)
    requires |before| == |body| + 1
    requires (forall i :: 0 <= i < |body| ==> !Reports(body[i])) && Reports(last)
    requires own == Bedrock.MapTokenUsage(last.usage, last.serviceTier)
    ensures Stamps(before, body + [last]) == before[..|body|] + [Some(own)]
  {
    hide Bedrock.MapTokenUsage;
    forall i | 0 <= i < |body|
      ensures Bedrock.TokensAfter(before[i], body[i]) == before[i]
    {
      assert !Reports(body[i]);
    }
  }

  lemma RememberOne(before: Memory, own: TokenUsage)
    ensures Remembered(before + [Some(own)]) == Remembered(before) + [own]
  {
    ConcatSplit(Given, before, [Some(own)]);
    ConcatOne(Given, Some(own));
    hide Concat;
  }

  /** Adding the past counts to a request's own does not show. */
  predicate Harmless(past: Usage, own: TokenUsage) {
    && past.inputTotal == Some(0) && past.outputTotal == Some(0)
    && HarmlessCount(past.cacheRead, own.cacheReadTokens)
    && HarmlessCount(past.cacheWrite, own.cacheCreationTokens)
    && HarmlessCount(past.reasoning, own.reasoningTokens)
  }

  predicate HarmlessCount(past: Option<int>, own: Option<int>) {
    past.None? || (past.value == 0 && own.Some?)
  }

  lemma HarmlessIff(past: Usage, own: TokenUsage)
    requires past.inputTotal.Some? && past.outputTotal.Some?
    ensures AddUsage(past, Some(own)) == CreateUsage(Some(own)) <==> Harmless(past, own)
  {
  }

  predicate NonNegative(usage: Usage) {
    && usage.inputTotal.GetOr(0) >= 0 && usage.outputTotal.GetOr(0) >= 0 && usage.cacheRead.GetOr(0) >= 0
    && usage.cacheWrite.GetOr(0) >= 0 && usage.reasoning.GetOr(0) >= 0
  }

  /** For counts that are not negative, the remembered usage is harmless exactly when each of it is. */
  lemma {:induction false} HarmlessEach(remembered: seq<TokenUsage>, own: TokenUsage)
    requires forall i :: 0 <= i < |remembered| ==> NonNegative(CreateUsage(Some(remembered[i])))
    ensures NonNegative(Totals.TotalUsage(remembered))
    ensures Harmless(Totals.TotalUsage(remembered), own)
            <==> forall i :: 0 <= i < |remembered| ==> Harmless(CreateUsage(Some(remembered[i])), own)
  {
    if remembered == [] {
      Totals.NoUsage();
      ConcatNone(Totals.TokensIn);
    } else {
      hide Totals.TotalUsage, Harmless, NonNegative, AddUsage, CreateUsage;
      var front, last := remembered[..|remembered| - 1], remembered[|remembered| - 1];
      HarmlessEach(front, own);
      Totals.TotalUsageSnoc(front, last);
      assert remembered == front + [last];
      HarmlessSum(Totals.TotalUsage(front), last, own);
    }
  }

  lemma HarmlessSum(past: Usage, t: TokenUsage, own: TokenUsage)
    requires NonNegative(past) && NonNegative(CreateUsage(Some(t)))
    requires past.inputTotal.Some? && past.outputTotal.Some?
    ensures NonNegative(AddUsage(past, Some(t)))
    ensures Harmless(AddUsage(past, Some(t)), own) <==> Harmless(past, own) && Harmless(CreateUsage(Some(t)), own)
  {
  }

  // ------------------------------------------------ without other requests in between

  function Scaled(n: nat, count: Option<int>): Option<int> {
    if n == 0 || count.None? then None else Some(n * count.value)
  }

  /** The same counts, added up `n` times. */
  function Times(n: nat, t: TokenUsage): Usage {
    Usage(Some(n * t.promptTokens), Scaled(n, t.cacheReadTokens), Scaled(n, t.cacheCreationTokens),
          Some(n * t.completionTokens), Scaled(n, t.reasoningTokens))
  }

  lemma OnceMore(n: nat, t: TokenUsage)
    ensures AddUsage(Times(n, t), Some(t)) == Times(n + 1, t)
  {
    Distribute(n, t.promptTokens);
    Distribute(n, t.completionTokens);
    Distribute(n, t.cacheReadTokens.GetOr(0));
    Distribute(n, t.cacheCreationTokens.GetOr(0));
    Distribute(n, t.reasoningTokens.GetOr(0));
  }

  lemma Distribute(n: nat, x: int)
    ensures (n + 1) * x == n * x + x
  {
  }

  /** Usage left by an earlier request alone is added once per event before the report. */
  lemma {:induction false} RememberedUsage(tokens: Option<TokenUsage>, before: Memory)
    requires forall i :: 0 <= i < |before| ==> before[i] == tokens
    ensures Totals.TotalUsage(Remembered(before)) == if tokens.None? then ZERO_USAGE else Times(|before|, tokens.value)
  {
    if before == [] {
      Totals.NoUsage();
      ConcatNone(Totals.TokensIn);
    } else {
      hide Totals.TotalUsage, AddUsage, Times;
      var n := |before| - 1;
      RememberedUsage(tokens, before[..n]);
      if tokens.Some? {
        assert before == before[..n] + [Some(tokens.value)];
        RememberOne(before[..n], tokens.value);
        Totals.TotalUsageSnoc(Remembered(before[..n]), tokens.value);
        OnceMore(n, tokens.value);
      } else {
        assert Remembered(before) == Remembered(before[..n]) + [] == Remembered(before[..n]);
      }
    }
  }

  // ------------------------------------------------------------- response metadata

  function Named(service: Service, stamp: Option<TokenUsage>): Option<string> {
    if stamp.None? then None else Truthy(Some(service.model))
  }

  lemma StampedMetadata(ids: map<int, string>, event: Bedrock.StreamEvent, service: Service, tokens: Option<TokenUsage>)
    ensures var id, name := Truthy(event.requestId), Named(service, tokens);
            ResponseMetadataOf(Stamped(Bedrock.EventResponse(ids, event), service, tokens))
            == if id.None? && name.None? then None else Some(ResponseMetadata(id, name))
  {
    hide Bedrock.EventResult;
  }

  /** With a request id the first event announces all there will be; without one the first that knows the model does. */
  lemma {:induction false} DeliveredMetadata(env: Envelope, service: Service, before: Memory, events: seq<Event>)
    requires |before| == |events| > 0
    ensures var first := Totals.FirstMetadata(Delivered(env, service, before, events));
            var id, stamps := Truthy(env.requestId), Stamps(before, events);
            if id.Some? then first == [ResponseMetadata(id, Named(service, stamps[0]))]
            else if service.model != "" && exists i :: 0 <= i < |stamps| && stamps[i].Some? then
              first == [ResponseMetadata(None, Some(service.model))]
            else first == []
  {
    hide Bedrock.EventResponse, Bedrock.TokensAfter, ResponseMetadataOf, Stamped;
    var n := |events| - 1;
    var stamps := Stamps(before, events);
    StampedMetadata(IdsAfter(map[], events[..n]), env.Wrap(events[n]), service, stamps[n]);
    if n > 0 {
      DeliveredMetadata(env, service, before[..n], events[..n]);
      assert stamps == Stamps(before[..n], events[..n]) + [stamps[n]];
      OneMore(Stamps(before[..n], events[..n]), stamps[n]);
    }
  }

  lemma OneMore(stamps: Memory, stamp: Option<TokenUsage>)
    ensures (exists i :: 0 <= i < |stamps + [stamp]| && (stamps + [stamp])[i].Some?)
            <==> stamp.Some? || exists i :: 0 <= i < |stamps| && stamps[i].Some?
  {
    if stamp.Some? {
      assert (stamps + [stamp])[|stamps|].Some?;
    }
    if i :| 0 <= i < |stamps| && stamps[i].Some? {
      assert (stamps + [stamp])[i].Some?;
    }
  }

  // ------------------------------------------------ the whole path against the whole answer

  function Ending(resp: Bedrock.Converse): Event { Bedrock.MetadataEvent(resp.usage, resp.serviceTier) }

  function Body(resp: Bedrock.Converse, parts: seq<seq<Event>>): seq<Event> {
    [Bedrock.MessageStart] + Flat(parts) + [Bedrock.MessageStop(resp.stopReason)]
  }

  lemma {:induction false} FlatReportsNothing(blocks: seq<Bedrock.Block>, indices: seq<int>, parts: seq<seq<Event>>)
    requires SplitsAll(blocks, indices, parts)
    ensures forall i :: 0 <= i < |Flat(parts)| ==> !Reports(Flat(parts)[i])
  {
    if blocks != [] {
      hide Concat, Fragments, IsLiteral;
      var n := |blocks| - 1;
      FlatReportsNothing(blocks[..n], indices[..n], parts[..n]);
      var part := parts[n];
      assert Splits(blocks[n], indices[n], part);
      forall i | 0 <= i < |part|
        ensures !Reports(part[i])
      {
        assert blocks[n].ToolUseBlock? && i > 0 ==> part[i] == part[1..][i - 1];
      }
    }
  }

  lemma StreamIsBodyAndEnding(resp: Bedrock.Converse, indices: seq<int>, parts: seq<seq<Event>>)
    requires SplitsAll(resp.content, indices, parts)
    ensures StreamOf(resp, parts) == Body(resp, parts) + [Ending(resp)]
    ensures forall i :: 0 <= i < |Body(resp, parts)| ==> !Reports(Body(resp, parts)[i])
    ensures Body(resp, parts) != []
  {
    FlatReportsNothing(resp.content, indices, parts);
  }

  function Own(resp: Bedrock.Converse): TokenUsage { Bedrock.MapTokenUsage(resp.usage, resp.serviceTier) }

  /** What `doGenerate` makes of the whole answer, which is stamped with its own usage. */
  function Whole(resp: Bedrock.Converse, service: Service): Generated {
    Generate(Stamped(Bedrock.BatchResponse(resp), service, Some(Own(resp))), Bedrock.BatchResult(resp))
  }

  /** The SDK's finish reason by Bedrock's stop reasons. */
  predicate FinishesAs(finish: SdkFinish, reason: Option<string>) {
    && Bedrock.StopsAs(finish.raw, reason)
    && (finish.unified == Stopped <==> reason == Some("end_turn") || reason == Some("stop_sequence"))
    && (finish.unified == LengthLimit <==>
          reason == Some("max_tokens") || reason == Some("model_context_window_exceeded"))
    && (finish.unified == ToolCalls <==> reason == Some("tool_use"))
    && (finish.unified == Filtered <==> reason == Some("content_filtered") || reason == Some("guardrail_intervened"))
    && (finish.unified == Failed <==> reason == Some("malformed_model_output") || reason == Some("malformed_tool_use"))
  }

  lemma FinishIs(reason: Option<string>)
    ensures FinishesAs(MapFinishReason(Bedrock.MapStopReason(reason)), reason)
  {
    hide Bedrock.MapStopReason;
    Bedrock.StopReasonIs(reason);
  }

  predicate Empty(s: Option<string>) { s.None? || s.value == "" }

  /** The response metadata: the request id and the model, whichever are not empty. */
  predicate Identifies(response: Option<Part>, requestId: Option<string>, model: string) {
    && (response.None? <==> Empty(requestId) && model == "")
    && (response.Some? ==>
          && response.value.ResponseMetadata?
          && response.value.id == (if Empty(requestId) then None else requestId)
          && response.value.modelId == (if model == "" then None else Some(model)))
  }

  /** The whole answer reports its stop reason and its own usage, with or without text. */
  lemma WholeReads(resp: Bedrock.Converse, service: Service)
    ensures var whole, batch := Whole(resp, service), [Bedrock.BatchResponse(resp)];
            && Concat(TextIn, whole.content) == AllContent(batch)
            && Concat(CallIn, whole.content) == ListedCalls(AllCalls(batch))
            && whole.finishReason == MapFinishReason(Bedrock.MapStopReason(resp.stopReason))
            && FinishesAs(whole.finishReason, resp.stopReason)
            && whole.usage == CreateUsage(Some(Own(resp)))
            && Billed(whole.usage, resp.usage)
            && whole.providerMetadata == service.metadata
            && Identifies(whole.response, resp.requestId, service.model)
  {
    hide Concat, ListedCalls, CreateUsage, MapFinishReason, Bedrock.MapStopReason, Contents, Bedrock.MapTokenUsage,
      FinishesAs, Billed;
    FinishIs(resp.stopReason);
    OwnBilled(resp.usage, resp.serviceTier);
    ContentReads(Bedrock.BatchResult(resp));
    ConcatOne(StreamGrammar.ContentOf, Bedrock.BatchResponse(resp));
    ConcatOne(CallsOf, Bedrock.BatchResponse(resp));
  }

  function FinishIn(parts: seq<Part>): Option<Part> {
    if parts != [] && parts[|parts| - 1].Finish? then Some(parts[|parts| - 1]) else None
  }

  function Announced(response: Option<Part>): seq<Part> {
    if response.None? then [] else [response.value]
  }

  /**
   * End to end, for every answer, every way of splitting it and whatever the provider remembers along the way.  The
   * stream is well formed and has the answer's text and provider metadata.  It agrees with the whole answer
   * - on the tool calls exactly when the text sent for each tool input is the one that the whole answer prints for it,
   * - on the finish reason exactly when that says whether a tool use came last,
   * - on the usage exactly when what is remembered before the report does not show,
   * - on the response metadata exactly when there is no request id, no model name, or usage is remembered at the start.
   */
  lemma PipelineEqualsBatch(resp: Bedrock.Converse, indices: seq<int>, parts: seq<seq<Event>>, service: Service,
                            before: Memory)
    requires SplitsAll(resp.content, indices, parts) && DistinctIds(ToolIds(resp.content))
    requires |before| == |StreamOf(resp, parts)|
    ensures var env := Envelope(resp.requestId, resp.showThoughts);
            var stream := Output(Delivered(env, service, before, StreamOf(resp, parts)));
            var whole, finish := Whole(resp, service), FinishIn(stream);
            && WellFormed(stream)
            && Concat(DeltaOf, stream) == Concat(TextIn, whole.content)
            && (Concat(CallOf, stream) == Concat(CallIn, whole.content)
                <==> Batch.AllFaithful(resp.content, indices, parts))
            && finish.Some? && finish.value.providerMetadata == whole.providerMetadata
            && (finish.value.finishReason == whole.finishReason
                <==> Bedrock.MapStopReason(resp.stopReason)
                     == if Batch.EndsInToolUse(resp.content) then Some(FunctionCall) else None)
            && (finish.value.usage == whole.usage
                <==> Harmless(Totals.TotalUsage(Remembered(before[..|before| - 1])), Own(resp)))
            && (Concat(MetadataOf, stream) == Announced(whole.response)
                <==> Empty(resp.requestId) || service.model == "" || before[0].Some?)
  {
    var env := Envelope(resp.requestId, resp.showThoughts);
    var events := StreamOf(resp, parts);
    var delivered := Delivered(env, service, before, events);
    assert env.showThoughts == resp.showThoughts && env.requestId == resp.requestId;
    hide *;
    WholeReads(resp, service);
    DeliveredReads(env, service, before, events);
    DeliveredProvider(env, service, before, events);
    SomeEvent(resp, parts);
    StreamIsWellFormed(delivered);
    Batch.StreamEqualsBatch(resp, indices, parts);
    TextIsContent(delivered);
    SameFlush(delivered, Chunks(env, map[], events));
    FinishCarries(delivered);
    FinishAgreesWithAnswer(resp, indices, parts, service, before);
    UsageAgrees(resp, indices, parts, service, before);
    MetadataAgrees(resp, indices, parts, service, before);
  }

  lemma SomeEvent(resp: Bedrock.Converse, parts: seq<seq<Event>>)
    ensures StreamOf(resp, parts) != []
  {
  }

  lemma SameFlush(a: seq<ChatResponse>, b: seq<ChatResponse>)
    requires AllCalls(a) == AllCalls(b)
    ensures Concat(CallOf, Output(a)) == FlushedCalls(b)
  {
    FinishesAndCalls(a);
    hide Concat, CallOf, Output, MergeCalls, AllCalls;
  }

  lemma FinishCarries(chunks: seq<ChatResponse>)
    ensures var finish, state := FinishIn(Output(chunks)), Run(chunks).0;
            finish == Some(Finish(state.finishReason, state.usage, state.providerMetadata))
  {
    FinishesAndCalls(chunks);
    OutputIs(chunks);
    hide Output, Run;
  }

  lemma FinishAgreesWithAnswer(resp: Bedrock.Converse, indices: seq<int>, parts: seq<seq<Event>>, service: Service,
                               before: Memory)
    requires SplitsAll(resp.content, indices, parts) && |before| == |StreamOf(resp, parts)|
    ensures var env := Envelope(resp.requestId, resp.showThoughts);
            Run(Delivered(env, service, before, StreamOf(resp, parts))).0.finishReason
            == Whole(resp, service).finishReason
            <==> Bedrock.MapStopReason(resp.stopReason)
                 == if Batch.EndsInToolUse(resp.content) then Some(FunctionCall) else None
  {
    hide *;
    WholeReads(resp, service);
    DeliveredDecides(Envelope(resp.requestId, resp.showThoughts), service, before, StreamOf(resp, parts));
    Batch.StreamEnds(resp, indices, parts);
    FinishAgrees(Batch.EndsInToolUse(resp.content), Bedrock.MapStopReason(resp.stopReason));
  }

  lemma UsageAgrees(resp: Bedrock.Converse, indices: seq<int>, parts: seq<seq<Event>>, service: Service, before: Memory)
    requires SplitsAll(resp.content, indices, parts) && |before| == |StreamOf(resp, parts)|
    ensures var env := Envelope(resp.requestId, resp.showThoughts);
            && |before| > 0
            && (Run(Delivered(env, service, before, StreamOf(resp, parts))).0.usage == Whole(resp, service).usage
                <==> Harmless(Totals.TotalUsage(Remembered(before[..|before| - 1])), Own(resp)))
  {
    EndingIs(resp);
    hide *;
    var body := Body(resp, parts);
    WholeReads(resp, service);
    StreamIsBodyAndEnding(resp, indices, parts);
    var past := Totals.TotalUsage(Remembered(before[..|before| - 1]));
    StreamedUsage(Envelope(resp.requestId, resp.showThoughts), service, before, body, Ending(resp));
    TotalsAreKnown(Remembered(before[..|before| - 1]));
    HarmlessIff(past, Own(resp));
  }

  lemma {:induction false} RememberedContains(before: Memory, t: TokenUsage)
    ensures t in Remembered(before) <==> Some(t) in before
  {
    if before != [] {
      var n := |before| - 1;
      RememberedContains(before[..n], t);
      assert before == before[..n] + [before[n]];
    }
  }

  predicate CountsNonNegative(before: Memory) {
    forall tokens :: tokens in before && tokens.Some? ==> NonNegative(CreateUsage(tokens))
  }

  /** For non-negative counts the usage is right exactly when no event before the report finds some that show. */
  lemma UsageRightIff(resp: Bedrock.Converse, indices: seq<int>, parts: seq<seq<Event>>, service: Service,
                      before: Memory)
    requires SplitsAll(resp.content, indices, parts) && |before| == |StreamOf(resp, parts)|
    requires CountsNonNegative(before)
    ensures var env := Envelope(resp.requestId, resp.showThoughts);
            && |before| > 0
            && (Run(Delivered(env, service, before, StreamOf(resp, parts))).0.usage == Whole(resp, service).usage
                <==> forall tokens :: tokens in before[..|before| - 1] && tokens.Some? ==>
                       Harmless(CreateUsage(tokens), Own(resp)))
  {
    hide SplitsAll, StreamOf, Run, Delivered, Whole, Harmless, Own, Remembered, NonNegative, CreateUsage;
    UsageAgrees(resp, indices, parts, service, before);
    var early := before[..|before| - 1];
    var remembered := Remembered(early);
    forall t: TokenUsage
      ensures t in remembered <==> Some(t) in early
    {
      RememberedContains(early, t);
    }
    forall i | 0 <= i < |remembered|
      ensures NonNegative(CreateUsage(Some(remembered[i])))
    {
      assert Some(remembered[i]) in before;
    }
    HarmlessEach(remembered, Own(resp));
    assert forall t :: t in remembered <==> exists i :: 0 <= i < |remembered| && remembered[i] == t;
  }

  lemma EndingIs(resp: Bedrock.Converse)
    ensures Reports(Ending(resp)) && Own(resp) == Bedrock.MapTokenUsage(Ending(resp).usage, Ending(resp).serviceTier)
  {
  }

  lemma TotalsAreKnown(tokens: seq<TokenUsage>)
    ensures Totals.TotalUsage(tokens).inputTotal.Some? && Totals.TotalUsage(tokens).outputTotal.Some?
  {
  }

  lemma MetadataAgrees(resp: Bedrock.Converse, indices: seq<int>, parts: seq<seq<Event>>, service: Service,
                       before: Memory)
    requires SplitsAll(resp.content, indices, parts) && |before| == |StreamOf(resp, parts)|
    ensures var env := Envelope(resp.requestId, resp.showThoughts);
            && |before| > 0
            && (Concat(MetadataOf, Output(Delivered(env, service, before, StreamOf(resp, parts))))
                == Announced(Whole(resp, service).response)
                <==> Empty(resp.requestId) || service.model == "" || before[0].Some?)
  {
    EndingIs(resp);
    TruthyIs(resp.requestId);
    IdentifiedAs(Whole(resp, service).response, resp.requestId, service.model);
    hide *;
    var env, events, body := Envelope(resp.requestId, resp.showThoughts), StreamOf(resp, parts), Body(resp, parts);
    WholeReads(resp, service);
    StreamIsBodyAndEnding(resp, indices, parts);
    ReportStamps(before, body, Ending(resp), Own(resp));
    DeliveredMetadata(env, service, before, events);
    Totals.MetadataAnnouncedOnce(Delivered(env, service, before, events));
    AnnouncedSame(Truthy(resp.requestId), service, Stamps(before, events), Whole(resp, service).response);
    assert Stamps(before, events)[0] == before[0];
    assert Stamps(before, events)[|body|].Some?;
  }

  lemma TruthyIs(s: Option<string>)
    ensures Truthy(s) == (if Empty(s) then None else s) && (Truthy(s).None? <==> Empty(s))
  {
  }

  lemma IdentifiedAs(response: Option<Part>, requestId: Option<string>, model: string)
    ensures var id, name := Truthy(requestId), Truthy(Some(model));
            Identifies(response, requestId, model)
            <==> response == if id.None? && name.None? then None else Some(ResponseMetadata(id, name))
  {
  }

  lemma AnnouncedSame(id: Option<string>, service: Service, stamps: Memory, response: Option<Part>)
    requires stamps != []
    requires var name := Truthy(Some(service.model));
             response == if id.None? && name.None? then None else Some(ResponseMetadata(id, name))
    ensures id.Some? ==> ([ResponseMetadata(id, Named(service, stamps[0]))] == Announced(response)
                          <==> service.model == "" || stamps[0].Some?)
    ensures id.None? ==>
              Announced(response) == if service.model == "" then [] else [ResponseMetadata(None, Some(service.model))]
  {
  }

  // ----------------------------------------------------------- answers that disagree

  /** An answer without content, usage or stop reason. */
  const SILENT := Bedrock.Converse([], None, None, None, Some("r"), false)

  const ONE_TOKEN := TokenUsage(1, 0, 1, None, None, None, None)

  lemma SilentStream()
    ensures SplitsAll(SILENT.content, [], []) && DistinctIds(ToolIds(SILENT.content))
    ensures |StreamOf(SILENT, [])| == 3
  {
    assert Flat([]) == [];
    ConcatNone(Bedrock.CallOf);
  }

  /** Usage remembered at any event before the report shows: from an earlier request, or one that ended meanwhile. */
  lemma RememberedUsageShows(service: Service, before: Memory)
    requires before == [Some(ONE_TOKEN), Some(ONE_TOKEN), Some(ONE_TOKEN)] || before == [None, Some(ONE_TOKEN), None]
    ensures var stream := Output(Delivered(Envelope(Some("r"), false), service, before, StreamOf(SILENT, [])));
            FinishIn(stream).Some? && FinishIn(stream).value.usage != Whole(SILENT, service).usage
  {
    SilentStream();
    assert SILENT.requestId == Some("r") && !SILENT.showThoughts;
    OneTokenShows(before[..2]);
    hide *;
    PipelineEqualsBatch(SILENT, [], [], service, before);
  }

  lemma OneTokenShows(before: Memory)
    requires |before| == 2 && before[1] == Some(ONE_TOKEN) && (before[0] == None || before[0] == Some(ONE_TOKEN))
    ensures !Harmless(Totals.TotalUsage(Remembered(before)), Own(SILENT))
  {
    assert before == before[..1] + [Some(ONE_TOKEN)] && before[..1] == [before[0]];
    RememberOne(before[..1], ONE_TOKEN);
    ConcatOne(Given, before[0]);
    var remembered := Remembered(before);
    assert remembered == Given(before[0]) + [ONE_TOKEN];
    hide Totals.TotalUsage, Own, Remembered, Concat;
    assert forall i :: 0 <= i < |remembered| ==> remembered[i] == ONE_TOKEN;
    HarmlessEach(remembered, Own(SILENT));
    assert !Harmless(CreateUsage(Some(remembered[0])), Own(SILENT));
  }

  /** A stream of a fresh provider announces its request id without the model. */
  lemma FreshStreamUnnamed(service: Service)
    requires service.model != ""
    ensures var stream := Output(Delivered(Envelope(Some("r"), false), service, [None, None, None],
                                          StreamOf(SILENT, [])));
            Concat(MetadataOf, stream) != Announced(Whole(SILENT, service).response)
  {
    SilentStream();
    assert SILENT.requestId == Some("r") && !SILENT.showThoughts && !Empty(Some("r"));
    var before: Memory := [None, None, None];
    hide *;
    PipelineEqualsBatch(SILENT, [], [], service, before);
  }
}
