/** The chat-response to AI SDK stream adapter of src/aisdk/provider.ts. */
module SdkTransformer {
  import opened Optional
  import opened ChatTypes

  datatype Unified = Stopped | LengthLimit | ToolCalls | Filtered | Failed | Other

  datatype SdkFinish = SdkFinish(unified: Unified, raw: Option<FinishReason>)

  datatype Usage = Usage(inputTotal: Option<int>, cacheRead: Option<int>, cacheWrite: Option<int>,
                         outputTotal: Option<int>, reasoning: Option<int>)

  /** `input` is absent when `JSON.stringify` was given undefined. */
  datatype ToolCall = ToolCall(toolCallId: string, toolName: string, input: Option<string>)

  datatype Part =
    | StreamStart
    | ResponseMetadata(id: Option<string>, modelId: Option<string>)
    | TextStart
    | TextDelta(delta: string)
    | TextEnd
    | ToolCallPart(call: ToolCall)
    | Finish(finishReason: SdkFinish, usage: Usage, providerMetadata: Option<Metadata>)

  datatype State = State(
    usage: Usage,
    finishReason: SdkFinish,
    functionCalls: seq<ToolCall>,
    providerMetadata: Option<Metadata>,
    responseMetadataSent: bool,
    hasStarted: bool,
    textStarted: bool)

  const ZERO_USAGE := Usage(Some(0), None, None, Some(0), None)

  const INITIAL := State(ZERO_USAGE, SdkFinish(Other, None), [], None, false, false, false)

  // ------------------------------------------------------------ pure helpers

  function MapFinishReason(reason: Option<FinishReason>): SdkFinish {
    var unified := match reason
      case Some(Stop) => Stopped
      case Some(Length) => LengthLimit
      case Some(FunctionCall) => ToolCalls
      case Some(ContentFilter) => Filtered
      case Some(Error) => Failed
      case None => Other;
    SdkFinish(unified, reason)
  }

  function AddOptional(current: Option<int>, next: Option<int>): Option<int> {
    if next.None? then current else Some(current.GetOr(0) + next.value)
  }

  function AddUsage(usage: Usage, tokens: Option<TokenUsage>): Usage {
    match tokens
    case None =>
      usage.(inputTotal := Some(usage.inputTotal.GetOr(0)), outputTotal := Some(usage.outputTotal.GetOr(0)))
    case Some(t) =>
      Usage(Some(usage.inputTotal.GetOr(0) + t.promptTokens),
            AddOptional(usage.cacheRead, t.cacheReadTokens),
            AddOptional(usage.cacheWrite, t.cacheCreationTokens),
            Some(usage.outputTotal.GetOr(0) + t.completionTokens),
            AddOptional(usage.reasoning, t.reasoningTokens))
  }

  function CreateUsage(tokens: Option<TokenUsage>): Usage {
    match tokens
    case None => Usage(None, None, None, None, None)
    case Some(t) =>
      Usage(Some(t.promptTokens), t.cacheReadTokens, t.cacheCreationTokens, Some(t.completionTokens), t.reasoningTokens)
  }

  /** An empty string counts as missing. */
  function Truthy(s: Option<string>): Option<string> {
    if s == Some("") then None else s
  }

  function ResponseMetadataOf(chunk: ChatResponse): Option<Part> {
    var id := Truthy(chunk.remoteId);
    var model := Truthy(if chunk.modelUsage.Some? then chunk.modelUsage.value.model else None);
    if id.None? && model.None? then None else Some(ResponseMetadata(id, model))
  }

  function EntriesOf(m: Metadata, provider: string): map<string, string> {
    if provider in m then m[provider] else map[]
  }

  function Spread(a: Metadata, b: Metadata): Metadata {
    map p | p in a.Keys + b.Keys :: EntriesOf(a, p) + EntriesOf(b, p)
  }

  lemma SpreadOntoNothing(m: Metadata)
    ensures Spread(map[], m) == m
  {
    forall p | p in m
      ensures EntriesOf(map[], p) + EntriesOf(m, p) == m[p]
    {
    }
  }

  lemma SpreadOntoItself(m: Metadata)
    ensures Spread(m, m) == m
  {
    assert Spread(m, m).Keys == m.Keys;
    forall p | p in m
      ensures Spread(m, m)[p] == m[p]
    {
      assert m[p] + m[p] == m[p];
    }
  }

  function MergeMetadata(base: Option<Metadata>, next: Option<Metadata>): Option<Metadata> {
    if base.None? && next.None? then None else Some(Spread(base.GetOr(map[]), next.GetOr(map[])))
  }

  method MergeProviderMetadata(base: Option<Metadata>, next: Option<Metadata>) returns (r: Option<Metadata>)
    ensures r == MergeMetadata(base, next)
  {
    if base.None? && next.None? {
      return None;
    }
    var merged: Metadata := map[];
    merged := MergeSource(merged, base.GetOr(map[]));
    merged := MergeSource(merged, next.GetOr(map[]));
    SpreadOntoNothing(base.GetOr(map[]));
    r := Some(merged);
  }

  /** The inner loop: one source's providers, each spread over what has been merged so far. */
  method MergeSource(before: Metadata, source: Metadata) returns (merged: Metadata)
    ensures merged == Spread(before, source)
  {
    hide *;
    merged := before;
    var todo := source.Keys;
    NothingMixed(before, source);
    while todo != {}
      invariant PartlySpread(before, source, todo, merged)
      decreases todo
    {
      var provider :| provider in todo;
      MixOne(before, source, todo, merged, provider);
      var known := if provider in merged then merged[provider] else map[];
      merged := merged[provider := known + source[provider]];
      todo := todo - {provider};
    }
    AllMixed(before, source, merged);
  }

  /** Every provider but those still to do has its final entries. */
  ghost predicate PartlySpread(before: Metadata, source: Metadata, todo: set<string>, merged: Metadata) {
    && todo <= source.Keys && merged.Keys == before.Keys + (source.Keys - todo)
    && forall p :: p in merged ==>
         merged[p] == if p in todo || p !in source then EntriesOf(before, p)
                      else EntriesOf(before, p) + EntriesOf(source, p)
  }

  lemma NothingMixed(before: Metadata, source: Metadata)
    ensures PartlySpread(before, source, source.Keys, before)
  {
  }

  lemma MixOne(before: Metadata, source: Metadata, todo: set<string>, merged: Metadata, provider: string)
    requires PartlySpread(before, source, todo, merged) && provider in todo
    ensures provider in source
    ensures var known := if provider in merged then merged[provider] else map[];
            PartlySpread(before, source, todo - {provider}, merged[provider := known + source[provider]])
  {
    var known := if provider in merged then merged[provider] else map[];
    assert known == EntriesOf(before, provider) && source[provider] == EntriesOf(source, provider);
    hide EntriesOf;
  }

  lemma AllMixed(before: Metadata, source: Metadata, merged: Metadata)
    requires PartlySpread(before, source, {}, merged)
    ensures merged == Spread(before, source)
  {
    hide EntriesOf;
    forall p | p in merged
      ensures merged[p] == EntriesOf(before, p) + EntriesOf(source, p)
    {
      if p !in source {
        NothingAdded(before, source, p);
      }
    }
  }

  lemma NothingAdded(before: Metadata, source: Metadata, provider: string)
    requires provider !in source
    ensures EntriesOf(before, provider) + EntriesOf(source, provider) == EntriesOf(before, provider)
  {
  }

  function InputOf(params: Params): Option<string> {
    match params
    case Text(s) => Some(s)
    case Json(s) => Some(s)
    case Absent => None
  }

  /** The input of a known call after a further fragment: a string appends, anything else replaces. */
  function Extend(input: Option<string>, params: Params): Option<string> {
    match params
    case Text(s) => Some(input.GetOr("") + s)
    case Json(s) => Some(s)
    case Absent => None
  }

  /** The first call with the id, or the length of the list. */
  function FindCall(calls: seq<ToolCall>, id: string): (index: nat)
    ensures index <= |calls|
    ensures index < |calls| ==> calls[index].toolCallId == id
    ensures forall k :: 0 <= k < index ==> calls[k].toolCallId != id
  {
    if calls == [] then 0
    else
      var front := calls[..|calls| - 1];
      var index := FindCall(front, id);
      if index < |front| then index
      else if calls[|front|].toolCallId == id then |front| else |calls|
  }

  function MergeCall(calls: seq<ToolCall>, fc: Call): seq<ToolCall> {
    var index := FindCall(calls, fc.id);
    if index == |calls| then calls + [ToolCall(fc.id, fc.name, InputOf(fc.params))]
    else calls[index := calls[index].(input := Extend(calls[index].input, fc.params))]
  }

  function MergeCalls(calls: seq<ToolCall>, fcs: seq<Call>): seq<ToolCall> {
    if fcs == [] then calls else MergeCall(MergeCalls(calls, fcs[..|fcs| - 1]), fcs[|fcs| - 1])
  }

  lemma NothingMerged(calls: seq<ToolCall>)
    ensures MergeCalls(calls, []) == calls
  {
  }

  // ------------------------------------------------------------- one chunk

  function FinishPart(state: State): Part {
    Finish(state.finishReason, state.usage, state.providerMetadata)
  }

  /** What a chunk does before its first result is looked at. */
  function Preamble(state: State, chunk: ChatResponse): (State, seq<Part>) {
    var meta := ResponseMetadataOf(chunk);
    var sends := !state.responseMetadataSent && meta.Some?;
    (state.(hasStarted := true,
            providerMetadata := MergeMetadata(state.providerMetadata, chunk.providerMetadata),
            responseMetadataSent := state.responseMetadataSent || sends),
     (if state.hasStarted then [] else [StreamStart]) + (if sends then [meta.value] else []))
  }

  function Calls(choice: ChatResult): seq<Call> { choice.functionCalls.GetOr([]) }

  /** What the first result of a chunk does. */
  function Choose(state: State, chunk: ChatResponse, choice: ChatResult): (State, seq<Part>) {
    var content := choice.content.GetOr("");
    var usage := if chunk.modelUsage.Some? then AddUsage(state.usage, chunk.modelUsage.value.tokens) else state.usage;
    var reason := if content != "" then MapFinishReason(choice.finishReason)
                  else if Calls(choice) != [] then SdkFinish(ToolCalls, Some(FunctionCall)) else state.finishReason;
    (state.(usage := usage, finishReason := reason,
            functionCalls := MergeCalls(state.functionCalls, Calls(choice)),
            textStarted := state.textStarted || content != ""),
     if content == "" then [] else (if state.textStarted then [] else [TextStart]) + [TextDelta(content)])
  }

  function TransformChunk(state: State, chunk: ChatResponse): (State, seq<Part>) {
    var (ready, opening) := Preamble(state, chunk);
    if chunk.results == [] then
      (ready, opening + (if ready.textStarted then [TextEnd] else []) + [FinishPart(ready)])
    else
      var (after, parts) := Choose(ready, chunk, chunk.results[0]);
      (after, opening + parts)
  }

  function ToolParts(calls: seq<ToolCall>): seq<Part> {
    seq(|calls|, i requires 0 <= i < |calls| => ToolCallPart(calls[i]))
  }

  function Closing(state: State): seq<Part> {
    (if state.textStarted then [TextEnd] else []) + ToolParts(state.functionCalls) + [FinishPart(state)]
  }

  /** The controller of the transform stream, as a record of what it was told. */
  class Controller {
    var enqueued: seq<Part>
    var terminated: bool

    constructor ()
      ensures enqueued == [] && !terminated
    {
      enqueued, terminated := [], false;
    }

    method Enqueue(part: Part)
      modifies this
      ensures enqueued == old(enqueued) + [part] && terminated == old(terminated)
    {
      enqueued := enqueued + [part];
    }
  }

  class AxToSDKTransformer {
    var usage: Usage
    var finishReason: SdkFinish
    var functionCalls: seq<ToolCall>
    var providerMetadata: Option<Metadata>
    var responseMetadataSent: bool
    var hasStarted: bool
    var textStarted: bool

    ghost function View(): State
      reads this
    {
      State(usage, finishReason, functionCalls, providerMetadata, responseMetadataSent, hasStarted, textStarted)
    }

    constructor ()
      ensures View() == INITIAL
    {
      usage, finishReason, functionCalls, providerMetadata := ZERO_USAGE, SdkFinish(Other, None), [], None;
      responseMetadataSent, hasStarted, textStarted := false, false, false;
    }

    method Transform(chunk: ChatResponse, controller: Controller)
      modifies this, controller
      ensures View() == TransformChunk(old(View()), chunk).0
      ensures controller.enqueued == old(controller.enqueued) + TransformChunk(old(View()), chunk).1
      ensures controller.terminated == old(controller.terminated)
    {
      hide Preamble, Choose;
      Open(chunk, controller);
      if |chunk.results| == 0 {
        if textStarted {
          controller.Enqueue(TextEnd);
        }
        controller.Enqueue(Finish(finishReason, usage, providerMetadata));
        return;
      }
      Choice(chunk, chunk.results[0], controller);
    }

    /** The start of `transform`, up to the look at the first result. */
    method Open(chunk: ChatResponse, controller: Controller)
      modifies this, controller
      ensures View() == Preamble(old(View()), chunk).0
      ensures controller.enqueued == old(controller.enqueued) + Preamble(old(View()), chunk).1
      ensures controller.terminated == old(controller.terminated)
    {
      if !hasStarted {
        controller.Enqueue(StreamStart);
        hasStarted := true;
      }
      providerMetadata := MergeProviderMetadata(providerMetadata, chunk.providerMetadata);
      var responseMetadata := ResponseMetadataOf(chunk);
      if !responseMetadataSent && responseMetadata.Some? {
        controller.Enqueue(responseMetadata.value);
        responseMetadataSent := true;
      }
    }

    /** The rest of `transform` for a chunk that has a first result. */
    method Choice(chunk: ChatResponse, choice: ChatResult, controller: Controller)
      modifies this, controller
      ensures View() == Choose(old(View()), chunk, choice).0
      ensures controller.enqueued == old(controller.enqueued) + Choose(old(View()), chunk, choice).1
      ensures controller.terminated == old(controller.terminated)
    {
      NothingMerged(functionCalls);
      hide MergeCalls, AddUsage, MapFinishReason;
      if chunk.modelUsage.Some? {
        usage := AddUsage(usage, chunk.modelUsage.value.tokens);
      }
      if choice.functionCalls.Some? {
        TakeCalls(choice.functionCalls.value);
      }
      if choice.content.Some? && |choice.content.value| > 0 {
        if !textStarted {
          controller.Enqueue(TextStart);
          textStarted := true;
        }
        controller.Enqueue(TextDelta(choice.content.value));
        finishReason := MapFinishReason(choice.finishReason);
      }
    }

    /** The loop over a result's function calls. */
    method TakeCalls(fcs: seq<Call>)
      modifies this`functionCalls, this`finishReason
      ensures functionCalls == MergeCalls(old(functionCalls), fcs)
      ensures finishReason == if fcs == [] then old(finishReason) else SdkFinish(ToolCalls, Some(FunctionCall))
    {
      for n := 0 to |fcs|
        invariant functionCalls == MergeCalls(old(functionCalls), fcs[..n])
        invariant finishReason == if n == 0 then old(finishReason) else SdkFinish(ToolCalls, Some(FunctionCall))
      {
        var fc := fcs[n];
        var index := FindCall(functionCalls, fc.id);
        if index == |functionCalls| {
          functionCalls := functionCalls + [ToolCall(fc.id, fc.name, InputOf(fc.params))];
        } else {
          var obj := functionCalls[index];
          match fc.params {
            case Text(s) => obj := obj.(input := Some(obj.input.GetOr("") + s));
            case Json(s) => obj := obj.(input := Some(s));
            case Absent => obj := obj.(input := None);
          }
          functionCalls := functionCalls[index := obj];
        }
        finishReason := SdkFinish(ToolCalls, Some(FunctionCall));
        assert fcs[..n + 1][..n] == fcs[..n];
      }
      assert fcs[..|fcs|] == fcs;
    }

    method Flush(controller: Controller)
      modifies controller
      ensures controller.enqueued == old(controller.enqueued) + Closing(View()) && controller.terminated
    {
      if textStarted {
        controller.Enqueue(TextEnd);
      }
      ghost var begun := controller.enqueued;
      for n := 0 to |functionCalls|
        invariant controller.enqueued == begun + ToolParts(functionCalls[..n])
      {
        controller.Enqueue(ToolCallPart(functionCalls[n]));
      }
      assert functionCalls[..|functionCalls|] == functionCalls;
      controller.Enqueue(Finish(finishReason, usage, providerMetadata));
      controller.terminated := true;
    }
  }
}
