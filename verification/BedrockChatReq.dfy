/** The cache checkpoints of a whole Converse request and their shared budget (src/aws-bedrock/api.ts). */
module BedrockChatReq {
  import opened Optional
  import opened BedrockRequest
  import opened BedrockCheckpoints
  import opened BedrockReading

  datatype FunctionSpec = FunctionSpec(name: string, cache: bool)

  datatype FunctionCall = Auto | Never | Required | Named(name: string)

  /** A missing list of functions is an empty one. */
  datatype ChatRequest = ChatRequest(prompt: seq<Message>, functions: seq<FunctionSpec>, call: FunctionCall)

  /** The `contextCache` option. */
  datatype ContextCache = ContextCache(ttlSeconds: Option<real>)

  datatype Tool = ToolSpec(name: string) | ToolCachePoint(ttl: Ttl)

  datatype ToolChoice = AnyTool | OneTool(name: string) | AutoTool

  datatype ToolConfig = ToolConfig(tools: seq<Tool>, choice: ToolChoice)

  datatype ConverseRequest = ConverseRequest(messages: seq<Turn>, system: seq<Block>, toolConfig: Option<ToolConfig>)

  const DEFAULT_TTL := 300.0

  function ResolveCacheTtl(caps: Capabilities, contextCache: Option<ContextCache>, explicitBreakpoint: bool)
    : (r: Result<Option<Ttl>>)
    ensures r == Ok(None) <==> !explicitBreakpoint && contextCache.None?
    ensures r.Ok? && r.value.Some? ==> caps.cacheTtls != []
    ensures r == Ok(Some(OneHour)) ==> OneHour in caps.cacheTtls
  {
    if !explicitBreakpoint && contextCache.None? then Ok(None)
    else if caps.cacheTtls == [] then Err(CachingUnsupported)
    else
      var seconds := if contextCache.Some? then contextCache.value.ttlSeconds.GetOr(DEFAULT_TTL) else DEFAULT_TTL;
      if seconds <= 300.0 then Ok(Some(FiveMinutes))
      else if seconds <= 3600.0 && OneHour in caps.cacheTtls then Ok(Some(OneHour))
      else Err(TtlUnsupported)
  }

  function Seconds(ttl: Ttl): real {
    match ttl
    case FiveMinutes => 300.0
    case OneHour => 3600.0
  }

  /** The lifetime is the shortest of the supported ones that lasts as long as asked. */
  lemma ShortestSufficientTtl(caps: Capabilities, asked: real, explicitBreakpoint: bool)
    requires FiveMinutes in caps.cacheTtls
    ensures var r := ResolveCacheTtl(caps, Some(ContextCache(Some(asked))), explicitBreakpoint);
            if exists t :: t in caps.cacheTtls && asked <= Seconds(t) then
              && r.Ok? && r.value.Some?
              && r.value.value in caps.cacheTtls
              && asked <= Seconds(r.value.value)
              && forall t :: t in caps.cacheTtls && asked <= Seconds(t) ==> Seconds(r.value.value) <= Seconds(t)
            else r == Err(TtlUnsupported)
  {
    assert Seconds(FiveMinutes) == 300.0 && Seconds(OneHour) == 3600.0;
    if t :| t in caps.cacheTtls && asked <= Seconds(t) {
      assert t.FiveMinutes? || t.OneHour?;
    }
  }

  /** Without a lifetime asked for, caching means five minutes. */
  lemma DefaultTtl(caps: Capabilities, contextCache: Option<ContextCache>, explicitBreakpoint: bool)
    requires contextCache.Some? ==> contextCache.value.ttlSeconds.None?
    ensures ResolveCacheTtl(caps, contextCache, explicitBreakpoint) ==
            if !explicitBreakpoint && contextCache.None? then Ok(None)
            else if caps.cacheTtls == [] then Err(CachingUnsupported)
            else Ok(Some(FiveMinutes))
  {
  }

  predicate AnyCached(functions: seq<FunctionSpec>) {
    exists i :: 0 <= i < |functions| && functions[i].cache
  }

  predicate ExplicitBreakpoint(request: ChatRequest) {
    (exists i :: 0 <= i < |request.prompt| && request.prompt[i].cache) || AnyCached(request.functions)
  }

  function ToolSpecs(functions: seq<FunctionSpec>): seq<Tool> {
    seq(|functions|, i requires 0 <= i < |functions| => ToolSpec(functions[i].name))
  }

  function CreateToolConfig(request: ChatRequest, ttl: Option<Ttl>, autoCache: bool): Option<ToolConfig> {
    if request.functions == [] || request.call.Never? then None
    else
      var point := if ttl.Some? && (autoCache || AnyCached(request.functions)) then [ToolCachePoint(ttl.value)] else [];
      var choice := match request.call
                    case Required => AnyTool
                    case Named(name) => OneTool(name)
                    case _ => AutoTool;
      Some(ToolConfig(ToolSpecs(request.functions) + point, choice))
  }

  function ToolPoints(tools: seq<Tool>): nat {
    if tools == [] then 0 else ToolPoints(tools[..|tools| - 1]) + if tools[|tools| - 1].ToolCachePoint? then 1 else 0
  }

  predicate ToolCacheRequested(caps: Capabilities, request: ChatRequest, ttl: Option<Ttl>, autoCache: bool) {
    caps.functions && ttl.Some? && request.functions != [] && !request.call.Never?
    && (autoCache || AnyCached(request.functions))
  }

  function MessageBudget(caps: Capabilities, request: ChatRequest, ttl: Option<Ttl>, autoCache: bool): nat {
    if ToolCacheRequested(caps, request, ttl, autoCache) then 3 else 4
  }

  function Built(caps: Capabilities, request: ChatRequest, ttl: Option<Ttl>, autoCache: bool): ConverseRequest {
    var translated := Translation(caps, ttl, autoCache, MessageBudget(caps, request, ttl, autoCache), request.prompt);
    ConverseRequest(translated.messages, translated.system,
                    if caps.functions then CreateToolConfig(request, ttl, autoCache) else None)
  }

  /** `optionsRefused`: the thinking budget or the service tier is not supported by the model. */
  predicate Buildable(caps: Capabilities, request: ChatRequest, contextCache: Option<ContextCache>,
                      optionsRefused: bool) {
    var ttl := ResolveCacheTtl(caps, contextCache, ExplicitBreakpoint(request));
    && ttl.Ok?
    && Acceptable(caps, ttl.value, contextCache.Some?,
                  MessageBudget(caps, request, ttl.value, contextCache.Some?), request.prompt)
    && !optionsRefused
  }

  method CreateChatReq(caps: Capabilities, request: ChatRequest, contextCache: Option<ContextCache>,
                       optionsRefused: bool)
    returns (r: Result<ConverseRequest>)
    ensures r.Ok? <==> Buildable(caps, request, contextCache, optionsRefused)
    ensures var ttl := ResolveCacheTtl(caps, contextCache, ExplicitBreakpoint(request));
            if ttl.Err? then r == Err(ttl.error)
            else
              && (r.Ok? ==> r.value == Built(caps, request, ttl.value, contextCache.Some?))
              && (r.Err? ==>
                    if Acceptable(caps, ttl.value, contextCache.Some?,
                                  MessageBudget(caps, request, ttl.value, contextCache.Some?), request.prompt)
                    then r.error == Rejected
                    else Explained(r.error, ttl.value, BlamesPrompt(caps, request.prompt, r.error)))
  {
    var resolved := ResolveCacheTtl(caps, contextCache, ExplicitBreakpoint(request));
    if resolved.Err? {
      return Err(resolved.error);
    }
    var ttl, autoCache := resolved.value, contextCache.Some?;
    var toolCacheRequested := ToolCacheRequested(caps, request, ttl, autoCache);
    var translated := CreateMessages(caps, ttl, autoCache, if toolCacheRequested then 3 else 4, request.prompt);
    if translated.Err? {
      return Err(translated.error);
    }
    if optionsRefused {
      return Err(Rejected);
    }
    var toolConfig := if caps.functions then CreateToolConfig(request, ttl, autoCache) else None;
    r := Ok(ConverseRequest(translated.value.messages, translated.value.system, toolConfig));
  }

  // ------------------------------------------------------------- the budget

  /** Checkpoints across messages, system prompt and tools. */
  function Checkpoints(built: ConverseRequest): nat {
    CheckpointsOf(Messages(built.messages, built.system))
    + if built.toolConfig.Some? then ToolPoints(built.toolConfig.value.tools) else 0
  }

  lemma {:induction false} SpecsHaveNoPoints(functions: seq<FunctionSpec>)
    ensures ToolPoints(ToolSpecs(functions)) == 0
  {
    if functions != [] {
      var front := functions[..|functions| - 1];
      SpecsHaveNoPoints(front);
      assert ToolSpecs(functions)[..|front|] == ToolSpecs(front);
    }
  }

  /** The tools carry their own checkpoint exactly when the prompt was left one fewer. */
  lemma ToolCheckpoint(caps: Capabilities, request: ChatRequest, ttl: Option<Ttl>, autoCache: bool)
    requires caps.functions
    ensures var config := CreateToolConfig(request, ttl, autoCache);
            (if config.Some? then ToolPoints(config.value.tools) else 0)
            == Asks(ToolCacheRequested(caps, request, ttl, autoCache))
  {
    var specs := ToolSpecs(request.functions);
    SpecsHaveNoPoints(request.functions);
    if ToolCacheRequested(caps, request, ttl, autoCache) {
      assert (specs + [ToolCachePoint(ttl.value)])[..|specs|] == specs;
    } else {
      assert specs + [] == specs;
    }
  }

  /** The tools of a request: its functions in order, the checkpoint behind them, and the choice that was asked for. */
  lemma ToolsShown(caps: Capabilities, request: ChatRequest, ttl: Option<Ttl>, autoCache: bool)
    ensures var config, n := Built(caps, request, ttl, autoCache).toolConfig, |request.functions|;
            && (config.Some? <==> caps.functions && n > 0 && request.call != Never)
            && (config.Some? ==>
                  var tools, choice := config.value.tools, config.value.choice;
                  && (forall i :: 0 <= i < n ==> i < |tools| && tools[i] == ToolSpec(request.functions[i].name))
                  && tools[n..] == (if ttl.Some? && (autoCache || exists i :: 0 <= i < n && request.functions[i].cache)
                                    then [ToolCachePoint(ttl.value)] else [])
                  && (choice == AnyTool <==> request.call == Required)
                  && (choice == AutoTool <==> request.call == Auto)
                  && (choice.OneTool? ==> request.call == Named(choice.name)))
  {
    hide Translation;
    var specs := ToolSpecs(request.functions);
    assert forall point: seq<Tool> :: (specs + point)[|specs|..] == point;
  }

  /** Every checkpoint of a request, in its messages, system prompt or tools, lives as long as was resolved. */
  lemma OneLifetime(caps: Capabilities, request: ChatRequest, contextCache: Option<ContextCache>, optionsRefused: bool)
    requires Buildable(caps, request, contextCache, optionsRefused)
    ensures var ttl := ResolveCacheTtl(caps, contextCache, ExplicitBreakpoint(request)).value;
            var built := Built(caps, request, ttl, contextCache.Some?);
            if ttl.None? then Checkpoints(built) == 0
            else
              && LiveTags(ttl.value, Tagged(built.messages)) && Live(ttl.value, built.system)
              && (built.toolConfig.Some? ==>
                    var tools := built.toolConfig.value.tools;
                    forall i :: 0 <= i < |tools| && tools[i].ToolCachePoint? ==> tools[i].ttl == ttl.value)
  {
    hide Tagged, Translation, ResolveCacheTtl, ExplicitBreakpoint, Acceptable, LiveTags, Live, Checkpoints;
    var ttl := ResolveCacheTtl(caps, contextCache, ExplicitBreakpoint(request)).value;
    CheckpointBudget(caps, request, contextCache, optionsRefused);
    if ttl.Some? {
      var max := MessageBudget(caps, request, ttl, contextCache.Some?);
      TranslationLives(caps, ttl.value, contextCache.Some?, max, request.prompt);
    }
  }

  /** What a built request carries: the requested checkpoints, the tools' one, and the fallback when both are absent. */
  lemma CheckpointCount(caps: Capabilities, request: ChatRequest, ttl: Option<Ttl>, autoCache: bool)
    ensures var asked := AllAsks(autoCache, request.prompt) + Asks(ToolCacheRequested(caps, request, ttl, autoCache));
            Checkpoints(Built(caps, request, ttl, autoCache))
            == asked + Asks(asked == 0 && autoCache && ttl.Some? && Others(request.prompt) != [])
  {
    hide AllAsks, CheckpointsOf, ToolPoints, Translation, CreateToolConfig;
    var max := MessageBudget(caps, request, ttl, autoCache);
    MessageNormalForm(caps, ttl, autoCache, max, request.prompt);
    if caps.functions {
      ToolCheckpoint(caps, request, ttl, autoCache);
    }
  }

  lemma {:induction false} SomeSystem(prompt: seq<Message>)
    ensures |Systems(prompt)| + |Others(prompt)| == |prompt|
  {
    if prompt != [] {
      SomeSystem(prompt[..|prompt| - 1]);
    }
  }

  /** With automatic caching a prompt without anything else still asks for the checkpoint of its last system text. */
  lemma SystemAutoAsks(prompt: seq<Message>)
    requires Systems(prompt) != []
    ensures AllAsks(true, prompt) >= 1
  {
    hide Systems, Others, Count;
  }

  /**
   * A request is built exactly when everything in it is supported and the checkpoints asked for, the tools' one
   * included, are at most four; it then carries at most four, and at least one when caching is on.
   */
  lemma CheckpointBudget(caps: Capabilities, request: ChatRequest, contextCache: Option<ContextCache>,
                         optionsRefused: bool)
    ensures var ttl := ResolveCacheTtl(caps, contextCache, ExplicitBreakpoint(request));
            var autoCache := contextCache.Some?;
            && (ttl.Ok? && ttl.value.Some? ==>
                  (Buildable(caps, request, contextCache, optionsRefused) <==>
                     && !optionsRefused
                     && (forall i :: 0 <= i < |request.prompt| ==> Supported(caps, request.prompt[i]))
                     && AllAsks(autoCache, request.prompt)
                        + Asks(ToolCacheRequested(caps, request, ttl.value, autoCache)) <= 4))
            && (Buildable(caps, request, contextCache, optionsRefused) ==>
                  && Checkpoints(Built(caps, request, ttl.value, autoCache)) <= 4
                  && (autoCache && request.prompt != [] ==>
                        Checkpoints(Built(caps, request, ttl.value, autoCache)) >= 1)
                  && (ttl.value.None? ==> Checkpoints(Built(caps, request, ttl.value, autoCache)) == 0))
  {
    hide AllAsks, Checkpoints, Built, Supported, ExplicitBreakpoint;
    var ttl := ResolveCacheTtl(caps, contextCache, ExplicitBreakpoint(request));
    if ttl.Ok? {
      CheckpointCount(caps, request, ttl.value, contextCache.Some?);
      SomeSystem(request.prompt);
      if Systems(request.prompt) != [] {
        SystemAutoAsks(request.prompt);
      }
    }
  }

  /**
   * Breakpoints on single content items do not turn caching on: without a breakpoint on a message or a function and
   * without `contextCache`, a request is built only if no item asks for a checkpoint, whatever the model supports.
   */
  lemma ItemBreakpointsAlone(caps: Capabilities, request: ChatRequest, optionsRefused: bool)
    requires !ExplicitBreakpoint(request)
    ensures Buildable(caps, request, None, optionsRefused) <==>
            && !optionsRefused
            && (forall i :: 0 <= i < |request.prompt| ==> Supported(caps, request.prompt[i]))
            && (forall i :: 0 <= i < |request.prompt| ==> InnerAsks(request.prompt[i]) == 0)
  {
    hide Supported, ExplicitBreakpoint, AllAsks;
    UncachedMessages(request);
    UncachedAsks(request.prompt);
  }

  lemma UncachedMessages(request: ChatRequest)
    requires !ExplicitBreakpoint(request)
    ensures (forall i :: 0 <= i < |request.prompt| ==> !request.prompt[i].cache) && !AnyCached(request.functions)
  {
  }

  lemma {:induction false} UncachedAsks(prompt: seq<Message>)
    requires forall i :: 0 <= i < |prompt| ==> !prompt[i].cache
    ensures AllAsks(false, prompt) == 0 <==> forall i :: 0 <= i < |prompt| ==> InnerAsks(prompt[i]) == 0
  {
    hide InnerAsks;
    UncachedOthers(prompt);
    UncachedSystems(prompt);
    UncachedSystemAsks(Systems(prompt), |Systems(prompt)|);
  }

  lemma {:induction false} UncachedOthers(prompt: seq<Message>)
    requires forall i :: 0 <= i < |prompt| ==> !prompt[i].cache
    ensures Count(MessageAsks, Others(prompt)) == 0 <==> forall i :: 0 <= i < |prompt| ==> InnerAsks(prompt[i]) == 0
  {
    hide Others, Count, InnerAsks, MessageAsks;
    if prompt != [] {
      var front, last := prompt[..|prompt| - 1], prompt[|prompt| - 1];
      UncachedOthers(front);
      OthersLast(front, last);
      assert prompt == front + [last];
      NoneInner(front, last);
    } else {
      NoOthers();
    }
  }

  lemma NoOthers()
    ensures Count(MessageAsks, Others([])) == 0
  {
  }

  lemma NoneInner(front: seq<Message>, last: Message)
    ensures (forall i :: 0 <= i < |front + [last]| ==> InnerAsks((front + [last])[i]) == 0)
            <==> (forall i :: 0 <= i < |front| ==> InnerAsks(front[i]) == 0) && InnerAsks(last) == 0
  {
    hide InnerAsks;
    var all := front + [last];
    assert all[|front|] == last;
    assert forall i :: 0 <= i < |front| ==> all[i] == front[i];
  }

  lemma OthersLast(front: seq<Message>, last: Message)
    requires !last.cache
    ensures Count(MessageAsks, Others(front + [last])) == Count(MessageAsks, Others(front)) + InnerAsks(last)
  {
    assert (front + [last])[..|front|] == front;
    var others := Others(front);
    if last.SystemMessage? {
      assert others + [] == others && InnerAsks(last) == 0;
    } else {
      assert (others + [last])[..|others|] == others;
    }
  }

  lemma {:induction false} UncachedSystems(prompt: seq<Message>)
    requires forall i :: 0 <= i < |prompt| ==> !prompt[i].cache
    ensures forall i :: 0 <= i < |Systems(prompt)| ==> !Systems(prompt)[i].cache
  {
    if prompt != [] {
      UncachedSystems(prompt[..|prompt| - 1]);
    }
  }

  lemma {:induction false} UncachedSystemAsks(systems: seq<Message>, n: nat)
    requires n <= |systems| && forall i :: 0 <= i < |systems| ==> !systems[i].cache
    ensures SystemAsks(false, systems, n) == 0
  {
    if n > 0 {
      UncachedSystemAsks(systems, n - 1);
    }
  }

  const LONE_ITEM := TextItem("x", true)

  const LONE_PROMPT: seq<Message> := [UserMessage(Items([LONE_ITEM]), false)]

  lemma LonePromptAsks()
    ensures InnerAsks(LONE_PROMPT[0]) == 1 && AllAsks(true, LONE_PROMPT) == 1
  {
    var none: seq<Message> := [];
    assert LONE_PROMPT == none + [LONE_PROMPT[0]];
    assert [LONE_ITEM][..0] == [] && Count(ItemAsks, [LONE_ITEM]) == 1;
    OthersLast(none, LONE_PROMPT[0]);
    assert LONE_PROMPT[..0] == none && Systems(LONE_PROMPT) == [];
    NoOthers();
  }

  /** A model with every capability rejects a lone item breakpoint, and takes it once `contextCache` is set. */
  lemma ItemBreakpointRejected()
    ensures var caps := Capabilities(true, true, true, [FiveMinutes, OneHour], true);
            var request := ChatRequest(LONE_PROMPT, [], Auto);
            && !Buildable(caps, request, None, false)
            && Buildable(caps, request, Some(ContextCache(None)), false)
  {
    var caps := Capabilities(true, true, true, [FiveMinutes, OneHour], true);
    var request := ChatRequest(LONE_PROMPT, [], Auto);
    hide AllAsks, InnerAsks, Count;
    LonePromptAsks();
    assert !ExplicitBreakpoint(request) && Supported(caps, LONE_PROMPT[0]);
    ItemBreakpointsAlone(caps, request, false);
    CheckpointBudget(caps, request, Some(ContextCache(None)), false);
  }
}
