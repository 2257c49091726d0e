/** What the finish part and the response metadata of a stream carry, against the whole chunk list. */
module StreamTotals {
  import opened Optional
  import opened Sequences
  import opened ChatTypes
  import opened SdkTransformer
  import opened StreamGrammar

  // ------------------------------------------------------------------ usage

  /** The token counts of the chunks that have a result, in order. */
  function TokensOf(chunks: seq<ChatResponse>): seq<TokenUsage> {
    Concat(TokensIn, chunks)
  }

  function TokensIn(chunk: ChatResponse): seq<TokenUsage> {
    if HasResult(chunk) && chunk.modelUsage.Some? && chunk.modelUsage.value.tokens.Some?
    then [chunk.modelUsage.value.tokens.value] else []
  }

  function Sum(numbers: seq<int>): int {
    if numbers == [] then 0 else Sum(numbers[..|numbers| - 1]) + numbers[|numbers| - 1]
  }

  /** The numbers that are present. */
  function Known(numbers: seq<Option<int>>): seq<int> {
    if numbers == [] then []
    else Known(numbers[..|numbers| - 1])
         + if numbers[|numbers| - 1].Some? then [numbers[|numbers| - 1].value] else []
  }

  /** Absent when nothing is known, and otherwise the sum of what is. */
  function SumKnown(numbers: seq<Option<int>>): Option<int> {
    if Known(numbers) == [] then None else Some(Sum(Known(numbers)))
  }

  function Each<T>(pick: TokenUsage -> T, tokens: seq<TokenUsage>): seq<T> {
    seq(|tokens|, i requires 0 <= i < |tokens| => pick(tokens[i]))
  }

  function TotalUsage(tokens: seq<TokenUsage>): Usage {
    Usage(Some(Sum(Each((t: TokenUsage) => t.promptTokens, tokens))),
          SumKnown(Each((t: TokenUsage) => t.cacheReadTokens, tokens)),
          SumKnown(Each((t: TokenUsage) => t.cacheCreationTokens, tokens)),
          Some(Sum(Each((t: TokenUsage) => t.completionTokens, tokens))),
          SumKnown(Each((t: TokenUsage) => t.reasoningTokens, tokens)))
  }

  lemma SumSnoc(numbers: seq<int>, n: int)
    ensures Sum(numbers + [n]) == Sum(numbers) + n
  {
    assert (numbers + [n])[..|numbers|] == numbers;
  }

  lemma SumKnownSnoc(numbers: seq<Option<int>>, n: Option<int>)
    ensures SumKnown(numbers + [n]) == AddOptional(SumKnown(numbers), n)
  {
    assert (numbers + [n])[..|numbers|] == numbers;
    var known := Known(numbers);
    if n.Some? {
      assert Known(numbers + [n]) == known + [n.value];
      SumSnoc(known, n.value);
    } else {
      assert Known(numbers + [n]) == known;
    }
  }

  lemma EachSnoc<T>(pick: TokenUsage -> T, tokens: seq<TokenUsage>, t: TokenUsage)
    ensures Each(pick, tokens + [t]) == Each(pick, tokens) + [pick(t)]
  {
  }

  lemma TotalUsageSnoc(tokens: seq<TokenUsage>, t: TokenUsage)
    ensures TotalUsage(tokens + [t]) == AddUsage(TotalUsage(tokens), Some(t))
  {
    hide Sum, SumKnown, Each;
    EachSnoc((t: TokenUsage) => t.promptTokens, tokens, t);
    EachSnoc((t: TokenUsage) => t.completionTokens, tokens, t);
    EachSnoc((t: TokenUsage) => t.cacheReadTokens, tokens, t);
    EachSnoc((t: TokenUsage) => t.cacheCreationTokens, tokens, t);
    EachSnoc((t: TokenUsage) => t.reasoningTokens, tokens, t);
    SumSnoc(Each((t: TokenUsage) => t.promptTokens, tokens), t.promptTokens);
    SumSnoc(Each((t: TokenUsage) => t.completionTokens, tokens), t.completionTokens);
    SumKnownSnoc(Each((t: TokenUsage) => t.cacheReadTokens, tokens), t.cacheReadTokens);
    SumKnownSnoc(Each((t: TokenUsage) => t.cacheCreationTokens, tokens), t.cacheCreationTokens);
    SumKnownSnoc(Each((t: TokenUsage) => t.reasoningTokens, tokens), t.reasoningTokens);
  }

  /** The finish part carries the summed usage of all chunks with a result. */
  lemma {:induction false} UsageIsSummed(chunks: seq<ChatResponse>)
    ensures Run(chunks).0.usage == TotalUsage(TokensOf(chunks))
  {
    if chunks == [] {
      NoUsage();
    } else {
      hide TotalUsage, AddUsage, TransformChunk, TokensIn;
      var front, chunk := chunks[..|chunks| - 1], chunks[|chunks| - 1];
      UsageIsSummed(front);
      ChunkUsage(Run(front).0, chunk, TokensOf(front));
    }
  }

  lemma NoUsage()
    ensures Run([]).0.usage == ZERO_USAGE == TotalUsage(TokensOf([]))
  {
  }

  lemma ChunkUsage(state: State, chunk: ChatResponse, before: seq<TokenUsage>)
    requires state.usage == TotalUsage(before)
    ensures TransformChunk(state, chunk).0.usage == TotalUsage(before + TokensIn(chunk))
  {
    hide MergeMetadata, MergeCalls, MapFinishReason, Sum, SumKnown, Each;
    if TokensIn(chunk) == [] {
      assert before + TokensIn(chunk) == before;
    } else {
      TotalUsageSnoc(before, TokensIn(chunk)[0]);
    }
  }

  // ---------------------------------------------------------- provider metadata

  function Lookup(metadata: Option<Metadata>, provider: string, key: string): Option<string> {
    if metadata.Some? && provider in metadata.value && key in metadata.value[provider]
    then Some(metadata.value[provider][key]) else None
  }

  /** The value of the last chunk that names the provider's key. */
  function LastValue(chunks: seq<ChatResponse>, provider: string, key: string): Option<string> {
    if chunks == [] then None
    else
      var own := Lookup(chunks[|chunks| - 1].providerMetadata, provider, key);
      if own.Some? then own else LastValue(chunks[..|chunks| - 1], provider, key)
  }

  lemma MergedLookup(base: Option<Metadata>, next: Option<Metadata>, provider: string, key: string)
    ensures Lookup(MergeMetadata(base, next), provider, key)
            == if Lookup(next, provider, key).Some? then Lookup(next, provider, key) else Lookup(base, provider, key)
  {
    if base.Some? || next.Some? {
      var a, b := base.GetOr(map[]), next.GetOr(map[]);
      assert EntriesOf(Spread(a, b), provider) == EntriesOf(a, provider) + EntriesOf(b, provider);
    }
  }

  /** The stream's provider metadata: per provider and key, the last chunk wins. */
  lemma {:induction false} MetadataLastWins(chunks: seq<ChatResponse>, provider: string, key: string)
    ensures Lookup(Run(chunks).0.providerMetadata, provider, key) == LastValue(chunks, provider, key)
  {
    if chunks != [] {
      hide Lookup, MergeMetadata, MergeCalls, AddUsage;
      var front, chunk := chunks[..|chunks| - 1], chunks[|chunks| - 1];
      MetadataLastWins(front, provider, key);
      MergedLookup(Run(front).0.providerMetadata, chunk.providerMetadata, provider, key);
    }
  }

  // ------------------------------------------------------------- finish reason

  predicate Touches(chunk: ChatResponse) {
    ContentOf(chunk) != "" || CallsOf(chunk) != []
  }

  /** Only the last chunk with text or calls decides: its text by its own reason, else its calls. */
  function DecidedBy(chunks: seq<ChatResponse>): SdkFinish {
    if chunks == [] then SdkFinish(Other, None)
    else
      var chunk := chunks[|chunks| - 1];
      if !Touches(chunk) then DecidedBy(chunks[..|chunks| - 1])
      else if ContentOf(chunk) != "" then MapFinishReason(chunk.results[0].finishReason)
      else SdkFinish(ToolCalls, Some(FunctionCall))
  }

  lemma {:induction false} FinishReasonDecided(chunks: seq<ChatResponse>)
    ensures Run(chunks).0.finishReason == DecidedBy(chunks)
  {
    if chunks != [] {
      hide MergeMetadata, MergeCalls, AddUsage;
      FinishReasonDecided(chunks[..|chunks| - 1]);
    }
  }

  // ---------------------------------------------------------- response metadata

  /** The first chunk that names a remote id or a model. */
  function FirstMetadata(chunks: seq<ChatResponse>): seq<Part> {
    if chunks == [] then []
    else
      var front, own := FirstMetadata(chunks[..|chunks| - 1]), ResponseMetadataOf(chunks[|chunks| - 1]);
      if front != [] || own.None? then front else [own.value]
  }

  lemma MetadataOfChunk(state: State, chunk: ChatResponse)
    ensures Concat(MetadataOf, TransformChunk(state, chunk).1)
            == if !state.responseMetadataSent && ResponseMetadataOf(chunk).Some?
               then [ResponseMetadataOf(chunk).value] else []
  {
    hide TransformChunk, Preamble, Choose, Concat;
    CollectChunk(MetadataOf, state, chunk);
    CollectPreamble(MetadataOf, state, chunk);
    if chunk.results != [] {
      CollectChoice(MetadataOf, Preamble(state, chunk).0, chunk, chunk.results[0]);
    }
  }

  lemma {:induction false} RunMetadata(chunks: seq<ChatResponse>)
    ensures Concat(MetadataOf, Run(chunks).1) == FirstMetadata(chunks)
    ensures Run(chunks).0.responseMetadataSent <==> FirstMetadata(chunks) != []
  {
    if chunks != [] {
      hide MergeMetadata, MergeCalls, AddUsage, MapFinishReason;
      var front, chunk := chunks[..|chunks| - 1], chunks[|chunks| - 1];
      RunMetadata(front);
      var (state, parts) := Run(front);
      ConcatSplit(MetadataOf, parts, TransformChunk(state, chunk).1);
      MetadataOfChunk(state, chunk);
    }
  }

  /** The stream announces exactly the first response metadata it learns, and announces it once. */
  lemma {:induction false} MetadataAnnouncedOnce(chunks: seq<ChatResponse>)
    ensures Concat(MetadataOf, Output(chunks)) == FirstMetadata(chunks)
  {
    RunMetadata(chunks);
    var (state, parts) := Run(chunks);
    ConcatSplit(MetadataOf, parts, Closing(state));
    CollectClosing(MetadataOf, state);
    CollectTools(state.functionCalls);
  }
}
