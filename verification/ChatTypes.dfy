/** The chat response shapes that the Bedrock provider produces and the AI SDK adapter consumes. */
module ChatTypes {
  import opened Optional

  datatype FinishReason = Stop | Length | FunctionCall | ContentFilter | Error

  /** Tool arguments: a string, another JSON value given by its serialised text, or undefined. */
  datatype Params = Text(text: string) | Json(text: string) | Absent

  datatype Call = Call(id: string, name: string, params: Params)

  datatype ThoughtBlock = ThoughtBlock(data: string, encrypted: bool, signature: Option<string>)

  datatype ChatResult = ChatResult(
    id: Option<string>,
    content: Option<string>,
    functionCalls: Option<seq<Call>>,
    thoughtBlocks: Option<seq<ThoughtBlock>>,
    thought: Option<string>,
    finishReason: Option<FinishReason>)

  const EMPTY_RESULT := ChatResult(None, None, None, None, None, None)

  datatype TokenUsage = TokenUsage(
    promptTokens: int,
    completionTokens: int,
    totalTokens: int,
    cacheCreationTokens: Option<int>,
    cacheReadTokens: Option<int>,
    reasoningTokens: Option<int>,
    serviceTier: Option<string>)

  datatype ModelUsage = ModelUsage(model: Option<string>, tokens: Option<TokenUsage>)

  /** `providerMetadata` is what `createProviderMetadata` extracts from the chunk. */
  type Metadata = map<string, map<string, string>>

  datatype ChatResponse = ChatResponse(
    results: seq<ChatResult>,
    remoteId: Option<string>,
    modelUsage: Option<ModelUsage>,
    providerMetadata: Option<Metadata>)
}
