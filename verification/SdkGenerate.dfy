/** The AI SDK's view of a whole answer: `doGenerate` of src/aisdk/provider.ts. */
module SdkGenerate {
  import opened Optional
  import opened Sequences
  import opened ChatTypes
  import opened SdkTransformer

  datatype Content = TextContent(text: string) | CallContent(call: ToolCall)

  /** `response` is the response metadata, if any. */
  datatype Generated = Generated(content: seq<Content>, finishReason: SdkFinish, usage: Usage,
                                 providerMetadata: Option<Metadata>, response: Option<Part>)

  function Listed(call: Call): ToolCall {
    ToolCall(call.id, call.name, InputOf(call.params))
  }

  function TextIn(content: Content): string { if content.TextContent? then content.text else "" }

  function CallIn(content: Content): seq<ToolCall> { if content.CallContent? then [content.call] else [] }

  /** `None` stands for the error that an answer without results is. */
  method DoGenerate(res: ChatResponse) returns (generated: Option<Generated>)
    ensures generated.None? <==> res.results == []
    ensures generated.Some? ==>
              var choice, all := res.results[0], generated.value;
              && Concat(TextIn, all.content) == choice.content.GetOr("")
              && (forall i :: 0 <= i < |all.content| && all.content[i].TextContent? ==>
                    i == 0 && all.content[i].text != "")
              && Concat(CallIn, all.content) == ListedCalls(choice.functionCalls.GetOr([]))
              && all == Generate(res, choice)
  {
    hide Concat, MapFinishReason, CreateUsage, ResponseMetadataOf, ListedCalls;
    if |res.results| == 0 {
      return None;
    }
    var choice := res.results[0];
    var content: seq<Content> := [];
    if choice.content.Some? && choice.content.value != "" {
      content := content + [TextContent(choice.content.value)];
    }
    ghost var text := content;
    if choice.functionCalls.Some? {
      var calls := choice.functionCalls.value;
      for n := 0 to |calls|
        invariant content == text + CallContents(calls[..n])
      {
        var call := calls[n];
        var input := match call.params {
          case Text(s) => Some(s)
          case Json(s) => Some(s)
          case Absent => None
        };
        content := content + [CallContent(ToolCall(call.id, call.name, input))];
      }
      assert calls[..|calls|] == calls;
    }
    generated := Some(Generated(content, MapFinishReason(choice.finishReason),
                                CreateUsage(if res.modelUsage.Some? then res.modelUsage.value.tokens else None),
                                res.providerMetadata, ResponseMetadataOf(res)));
    assert content == Contents(choice);
    ContentReads(choice);
  }

  function ListedCalls(calls: seq<Call>): seq<ToolCall> {
    seq(|calls|, i requires 0 <= i < |calls| => Listed(calls[i]))
  }

  function CallContents(calls: seq<Call>): seq<Content> {
    seq(|calls|, i requires 0 <= i < |calls| => CallContent(Listed(calls[i])))
  }

  function Contents(choice: ChatResult): seq<Content> {
    (if choice.content.GetOr("") == "" then [] else [TextContent(choice.content.GetOr(""))])
    + CallContents(choice.functionCalls.GetOr([]))
  }

  function Generate(res: ChatResponse, choice: ChatResult): Generated {
    Generated(Contents(choice), MapFinishReason(choice.finishReason),
              CreateUsage(if res.modelUsage.Some? then res.modelUsage.value.tokens else None),
              res.providerMetadata, ResponseMetadataOf(res))
  }

  /** The text comes first and once, and the calls follow in order, unmerged. */
  lemma ContentReads(choice: ChatResult)
    ensures Concat(TextIn, Contents(choice)) == choice.content.GetOr("")
    ensures Concat(CallIn, Contents(choice)) == ListedCalls(choice.functionCalls.GetOr([]))
  {
    hide Concat, Listed;
    var text := choice.content.GetOr("");
    var calls := choice.functionCalls.GetOr([]);
    var first: seq<Content> := if text == "" then [] else [TextContent(text)];
    ConcatSplit(TextIn, first, CallContents(calls));
    ConcatSplit(CallIn, first, CallContents(calls));
    ConcatNothing(TextIn, CallContents(calls));
    ConcatNothing(CallIn, first);
    ConcatNone(TextIn);
    ConcatOne(TextIn, TextContent(text));
    ReadCalls(calls);
  }

  lemma {:induction false} ReadCalls(calls: seq<Call>)
    ensures Concat(CallIn, CallContents(calls)) == ListedCalls(calls)
  {
    if calls != [] {
      var front := calls[..|calls| - 1];
      ReadCalls(front);
      assert CallContents(calls)[..|front|] == CallContents(front);
    }
  }
}
