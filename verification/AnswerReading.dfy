/** A whole Bedrock answer read block by block, whatever way `createChatResp` of src/aws-bedrock/api.ts collects it. */
module AnswerReading {
  import opened Optional
  import opened Sequences
  import opened Encodings
  import opened ChatTypes
  import opened BedrockStream

  predicate EndsIn(text: string, end: string) {
    |end| <= |text| && text[|text| - |end|..] == end
  }

  /** A missing or null input is none, a string stands for itself, numbers and booleans become text. */
  predicate Gives(input: Document, params: Params) {
    match input
    case Missing => params.Absent?
    case Null => params.Absent?
    case StringValue(text) => params == Text(text)
    case Structured(json) => params == Json(json)
    case Scalar(json) => params == Text(json)
  }

  predicate CallShows(block: Block, call: Call) {
    && block.ToolUseBlock?
    && call.id == (if block.toolUseId.Some? then block.toolUseId.value else "")
    && call.name == (if block.name.Some? then block.name.value else "")
    && Gives(block.input, call.params)
  }

  predicate ThoughtShows(block: Block, thought: ThoughtBlock) {
    match block
    case ReasoningBlock(text, signature) =>
      && !thought.encrypted && thought.data == (if text.Some? then text.value else "")
      && (thought.signature.Some? <==> signature.Some? && signature.value != "")
      && (thought.signature.Some? ==> thought.signature == signature)
    case RedactedBlock(data) =>
      thought.encrypted && thought.data == Base64(data) && Decoded(thought.data) == data && thought.signature.None?
    case _ => false
  }

  /** Read from the end: every block leaves its own trace, in order, and there is nothing else. */
  predicate Reads(blocks: seq<Block>, text: string, calls: seq<Call>, thoughts: seq<ThoughtBlock>) {
    if blocks == [] then text == "" && calls == [] && thoughts == []
    else
      var front, block := blocks[..|blocks| - 1], blocks[|blocks| - 1];
      match block
      case TextBlock(last) => EndsIn(text, last) && Reads(front, text[..|text| - |last|], calls, thoughts)
      case ToolUseBlock(_, _, _) =>
        calls != [] && CallShows(block, calls[|calls| - 1]) && Reads(front, text, calls[..|calls| - 1], thoughts)
      case OtherBlock => Reads(front, text, calls, thoughts)
      case _ =>
        && thoughts != [] && ThoughtShows(block, thoughts[|thoughts| - 1])
        && Reads(front, text, calls, thoughts[..|thoughts| - 1])
  }

  /** Read from the end: the unencrypted thoughts, one after the other. */
  predicate Shown(thoughts: seq<ThoughtBlock>, shown: string) {
    if thoughts == [] then shown == ""
    else
      var front, last := thoughts[..|thoughts| - 1], thoughts[|thoughts| - 1];
      if last.encrypted then Shown(front, shown)
      else EndsIn(shown, last.data) && Shown(front, shown[..|shown| - |last.data|])
  }

  predicate AnswerSays(resp: Converse, response: ChatResponse) {
    && |response.results| == 1 && response.remoteId == resp.requestId
    && var result := response.results[0];
       && result.id == resp.requestId && StopsAs(result.finishReason, resp.stopReason)
       && result.content != Some("") && result.functionCalls != Some([]) && result.thoughtBlocks != Some([])
       && Reads(resp.content, result.content.GetOr(""), result.functionCalls.GetOr([]),
                result.thoughtBlocks.GetOr([]))
       && (result.thought.Some? <==> resp.showThoughts && result.thoughtBlocks.Some?)
       && (result.thought.Some? ==> Shown(result.thoughtBlocks.value, result.thought.value))
  }

  lemma BlockReads(block: Block)
    ensures match block
            case TextBlock(last) => TextOf(block) == last && CallOf(block) == [] && ThoughtOf(block) == []
            case ToolUseBlock(_, _, _) =>
              && TextOf(block) == "" && ThoughtOf(block) == []
              && |CallOf(block)| == 1 && CallShows(block, CallOf(block)[0])
            case OtherBlock => TextOf(block) == "" && CallOf(block) == [] && ThoughtOf(block) == []
            case _ =>
              TextOf(block) == "" && CallOf(block) == [] && |ThoughtOf(block)| == 1
              && ThoughtShows(block, ThoughtOf(block)[0])
  {
    hide Base64, Decoded;
    if block.RedactedBlock? {
      Base64Decodes(block.data);
    }
  }

  lemma Ends(text: string, end: string)
    ensures EndsIn(text + end, end) && (text + end)[..|text + end| - |end|] == text
  {
  }

  lemma {:induction false} BlocksRead(blocks: seq<Block>)
    ensures Reads(blocks, Concat(TextOf, blocks), Concat(CallOf, blocks), Concat(ThoughtOf, blocks))
  {
    if blocks != [] {
      hide TextOf, CallOf, ThoughtOf, CallShows, ThoughtShows, EndsIn;
      var front, block := blocks[..|blocks| - 1], blocks[|blocks| - 1];
      var text, calls, thoughts := Concat(TextOf, front), Concat(CallOf, front), Concat(ThoughtOf, front);
      BlocksRead(front);
      BlockReads(block);
      Ends(text, TextOf(block));
      assert text + "" == text && calls + [] == calls && thoughts + [] == thoughts;
    }
  }

  lemma {:induction false} ThoughtsShown(thoughts: seq<ThoughtBlock>)
    ensures Shown(thoughts, Concat(Visible, thoughts))
  {
    hide Shown, Concat, EndsIn, Visible;
    NothingShown();
    if thoughts != [] {
      var front, last := thoughts[..|thoughts| - 1], thoughts[|thoughts| - 1];
      ThoughtsShown(front);
      assert thoughts == front + [last];
      ConcatSplit(Visible, front, [last]);
      ConcatOne(Visible, last);
      ShownMore(front, last, Concat(Visible, front));
    }
  }

  lemma NothingShown()
    ensures Shown([], Concat(Visible, []))
  {
  }

  lemma ShownMore(front: seq<ThoughtBlock>, last: ThoughtBlock, shown: string)
    requires Shown(front, shown)
    ensures Shown(front + [last], shown + Visible(last))
  {
    hide EndsIn;
    assert (front + [last])[..|front|] == front;
    Ends(shown, last.data);
    assert shown + "" == shown;
  }

  /** The whole answer is told field by field. */
  lemma AnswerRead(resp: Converse)
    ensures AnswerSays(resp, BatchResponse(resp))
  {
    hide Concat, Reads, Shown, StopsAs, MapStopReason;
    BlocksRead(resp.content);
    ThoughtsShown(Concat(ThoughtOf, resp.content));
    StopReasonIs(resp.stopReason);
  }
}
