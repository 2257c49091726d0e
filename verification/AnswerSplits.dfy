/** The ways in which a whole Converse answer can arrive as a stream of events. */
module AnswerSplits {
  import opened Optional
  import opened Sequences
  import opened Encodings
  import opened ToolReassembly
  import Bedrock = BedrockStream

  // ----------------------------------------------- an answer split into events

  /** The argument text that a tool block's events send. */
  function InputSent(events: seq<Event>, index: int): string {
    if events == [] then "" else Fragments(events[1..], index)
  }

  /**
   * What `sent` may be for an input.  A string arrives as some JSON literal of it.  Every other input arrives as any
   * text at all: a value has many JSON texts, and an empty object may come with no fragment.
   */
  predicate Sends(input: Bedrock.Document, sent: string) {
    input.StringValue? ==> IsLiteral(sent, input.text)
  }

  /** Events that may stand anywhere and carry nothing. */
  predicate Quiet(event: Event) {
    event.OtherEvent? || (event.ContentBlockStart? && event.start.OtherStart?)
    || (event.ContentBlockDelta? && event.delta.NoDelta?)
  }

  function TextPiece(event: Event): string {
    if event.ContentBlockDelta? && event.delta.TextDelta? then event.delta.text else ""
  }

  function ThoughtPiece(event: Event): string {
    if event.ContentBlockDelta? && event.delta.ReasoningTextDelta? then event.delta.text else ""
  }

  function SignaturePiece(event: Event): string {
    if event.ContentBlockDelta? && event.delta.SignatureDelta? then event.delta.signature else ""
  }

  function RedactedPiece(event: Event): seq<Byte> {
    if event.ContentBlockDelta? && event.delta.RedactedDelta? then event.delta.data else []
  }

  predicate TextEvent(event: Event) {
    Quiet(event) || (event.ContentBlockDelta? && event.delta.TextDelta?)
  }

  predicate ReasoningEvent(event: Event) {
    Quiet(event) || (event.ContentBlockDelta?
                     && (event.delta.ReasoningTextDelta? || event.delta.SignatureDelta?
                         || event.delta.EmptyReasoningDelta?))
  }

  predicate RedactedEvent(event: Event) {
    Quiet(event) || (event.ContentBlockDelta? && event.delta.RedactedDelta?)
  }

  predicate InputEvent(event: Event, index: int) {
    Quiet(event) || (event.ContentBlockDelta? && event.delta.ToolUseDelta? && event.deltaIndex.GetOr(0) == index)
  }

  predicate All(p: Event -> bool, events: seq<Event>) {
    forall i :: 0 <= i < |events| ==> p(events[i])
  }

  predicate AllInput(events: seq<Event>, index: int) {
    forall i :: 0 <= i < |events| ==> InputEvent(events[i], index)
  }

  /** `events` is one way of sending the block: its pieces, cut anywhere, with quiet events in between. */
  predicate Splits(block: Bedrock.Block, index: int, events: seq<Event>) {
    match block
    case TextBlock(text) => All(TextEvent, events) && Concat(TextPiece, events) == text
    case ToolUseBlock(id, name, input) =>
      && events != []
      && events[0].ContentBlockStart? && events[0].start == Bedrock.ToolUseStart(id, name)
      && events[0].startIndex.GetOr(0) == index
      && AllInput(events[1..], index)
      && Sends(input, InputSent(events, index))
    case ReasoningBlock(text, signature) =>
      && All(ReasoningEvent, events)
      && Concat(ThoughtPiece, events) == text.GetOr("")
      && Concat(SignaturePiece, events) == signature.GetOr("")
    case RedactedBlock(data) =>
      && All(RedactedEvent, events)
      && (exists i :: 0 <= i < |events| && !Quiet(events[i]))
      && Concat(RedactedPiece, events) == data
    case OtherBlock => All(Quiet, events)
  }

  /** The k-th part sends the k-th block under the k-th index. */
  ghost predicate SplitsAll(blocks: seq<Bedrock.Block>, indices: seq<int>, parts: seq<seq<Event>>) {
    && |parts| == |blocks| == |indices|
    && forall k :: 0 <= k < |blocks| ==> Splits(blocks[k], indices[k], parts[k])
  }

  function Flat(parts: seq<seq<Event>>): seq<Event> {
    if parts == [] then [] else Flat(parts[..|parts| - 1]) + parts[|parts| - 1]
  }

  /** A complete stream: the opening, the blocks one after the other, the stop reason and the usage. */
  function StreamOf(resp: Bedrock.Converse, parts: seq<seq<Event>>): seq<Event> {
    [Bedrock.MessageStart] + Flat(parts)
    + [Bedrock.MessageStop(resp.stopReason), Bedrock.MetadataEvent(resp.usage, resp.serviceTier)]
  }

  function ToolIds(blocks: seq<Bedrock.Block>): seq<string> {
    var calls := Concat(Bedrock.CallOf, blocks);
    seq(|calls|, k requires 0 <= k < |calls| => calls[k].id)
  }

  ghost predicate DistinctIds(ids: seq<string>) {
    forall i, j :: 0 <= i < j < |ids| ==> ids[i] != ids[j]
  }

  // ----------------------------------------------------- the pieces of one part

  predicate CallFree(event: Event) {
    !(event.ContentBlockStart? && event.start.ToolUseStart?) && !(event.ContentBlockDelta? && event.delta.ToolUseDelta?)
  }

  /** The thought text that a block shows. */
  function Shown(block: Bedrock.Block): string {
    if block.ReasoningBlock? then block.reasoning.GetOr("") else ""
  }

  lemma PartPieces(block: Bedrock.Block, index: int, events: seq<Event>)
    requires Splits(block, index, events)
    ensures Concat(TextPiece, events) == Bedrock.TextOf(block)
    ensures Concat(ThoughtPiece, events) == Shown(block)
  {
    if block.ToolUseBlock? {
      forall i | 0 <= i < |events|
        ensures TextPiece(events[i]) == "" && ThoughtPiece(events[i]) == ""
      {
        assert i > 0 ==> events[i] == events[1..][i - 1];
      }
    }
    if !block.TextBlock? {
      ConcatNothing(TextPiece, events);
    }
    if !block.ReasoningBlock? {
      ConcatNothing(ThoughtPiece, events);
    }
  }

  // ------------------------------------------------------ every answer can be sent

  function Piece(index: int, delta: Bedrock.Delta): Event {
    Bedrock.ContentBlockDelta(Some(index), delta)
  }

  /** Each block can be sent, a tool block with any text that its input may have. */
  lemma BlockSplits(block: Bedrock.Block, index: int, sent: string) returns (part: seq<Event>)
    requires block.ToolUseBlock? ==> Sends(block.input, sent)
    ensures Splits(block, index, part)
    ensures block.ToolUseBlock? ==> InputSent(part, index) == sent
  {
    hide Concat, IsLiteral;
    match block
    case TextBlock(text) =>
      part := [Piece(index, Bedrock.TextDelta(text))];
      ConcatOne(TextPiece, part[0]);
    case ToolUseBlock(id, name, _) =>
      var fragment := Piece(index, Bedrock.ToolUseDelta(Some(sent)));
      part := [Bedrock.ContentBlockStart(Some(index), Bedrock.ToolUseStart(id, name)), fragment];
      assert part[1..] == [fragment];
      ConcatOne(FragmentOf(index), fragment);
    case ReasoningBlock(text, signature) =>
      var a := Piece(index, Bedrock.ReasoningTextDelta(text.GetOr("")));
      var b := Piece(index, Bedrock.SignatureDelta(signature.GetOr("")));
      part := [a] + [b];
      ReasoningSplits(a, b);
    case RedactedBlock(data) =>
      part := [Piece(index, Bedrock.RedactedDelta(data))];
      ConcatOne(RedactedPiece, part[0]);
      assert !Quiet(part[0]);
    case OtherBlock =>
      part := [];
  }

  lemma ReasoningSplits(a: Event, b: Event)
    requires a.ContentBlockDelta? && a.delta.ReasoningTextDelta? && b.ContentBlockDelta? && b.delta.SignatureDelta?
    ensures Concat(ThoughtPiece, [a] + [b]) == a.delta.text
    ensures Concat(SignaturePiece, [a] + [b]) == b.delta.signature
  {
    hide Concat;
    ConcatSplit(ThoughtPiece, [a], [b]);
    ConcatSplit(SignaturePiece, [a], [b]);
    ConcatOne(ThoughtPiece, a);
    ConcatOne(ThoughtPiece, b);
    ConcatOne(SignaturePiece, a);
    ConcatOne(SignaturePiece, b);
  }

  lemma SomeText(input: Bedrock.Document) returns (sent: string)
    ensures Sends(input, sent)
  {
    sent := if input.StringValue? then Quoted(input.text) else "";
    if input.StringValue? {
      QuotedIsLiteral(input.text);
    }
  }

  /** Every answer has a split, whatever its blocks. */
  lemma {:induction false} EveryAnswerSplits(blocks: seq<Bedrock.Block>)
    returns (indices: seq<int>, parts: seq<seq<Event>>)
    ensures SplitsAll(blocks, indices, parts)
  {
    indices, parts := [], [];
    if blocks != [] {
      hide Splits, Sends;
      var n := |blocks| - 1;
      indices, parts := EveryAnswerSplits(blocks[..n]);
      var sent := "";
      if blocks[n].ToolUseBlock? {
        sent := SomeText(blocks[n].input);
      }
      var part := BlockSplits(blocks[n], n, sent);
      indices, parts := indices + [n], parts + [part];
    }
  }
}
