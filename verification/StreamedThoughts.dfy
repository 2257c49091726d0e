/** The thought blocks of a stream, joined block by block, against the whole answer's (src/aws-bedrock/api.ts). */
module StreamedThoughts {
  import opened Optional
  import opened Sequences
  import opened Encodings
  import opened ChatTypes
  import opened ToolReassembly
  import opened AnswerSplits
  import Bedrock = BedrockStream

  function BlocksIn(chunk: ChatResponse): seq<ThoughtBlock> {
    if chunk.results == [] then [] else chunk.results[0].thoughtBlocks.GetOr([])
  }

  function EventThoughts(event: Event): seq<ThoughtBlock> {
    match event
    case ContentBlockDelta(_, ReasoningTextDelta(text)) => [ThoughtBlock(text, false, None)]
    case ContentBlockDelta(_, SignatureDelta(signature)) => [ThoughtBlock("", false, Some(signature))]
    case ContentBlockDelta(_, RedactedDelta(data)) => [ThoughtBlock(Base64(data), true, None)]
    case _ => []
  }

  function PartThoughts(part: seq<Event>): seq<ThoughtBlock> {
    Concat(EventThoughts, part)
  }

  function DataOf(thought: ThoughtBlock): string { thought.data }

  function SealOf(thought: ThoughtBlock): string { thought.signature.GetOr("") }

  predicate AnyEncrypted(thoughts: seq<ThoughtBlock>) {
    exists i :: 0 <= i < |thoughts| && thoughts[i].encrypted
  }

  /** One block from its pieces: the data joined, encrypted if a piece is, signed by the joined signature. */
  function Joined(pieces: seq<ThoughtBlock>): ThoughtBlock {
    var signature := Concat(SealOf, pieces);
    ThoughtBlock(Concat(DataOf, pieces), AnyEncrypted(pieces), if signature == "" then None else Some(signature))
  }

  /** The pieces of each thinking block, joined; other blocks have none. */
  function JoinedBlocks(blocks: seq<Bedrock.Block>, parts: seq<seq<Event>>): seq<ThoughtBlock>
    requires |blocks| == |parts|
  {
    if blocks == [] then []
    else
      var n := |blocks| - 1;
      JoinedBlocks(blocks[..n], parts[..n]) + JoinedPart(blocks[n], parts[n])
  }

  lemma EventThoughtsRead(env: Envelope, ids: map<int, string>, event: Event)
    ensures BlocksIn(Bedrock.EventResponse(ids, env.Wrap(event))) == EventThoughts(event)
  {
  }

  lemma {:induction false} StreamThoughts(env: Envelope, ids: map<int, string>, events: seq<Event>)
    ensures Concat(BlocksIn, Chunks(env, ids, events)) == Concat(EventThoughts, events)
  {
    if events != [] {
      hide Bedrock.EventResponse, BlocksIn, EventThoughts;
      var front := events[..|events| - 1];
      StreamThoughts(env, ids, front);
      EventThoughtsRead(env, IdsAfter(ids, front), events[|events| - 1]);
    }
  }

  function DataPiece(event: Event): string {
    if Redacts(event) then Base64(event.delta.data) else ThoughtPiece(event)
  }

  lemma NoBytes()
    ensures Base64([]) == ""
  {
  }

  lemma OneEvent(event: Event)
    ensures Concat(DataOf, EventThoughts(event)) == DataPiece(event)
    ensures Concat(SealOf, EventThoughts(event)) == SignaturePiece(event)
    ensures AnyEncrypted(EventThoughts(event)) <==> Redacts(event)
  {
    hide Base64;
    NoBytes();
    var thoughts := EventThoughts(event);
    if thoughts != [] {
      ConcatOne(DataOf, thoughts[0]);
      ConcatOne(SealOf, thoughts[0]);
    }
  }

  /** Data and signatures of the pieces are those of the events. */
  lemma {:induction false} PieceData(events: seq<Event>)
    ensures Concat(DataOf, PartThoughts(events)) == Concat(DataPiece, events)
    ensures Concat(SealOf, PartThoughts(events)) == Concat(SignaturePiece, events)
  {
    if events != [] {
      hide EventThoughts, DataPiece, SignaturePiece;
      var front, last := events[..|events| - 1], events[|events| - 1];
      PieceData(front);
      OneEvent(last);
      ConcatSplit(DataOf, PartThoughts(front), EventThoughts(last));
      ConcatSplit(SealOf, PartThoughts(front), EventThoughts(last));
    }
  }

  /** Without a redacted event nothing is encrypted, and with one the joined block is. */
  lemma {:induction false} PieceEncryption(events: seq<Event>)
    ensures AnyEncrypted(PartThoughts(events)) <==> exists i :: 0 <= i < |events| && Redacts(events[i])
  {
    if events != [] {
      hide EventThoughts, AnyEncrypted, Redacts;
      var front, last := events[..|events| - 1], events[|events| - 1];
      PieceEncryption(front);
      OneEvent(last);
      EncryptedSplit(PartThoughts(front), EventThoughts(last));
      assert events == front + [last];
    } else {
      assert PartThoughts(events) == [];
    }
  }

  predicate Redacts(event: Event) { event.ContentBlockDelta? && event.delta.RedactedDelta? }

  lemma EncryptedSplit(a: seq<ThoughtBlock>, b: seq<ThoughtBlock>)
    ensures AnyEncrypted(a + b) <==> AnyEncrypted(a) || AnyEncrypted(b)
  {
    if i :| 0 <= i < |a| && a[i].encrypted {
      assert (a + b)[i] == a[i];
    }
    if i :| 0 <= i < |b| && b[i].encrypted {
      assert (a + b)[|a| + i] == b[i];
    }
  }

  lemma {:induction false} SamePieces(f: Event -> string, g: Event -> string, events: seq<Event>)
    requires forall i :: 0 <= i < |events| ==> f(events[i]) == g(events[i])
    ensures Concat(f, events) == Concat(g, events)
  {
    if events != [] {
      SamePieces(f, g, events[..|events| - 1]);
    }
  }

  lemma ReasoningPart(text: Option<string>, signature: Option<string>, index: int, events: seq<Event>)
    requires Splits(Bedrock.ReasoningBlock(text, signature), index, events)
    ensures forall i :: 0 <= i < |events| ==> DataPiece(events[i]) == ThoughtPiece(events[i]) && !Redacts(events[i])
    ensures Concat(ThoughtPiece, events) == text.GetOr("") && Concat(SignaturePiece, events) == signature.GetOr("")
  {
    hide Concat, Base64;
    NoBytes();
    forall i | 0 <= i < |events|
      ensures DataPiece(events[i]) == ThoughtPiece(events[i]) && !Redacts(events[i])
    {
      assert ReasoningEvent(events[i]);
    }
  }

  lemma ReasoningJoined(text: Option<string>, signature: Option<string>, index: int, events: seq<Event>)
    requires Splits(Bedrock.ReasoningBlock(text, signature), index, events)
    ensures Joined(PartThoughts(events))
            == ThoughtBlock(text.GetOr(""), false, if signature == Some("") then None else signature)
  {
    hide Splits, Concat, PartThoughts, AnyEncrypted, Redacts, DataPiece, ThoughtPiece, SignaturePiece;
    ReasoningPart(text, signature, index, events);
    PieceData(events);
    PieceEncryption(events);
    SamePieces(DataPiece, ThoughtPiece, events);
  }

  lemma RedactedPart(data: seq<Byte>, index: int, events: seq<Event>)
    requires Splits(Bedrock.RedactedBlock(data), index, events)
    ensures forall i :: 0 <= i < |events| ==> DataPiece(events[i]) == Encoded(RedactedPiece)(events[i])
    ensures forall i :: 0 <= i < |events| ==> SignaturePiece(events[i]) == ""
    ensures exists i :: 0 <= i < |events| && Redacts(events[i])
    ensures Concat(RedactedPiece, events) == data
  {
    hide Concat, DataPiece, RedactedPiece, SignaturePiece, RedactedEvent, Quiet, Redacts, Encoded;
    forall i | 0 <= i < |events|
      ensures DataPiece(events[i]) == Encoded(RedactedPiece)(events[i]) && SignaturePiece(events[i]) == ""
      ensures !Quiet(events[i]) ==> Redacts(events[i])
    {
      assert RedactedEvent(events[i]);
      RedactedEventPieces(events[i]);
    }
  }

  lemma RedactedEventPieces(event: Event)
    requires RedactedEvent(event)
    ensures DataPiece(event) == Encoded(RedactedPiece)(event) && SignaturePiece(event) == ""
    ensures !Quiet(event) ==> Redacts(event)
  {
    hide Base64;
    NoBytes();
    assert Encoded(RedactedPiece)(event) == Base64(RedactedPiece(event));
    assert !Redacts(event) ==> RedactedPiece(event) == [] && ThoughtPiece(event) == "";
  }

  /** The pieces of a redacted block join to its payload's text exactly when they were cut at whole triples of bytes. */
  lemma RedactedJoined(data: seq<Byte>, index: int, events: seq<Event>)
    requires Splits(Bedrock.RedactedBlock(data), index, events)
    ensures var joined := Joined(PartThoughts(events));
            && joined.encrypted && joined.signature == None
            && (joined.data == Base64(data) <==> CutAtTriples(RedactedPiece, events))
  {
    hide Splits, Concat, PartThoughts, AnyEncrypted, Redacts, DataPiece, RedactedPiece, SignaturePiece, Encoded, Base64,
      CutAtTriples;
    RedactedPart(data, index, events);
    PieceData(events);
    PieceEncryption(events);
    SamePieces(DataPiece, Encoded(RedactedPiece), events);
    JoinedEncodings(RedactedPiece, events);
    ConcatNothing(SignaturePiece, events);
  }

  lemma Thoughtless(block: Bedrock.Block, index: int, events: seq<Event>)
    requires Splits(block, index, events) && !block.ReasoningBlock? && !block.RedactedBlock?
    ensures PartThoughts(events) == []
  {
    hide Concat, Fragments, IsLiteral;
    forall i | 0 <= i < |events|
      ensures EventThoughts(events[i]) == []
    {
      assert block.ToolUseBlock? && i > 0 ==> events[i] == events[1..][i - 1];
    }
    ConcatNothing(EventThoughts, events);
  }

  /** Every piece of an encrypted payload but the last one with anything in it ends with a whole triple of bytes. */
  predicate CutWell(block: Bedrock.Block, events: seq<Event>) {
    block.RedactedBlock? ==> CutAtTriples(RedactedPiece, events)
  }

  /** Two thought blocks agree in all but their data. */
  predicate SameSeal(a: ThoughtBlock, b: ThoughtBlock) {
    a.encrypted == b.encrypted && a.signature == b.signature
  }

  /** One block's pieces join to what the whole answer says of the block, its data exactly when they were cut well. */
  lemma PartJoined(block: Bedrock.Block, index: int, events: seq<Event>)
    requires Splits(block, index, events)
    ensures var thoughts, joined := Bedrock.ThoughtOf(block), Joined(PartThoughts(events));
            if thoughts == [] then PartThoughts(events) == [] && CutWell(block, events)
            else |thoughts| == 1 && SameSeal(joined, thoughts[0])
                 && (joined.data == thoughts[0].data <==> CutWell(block, events))
  {
    hide Splits, PartThoughts, Joined, CutAtTriples, Base64;
    match block
    case ReasoningBlock(text, signature) => ReasoningJoined(text, signature, index, events);
    case RedactedBlock(data) => RedactedJoined(data, index, events);
    case _ => Thoughtless(block, index, events);
  }

  ghost predicate AllCutWell(blocks: seq<Bedrock.Block>, parts: seq<seq<Event>>)
    requires |blocks| == |parts|
  {
    forall k :: 0 <= k < |blocks| ==> CutWell(blocks[k], parts[k])
  }

  lemma AllCutWellStep(blocks: seq<Bedrock.Block>, parts: seq<seq<Event>>)
    requires |blocks| == |parts| > 0
    ensures var n := |blocks| - 1;
            AllCutWell(blocks, parts) <==> AllCutWell(blocks[..n], parts[..n]) && CutWell(blocks[n], parts[n])
  {
    hide CutWell;
    var n := |blocks| - 1;
    assert forall k :: 0 <= k < n ==> blocks[k] == blocks[..n][k] && parts[k] == parts[..n][k];
  }

  /** What one part adds to the joined blocks. */
  function JoinedPart(block: Bedrock.Block, part: seq<Event>): seq<ThoughtBlock> {
    if Bedrock.ThoughtOf(block) == [] then PartThoughts(part) else [Joined(PartThoughts(part))]
  }

  lemma PartPaired(block: Bedrock.Block, index: int, part: seq<Event>)
    requires Splits(block, index, part)
    ensures Paired(SameSeal, JoinedPart(block, part), Bedrock.ThoughtOf(block))
    ensures JoinedPart(block, part) == Bedrock.ThoughtOf(block) <==> CutWell(block, part)
  {
    hide Splits, PartThoughts, Joined, Bedrock.ThoughtOf, CutWell;
    PartJoined(block, index, part);
  }

  lemma {:induction false} BlocksJoined(blocks: seq<Bedrock.Block>, indices: seq<int>, parts: seq<seq<Event>>)
    requires SplitsAll(blocks, indices, parts)
    ensures Paired(SameSeal, JoinedBlocks(blocks, parts), Concat(Bedrock.ThoughtOf, blocks))
    ensures JoinedBlocks(blocks, parts) == Concat(Bedrock.ThoughtOf, blocks) <==> AllCutWell(blocks, parts)
  {
    if blocks != [] {
      hide Splits, JoinedPart, Bedrock.ThoughtOf, CutWell, AllCutWell, SameSeal, Paired;
      var n := |blocks| - 1;
      BlocksJoined(blocks[..n], indices[..n], parts[..n]);
      PartPaired(blocks[n], indices[n], parts[n]);
      AllCutWellStep(blocks, parts);
      PairedMore(SameSeal, JoinedBlocks(blocks[..n], parts[..n]), Concat(Bedrock.ThoughtOf, blocks[..n]),
                 JoinedPart(blocks[n], parts[n]), Bedrock.ThoughtOf(blocks[n]));
    }
  }

  lemma {:induction false} FlatThoughts(parts: seq<seq<Event>>)
    ensures Concat(EventThoughts, Flat(parts)) == Concat(PartThoughts, parts)
  {
    if parts != [] {
      var n := |parts| - 1;
      FlatThoughts(parts[..n]);
      ConcatSplit(EventThoughts, Flat(parts[..n]), parts[n]);
    }
  }

  /**
   * However an answer is split, the streamed pieces, joined block by block, are the whole answer's thought blocks in
   * number, order, encryption and signature, and in their data exactly when every encrypted payload was cut well.
   */
  lemma {:induction false} ThoughtsJoin(env: Envelope, resp: Bedrock.Converse, indices: seq<int>,
                                        parts: seq<seq<Event>>)
    requires SplitsAll(resp.content, indices, parts)
    ensures Concat(BlocksIn, Chunks(env, map[], StreamOf(resp, parts))) == Concat(PartThoughts, parts)
    ensures var joined, whole := JoinedBlocks(resp.content, parts), BlocksIn(Bedrock.BatchResponse(resp));
            && Paired(SameSeal, joined, whole)
            && (joined == whole <==> AllCutWell(resp.content, parts))
  {
    StreamThoughts(env, map[], StreamOf(resp, parts));
    BlocksJoined(resp.content, indices, parts);
    FlatThoughts(parts);
    EndsWithoutThoughts(resp);
    ConcatSplit(EventThoughts, [Bedrock.MessageStart], Flat(parts));
    ConcatSplit(EventThoughts, [Bedrock.MessageStart] + Flat(parts),
                [Bedrock.MessageStop(resp.stopReason), Bedrock.MetadataEvent(resp.usage, resp.serviceTier)]);
    hide Concat, Flat, SplitsAll, JoinedBlocks;
  }

  lemma EndsWithoutThoughts(resp: Bedrock.Converse)
    ensures Concat(EventThoughts, [Bedrock.MessageStart]) == []
    ensures Concat(EventThoughts, [Bedrock.MessageStop(resp.stopReason),
                                   Bedrock.MetadataEvent(resp.usage, resp.serviceTier)]) == []
  {
    ConcatNothing(EventThoughts, [Bedrock.MessageStart]);
    ConcatNothing(EventThoughts, [Bedrock.MessageStop(resp.stopReason),
                                  Bedrock.MetadataEvent(resp.usage, resp.serviceTier)]);
  }

  /** Two bytes sent one by one join to another text than the two together. */
  lemma CutPayloadDiffers()
    ensures var resp := Bedrock.Converse([Bedrock.RedactedBlock([0, 0])], None, None, None, None, true);
            var part := [Bedrock.ContentBlockDelta(Some(0), Bedrock.RedactedDelta([0])),
                         Bedrock.ContentBlockDelta(Some(0), Bedrock.RedactedDelta([0]))];
            && SplitsAll(resp.content, [0], [part])
            && JoinedBlocks(resp.content, [part]) != BlocksIn(Bedrock.BatchResponse(resp))
  {
    var resp := Bedrock.Converse([Bedrock.RedactedBlock([0, 0])], None, None, None, None, true);
    var piece := Bedrock.ContentBlockDelta(Some(0), Bedrock.RedactedDelta([0]));
    var part := [piece, piece];
    assert part == [piece] + [piece];
    ConcatSplit(RedactedPiece, [piece], [piece]);
    ConcatOne(RedactedPiece, piece);
    hide Concat, JoinedBlocks, BlocksIn;
    assert !Quiet(part[0]);
    assert Splits(resp.content[0], 0, part);
    assert part[1..] == [piece];
    assert !CutAtTriples(RedactedPiece, part) by {
      assert |RedactedPiece(part[0])| == 1 && Concat(RedactedPiece, part[1..]) == [0];
    }
    assert !CutWell(resp.content[0], [part][0]);
    ThoughtsJoin(Envelope(None, true), resp, [0], [part]);
  }
}
