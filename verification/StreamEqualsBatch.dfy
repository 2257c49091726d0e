/** The event-by-event reader against the whole-answer reader of the same answer. */
module StreamEqualsBatch {
  import opened Optional
  import opened Sequences
  import opened Encodings
  import opened ChatTypes
  import opened SdkTransformer
  import opened StreamGrammar
  import opened ToolReassembly
  import opened AnswerSplits
  import opened StreamedThoughts
  import opened SdkGenerate
  import Bedrock = BedrockStream

  function AllThought(chunks: seq<ChatResponse>): string {
    Concat(ThoughtOf, chunks)
  }

  // ------------------------------------------------------------ concatenation

  lemma {:induction false} ChunksSplit(env: Envelope, ids: map<int, string>, a: seq<Event>, b: seq<Event>)
    ensures IdsAfter(ids, a + b) == IdsAfter(IdsAfter(ids, a), b)
    ensures Chunks(env, ids, a + b) == Chunks(env, ids, a) + Chunks(env, IdsAfter(ids, a), b)
  {
    if b == [] {
      assert a + b == a;
    } else {
      ChunksSplit(env, ids, a, b[..|b| - 1]);
      assert (a + b)[..|a + b| - 1] == a + b[..|b| - 1];
    }
  }

  // ---------------------------------------------------------- text and thought

  lemma EventPieces(env: Envelope, ids: map<int, string>, event: Event)
    ensures var chunk := Bedrock.EventResponse(ids, env.Wrap(event));
            && ContentOf(chunk) == TextPiece(event)
            && ThoughtOf(chunk) == (if env.showThoughts then ThoughtPiece(event) else "")
  {
  }

  lemma {:induction false} EventsText(env: Envelope, ids: map<int, string>, events: seq<Event>)
    ensures AllContent(Chunks(env, ids, events)) == Concat(TextPiece, events)
  {
    if events != [] {
      hide Bedrock.EventResponse, ContentOf, TextPiece;
      EventsText(env, ids, events[..|events| - 1]);
      EventPieces(env, IdsAfter(ids, events[..|events| - 1]), events[|events| - 1]);
    }
  }

  lemma {:induction false} EventsThought(env: Envelope, ids: map<int, string>, events: seq<Event>)
    ensures AllThought(Chunks(env, ids, events))
            == if env.showThoughts then Concat(ThoughtPiece, events) else ""
  {
    if events != [] {
      hide Bedrock.EventResponse, ThoughtOf, ThoughtPiece;
      EventsThought(env, ids, events[..|events| - 1]);
      EventPieces(env, IdsAfter(ids, events[..|events| - 1]), events[|events| - 1]);
    }
  }

  lemma {:induction false} FlatPieces(blocks: seq<Bedrock.Block>, indices: seq<int>, parts: seq<seq<Event>>)
    requires SplitsAll(blocks, indices, parts)
    ensures Concat(TextPiece, Flat(parts)) == Concat(Bedrock.TextOf, blocks)
    ensures Concat(ThoughtPiece, Flat(parts)) == Concat(Shown, blocks)
  {
    if blocks != [] {
      var n := |blocks| - 1;
      FlatPieces(blocks[..n], indices[..n], parts[..n]);
      PartPieces(blocks[n], indices[n], parts[n]);
      ConcatSplit(TextPiece, Flat(parts[..n]), parts[n]);
      ConcatSplit(ThoughtPiece, Flat(parts[..n]), parts[n]);
    }
  }

  /** Joining the visible thought blocks gives the shown reasoning of the content blocks. */
  lemma {:induction false} VisibleIsShown(blocks: seq<Bedrock.Block>)
    ensures Concat(Bedrock.Visible, Concat(Bedrock.ThoughtOf, blocks)) == Concat(Shown, blocks)
  {
    if blocks != [] {
      var front, block := blocks[..|blocks| - 1], blocks[|blocks| - 1];
      VisibleIsShown(front);
      ConcatSplit(Bedrock.Visible, Concat(Bedrock.ThoughtOf, front), Bedrock.ThoughtOf(block));
      OneVisible(block);
    }
  }

  lemma OneVisible(block: Bedrock.Block)
    ensures Concat(Bedrock.Visible, Bedrock.ThoughtOf(block)) == Shown(block)
  {
    var thoughts := Bedrock.ThoughtOf(block);
    if thoughts != [] {
      assert thoughts[..0] == [];
    }
  }

  // ------------------------------------------------------------------ tool calls

  function StreamedCall(block: Bedrock.Block, sent: string): seq<ToolCall> {
    if block.ToolUseBlock?
    then [ToolCall(block.toolUseId.GetOr(""), block.name.GetOr(""), Some(sent))] else []
  }

  /** The calls that the parts leave, each with the argument text it sends. */
  function StreamedCalls(blocks: seq<Bedrock.Block>, indices: seq<int>, parts: seq<seq<Event>>): seq<ToolCall>
    requires |blocks| == |indices| == |parts|
  {
    if blocks == [] then []
    else
      var n := |blocks| - 1;
      StreamedCalls(blocks[..n], indices[..n], parts[..n]) + StreamedCall(blocks[n], InputSent(parts[n], indices[n]))
  }

  function WholeCall(block: Bedrock.Block): seq<ToolCall> {
    if block.ToolUseBlock?
    then [ToolCall(block.toolUseId.GetOr(""), block.name.GetOr(""), InputOf(Bedrock.ParamsOf(block.input)))] else []
  }

  predicate Fresh(calls: seq<ToolCall>, id: string) {
    forall k :: 0 <= k < |calls| ==> calls[k].toolCallId != id
  }

  /** The calls held after the events of one stretch of the stream. */
  function Held(env: Envelope, ids: map<int, string>, calls: seq<ToolCall>, events: seq<Event>): seq<ToolCall> {
    MergeCalls(calls, AllCalls(Chunks(env, ids, events)))
  }

  lemma HeldStep(env: Envelope, ids: map<int, string>, calls: seq<ToolCall>, events: seq<Event>)
    requires events != []
    ensures var front, last := events[..|events| - 1], events[|events| - 1];
            && Held(env, ids, calls, events)
               == MergeCalls(Held(env, ids, calls, front),
                             CallsOf(Bedrock.EventResponse(IdsAfter(ids, front), env.Wrap(last))))
            && IdsAfter(ids, events) == Bedrock.ToolIdsAfter(IdsAfter(ids, front), last)
  {
    hide Bedrock.EventResponse, CallsOf, MergeCalls;
    var front, last := events[..|events| - 1], events[|events| - 1];
    MergeConcat(calls, AllCalls(Chunks(env, ids, front)),
                CallsOf(Bedrock.EventResponse(IdsAfter(ids, front), env.Wrap(last))));
  }

  /** The rest of a tool block only lengthens the input of the call that its start pushed. */
  lemma {:induction false} InputEvents(env: Envelope, ids: map<int, string>, calls: seq<ToolCall>, call: ToolCall,
                                       index: int, events: seq<Event>)
    requires Fresh(calls, call.toolCallId) && call.input.Some?
    requires index in ids && ids[index] == call.toolCallId
    requires AllInput(events, index)
    ensures IdsAfter(ids, events) == ids
    ensures Held(env, ids, calls + [call], events)
            == calls + [call.(input := Some(call.input.value + Fragments(events, index)))]
  {
    hide *;
    if events == [] {
      NoInput(env, ids, calls, call, index);
    } else {
      var front, last := events[..|events| - 1], events[|events| - 1];
      AllInputFront(events, index);
      InputEvents(env, ids, calls, call, index, front);
      var text := call.input.value + Fragments(front, index);
      InputLast(env, ids, calls, call, text, index, events);
      FragmentsStep(events, index);
      assert text + InputPiece(last) == call.input.value + Fragments(events, index);
    }
  }

  lemma NoInput(env: Envelope, ids: map<int, string>, calls: seq<ToolCall>, call: ToolCall, index: int)
    requires call.input.Some?
    ensures IdsAfter(ids, []) == ids
    ensures Held(env, ids, calls + [call], [])
            == calls + [call.(input := Some(call.input.value + Fragments([], index)))]
  {
    NothingMerged(calls + [call]);
    assert call.input.value + Fragments([], index) == call.input.value;
  }

  lemma AllInputFront(events: seq<Event>, index: int)
    requires AllInput(events, index) && events != []
    ensures AllInput(events[..|events| - 1], index) && InputEvent(events[|events| - 1], index)
  {
  }

  lemma InputLast(env: Envelope, ids: map<int, string>, calls: seq<ToolCall>, call: ToolCall, text: string,
                  index: int, events: seq<Event>)
    requires Fresh(calls, call.toolCallId) && index in ids && ids[index] == call.toolCallId
    requires events != [] && InputEvent(events[|events| - 1], index)
    requires IdsAfter(ids, events[..|events| - 1]) == ids
    requires Held(env, ids, calls + [call], events[..|events| - 1]) == calls + [call.(input := Some(text))]
    ensures IdsAfter(ids, events) == ids
    ensures Held(env, ids, calls + [call], events)
            == calls + [call.(input := Some(text + InputPiece(events[|events| - 1])))]
  {
    hide *;
    HeldStep(env, ids, calls + [call], events);
    InputEventCalls(env, ids, calls, call.(input := Some(text)), index, events[|events| - 1]);
  }

  function InputPiece(event: Event): string {
    if event.ContentBlockDelta? && event.delta.ToolUseDelta? then event.delta.input.GetOr("") else ""
  }

  lemma FragmentsStep(events: seq<Event>, index: int)
    requires events != [] && InputEvent(events[|events| - 1], index)
    ensures Fragments(events, index) == Fragments(events[..|events| - 1], index) + InputPiece(events[|events| - 1])
  {
  }

  lemma InputEventCalls(env: Envelope, ids: map<int, string>, calls: seq<ToolCall>, call: ToolCall, index: int,
                        event: Event)
    requires Fresh(calls, call.toolCallId) && call.input.Some?
    requires index in ids && ids[index] == call.toolCallId && InputEvent(event, index)
    ensures Bedrock.ToolIdsAfter(ids, event) == ids
    ensures MergeCalls(calls + [call], CallsOf(Bedrock.EventResponse(ids, env.Wrap(event))))
            == calls + [call.(input := Some(call.input.value + InputPiece(event)))]
  {
    hide MergeCalls, MergeCall, CallsOf, Bedrock.EventResponse, Bedrock.ToolIdsAfter;
    EventCalls(env, ids, event);
    if Quiet(event) {
      NothingMerged(calls + [call]);
      assert call.input.value + "" == call.input.value;
    } else {
      FragmentMerged(calls, call, call.input.value, InputPiece(event));
    }
  }

  lemma FragmentMerged(calls: seq<ToolCall>, call: ToolCall, text: string, fragment: string)
    requires Fresh(calls, call.toolCallId)
    ensures MergeCalls(calls + [call.(input := Some(text))], [Call(call.toolCallId, "", Text(fragment))])
            == calls + [call.(input := Some(text + fragment))]
  {
    hide MergeCalls, MergeCall;
    var before := calls + [call.(input := Some(text))];
    MergeOne(before, Call(call.toolCallId, "", Text(fragment)));
    KnownBlock(before, |calls|, fragment);
  }

  /** A part leaves one new call for a tool block, and none for any other block. */
  lemma PartCalls(env: Envelope, ids: map<int, string>, calls: seq<ToolCall>, block: Bedrock.Block, index: int,
                  events: seq<Event>)
    requires Splits(block, index, events)
    requires block.ToolUseBlock? ==> Fresh(calls, block.toolUseId.GetOr(""))
    ensures Held(env, ids, calls, events) == calls + StreamedCall(block, InputSent(events, index))
  {
    hide Held, IdsAfter, Fragments, MergeCalls, Splits, Concat, AllInput, Fresh;
    if block.ToolUseBlock? {
      ToolPart(block, index, events);
      var first, rest := events[..1], events[1..];
      var call := ToolCall(block.toolUseId.GetOr(""), block.name.GetOr(""), Some(""));
      assert events == first + rest && first == [events[0]];
      HeldSplit(env, ids, calls, first, rest);
      PartStart(env, ids, calls, index, events[0]);
      InputEvents(env, IdsAfter(ids, first), calls, call, index, rest);
      assert "" + InputSent(events, index) == InputSent(events, index);
    } else {
      PlainPart(block, index, events);
      NoCalls(env, ids, calls, events);
    }
  }

  lemma ToolPart(block: Bedrock.Block, index: int, events: seq<Event>)
    requires Splits(block, index, events) && block.ToolUseBlock?
    ensures events != [] && events[0].ContentBlockStart? && events[0].startIndex.GetOr(0) == index
    ensures events[0].start == Bedrock.ToolUseStart(block.toolUseId, block.name)
    ensures AllInput(events[1..], index) && InputSent(events, index) == Fragments(events[1..], index)
  {
  }

  lemma PlainPart(block: Bedrock.Block, index: int, events: seq<Event>)
    requires Splits(block, index, events) && !block.ToolUseBlock?
    ensures All(CallFree, events)
  {
    hide Concat;
  }

  lemma PartStart(env: Envelope, ids: map<int, string>, calls: seq<ToolCall>, index: int, event: Event)
    requires event.ContentBlockStart? && event.start.ToolUseStart? && event.startIndex.GetOr(0) == index
    requires Fresh(calls, event.start.toolUseId.GetOr(""))
    ensures var id := event.start.toolUseId.GetOr("");
            && Held(env, ids, calls, [event]) == calls + [ToolCall(id, event.start.name.GetOr(""), Some(""))]
            && IdsAfter(ids, [event]) == ids[index := id]
  {
    var id, name := event.start.toolUseId.GetOr(""), event.start.name.GetOr("");
    HeldStep(env, ids, calls, [event]);
    assert [event][..0] == [];
    NothingMerged(calls);
    EventCalls(env, ids, event);
    hide MergeCalls, MergeCall, Bedrock.EventResponse, CallsOf;
    MergeOne(calls, Call(id, name, Text("")));
    NewBlock(calls, Opening(index, id, name));
  }

  lemma {:induction false} HeldSplit(env: Envelope, ids: map<int, string>, calls: seq<ToolCall>, a: seq<Event>,
                                     b: seq<Event>)
    ensures Held(env, ids, calls, a + b) == Held(env, IdsAfter(ids, a), Held(env, ids, calls, a), b)
    ensures IdsAfter(ids, a + b) == IdsAfter(IdsAfter(ids, a), b)
  {
    ChunksSplit(env, ids, a, b);
    ConcatSplit(CallsOf, Chunks(env, ids, a), Chunks(env, IdsAfter(ids, a), b));
    MergeConcat(calls, AllCalls(Chunks(env, ids, a)), AllCalls(Chunks(env, IdsAfter(ids, a), b)));
  }

  lemma {:induction false} NoCalls(env: Envelope, ids: map<int, string>, calls: seq<ToolCall>, events: seq<Event>)
    requires All(CallFree, events)
    ensures Held(env, ids, calls, events) == calls && IdsAfter(ids, events) == ids
  {
    if events == [] {
      NothingMerged(calls);
    } else {
      hide Held, MergeCalls, IdsAfter, CallsOf, Bedrock.EventResponse;
      var front, last := events[..|events| - 1], events[|events| - 1];
      NoCalls(env, ids, calls, front);
      assert CallFree(last);
      HeldStep(env, ids, calls, events);
      EventCalls(env, ids, last);
      NothingMerged(calls);
    }
  }

  lemma {:induction false} FlatCalls(env: Envelope, blocks: seq<Bedrock.Block>, indices: seq<int>,
                                     parts: seq<seq<Event>>)
    requires SplitsAll(blocks, indices, parts) && DistinctIds(ToolIds(blocks))
    ensures Held(env, map[], [], Flat(parts)) == StreamedCalls(blocks, indices, parts)
  {
    if blocks == [] {
      NothingMerged([]);
    } else {
      hide Held, Splits, IdsAfter;
      var n := |blocks| - 1;
      var front, block := blocks[..n], blocks[n];
      IdsOfFront(blocks, indices, parts);
      FlatCalls(env, front, indices[..n], parts[..n]);
      HeldSplit(env, map[], [], Flat(parts[..n]), parts[n]);
      var ids := IdsAfter(map[], Flat(parts[..n]));
      PartCalls(env, ids, StreamedCalls(front, indices[..n], parts[..n]), block, indices[n], parts[n]);
    }
  }

  /** The ids of the calls held for some blocks are the blocks' tool ids. */
  lemma {:induction false} StreamedIds(blocks: seq<Bedrock.Block>, indices: seq<int>, parts: seq<seq<Event>>)
    requires |blocks| == |indices| == |parts|
    ensures var calls, ids := StreamedCalls(blocks, indices, parts), ToolIds(blocks);
            && |calls| == |ids|
            && forall k :: 0 <= k < |ids| ==> calls[k].toolCallId == ids[k]
  {
    if blocks != [] {
      var n := |blocks| - 1;
      StreamedIds(blocks[..n], indices[..n], parts[..n]);
    }
  }

  lemma IdsOfFront(blocks: seq<Bedrock.Block>, indices: seq<int>, parts: seq<seq<Event>>)
    requires |blocks| == |indices| == |parts|
    requires blocks != [] && DistinctIds(ToolIds(blocks))
    ensures var front, block := blocks[..|blocks| - 1], blocks[|blocks| - 1];
            && DistinctIds(ToolIds(front))
            && (block.ToolUseBlock? ==> Fresh(StreamedCalls(front, indices[..|front|], parts[..|front|]),
                                              block.toolUseId.GetOr("")))
  {
    var front, block := blocks[..|blocks| - 1], blocks[|blocks| - 1];
    StreamedIds(front, indices[..|front|], parts[..|front|]);
    var before, ids := ToolIds(front), ToolIds(blocks);
    assert ids[..|before|] == before;
    assert block.ToolUseBlock? ==> |ids| == |before| + 1 && ids[|before|] == block.toolUseId.GetOr("");
  }

  /** The whole answer's calls, listed one by one. */
  lemma {:induction false} BatchCalls(blocks: seq<Bedrock.Block>)
    ensures ListedCalls(Concat(Bedrock.CallOf, blocks)) == Concat(WholeCall, blocks)
  {
    if blocks != [] {
      BatchCalls(blocks[..|blocks| - 1]);
    }
  }

  // ---------------------------------------------------------- the whole stream

  lemma {:induction false} NoStop(env: Envelope, ids: map<int, string>, events: seq<Event>)
    requires All((event: Event) => !event.MessageStop?, events)
    ensures FinishReasonOf(Chunks(env, ids, events)) == None
  {
    if events != [] {
      var front, last := events[..|events| - 1], events[|events| - 1];
      NoStop(env, ids, front);
      assert !last.MessageStop?;
      EventReason(IdsAfter(ids, front), env.Wrap(last));
      hide Bedrock.EventResponse;
    }
  }

  lemma {:induction false} FlatHasNoStop(blocks: seq<Bedrock.Block>, indices: seq<int>, parts: seq<seq<Event>>)
    requires SplitsAll(blocks, indices, parts)
    ensures All((event: Event) => !event.MessageStop?, Flat(parts))
  {
    if blocks != [] {
      var n := |blocks| - 1;
      FlatHasNoStop(blocks[..n], indices[..n], parts[..n]);
      var part := parts[n];
      assert Splits(blocks[n], indices[n], part);
      forall i | 0 <= i < |part|
        ensures !part[i].MessageStop?
      {
        assert blocks[n].ToolUseBlock? && i > 0 ==> part[i] == part[1..][i - 1];
      }
    }
  }

  /** The two events after the blocks carry the stop reason and the usage, and nothing else. */
  lemma TailPieces(resp: Bedrock.Converse)
    ensures var tail := [Bedrock.MessageStop(resp.stopReason), Bedrock.MetadataEvent(resp.usage, resp.serviceTier)];
            && Concat(TextPiece, tail) == "" && Concat(ThoughtPiece, tail) == ""
            && All(CallFree, tail)
  {
    var tail := [Bedrock.MessageStop(resp.stopReason), Bedrock.MetadataEvent(resp.usage, resp.serviceTier)];
    ConcatNothing(TextPiece, tail);
    ConcatNothing(ThoughtPiece, tail);
  }

  lemma HeadPieces()
    ensures var head := [Bedrock.MessageStart];
            Concat(TextPiece, head) == "" && Concat(ThoughtPiece, head) == "" && All(CallFree, head)
  {
    ConcatNothing(TextPiece, [Bedrock.MessageStart]);
    ConcatNothing(ThoughtPiece, [Bedrock.MessageStart]);
  }

  lemma {:induction false} StreamPieces(resp: Bedrock.Converse, indices: seq<int>, parts: seq<seq<Event>>)
    requires SplitsAll(resp.content, indices, parts)
    ensures Concat(TextPiece, StreamOf(resp, parts)) == Concat(Bedrock.TextOf, resp.content)
    ensures Concat(ThoughtPiece, StreamOf(resp, parts)) == Concat(Shown, resp.content)
  {
    hide Concat, Flat, SplitsAll;
    var head, tail := [Bedrock.MessageStart],
      [Bedrock.MessageStop(resp.stopReason), Bedrock.MetadataEvent(resp.usage, resp.serviceTier)];
    HeadPieces();
    TailPieces(resp);
    FlatPieces(resp.content, indices, parts);
    ConcatSplit(TextPiece, head, Flat(parts));
    ConcatSplit(TextPiece, head + Flat(parts), tail);
    ConcatSplit(ThoughtPiece, head, Flat(parts));
    ConcatSplit(ThoughtPiece, head + Flat(parts), tail);
  }

  lemma {:induction false} StreamCalls(env: Envelope, resp: Bedrock.Converse, indices: seq<int>, parts: seq<seq<Event>>)
    requires SplitsAll(resp.content, indices, parts) && DistinctIds(ToolIds(resp.content))
    ensures FlushedCalls(Chunks(env, map[], StreamOf(resp, parts))) == StreamedCalls(resp.content, indices, parts)
  {
    var head, tail := [Bedrock.MessageStart],
      [Bedrock.MessageStop(resp.stopReason), Bedrock.MetadataEvent(resp.usage, resp.serviceTier)];
    assert FlushedCalls(Chunks(env, map[], StreamOf(resp, parts))) == Held(env, map[], [], StreamOf(resp, parts));
    hide Held, IdsAfter, Flat, Concat, SplitsAll;
    HeadPieces();
    TailPieces(resp);
    HeldSplit(env, map[], [], head + Flat(parts), tail);
    HeldSplit(env, map[], [], head, Flat(parts));
    NoCalls(env, map[], [], head);
    FlatCalls(env, resp.content, indices, parts);
    NoCalls(env, IdsAfter(map[], head + Flat(parts)), StreamedCalls(resp.content, indices, parts), tail);
  }

  lemma StreamStop(env: Envelope, resp: Bedrock.Converse, indices: seq<int>, parts: seq<seq<Event>>)
    requires SplitsAll(resp.content, indices, parts)
    ensures FinishReasonOf(Chunks(env, map[], StreamOf(resp, parts))) == Bedrock.MapStopReason(resp.stopReason)
    ensures TokensAfter(None, StreamOf(resp, parts)) == Some(Bedrock.MapTokenUsage(resp.usage, resp.serviceTier))
  {
    hide FinishReasonOf, Chunks, TokensAfter, Flat, SplitsAll, Bedrock.MapStopReason, Bedrock.MapTokenUsage;
    var head, stop := [Bedrock.MessageStart], Bedrock.MessageStop(resp.stopReason);
    var report := Bedrock.MetadataEvent(resp.usage, resp.serviceTier);
    FlatHasNoStop(resp.content, indices, parts);
    NoStop(env, map[], head + Flat(parts));
    ReasonStep(env, head + Flat(parts), stop);
    ReasonStep(env, head + Flat(parts) + [stop], report);
    assert StreamOf(resp, parts) == head + Flat(parts) + [stop] + [report];
  }

  /** Only a stop event changes the reason, and a report the usage. */
  lemma ReasonStep(env: Envelope, events: seq<Event>, last: Event)
    ensures FinishReasonOf(Chunks(env, map[], events + [last]))
            == if last.MessageStop? && Bedrock.MapStopReason(last.stopReason).Some?
               then Bedrock.MapStopReason(last.stopReason) else FinishReasonOf(Chunks(env, map[], events))
    ensures last.MetadataEvent? ==>
              TokensAfter(None, events + [last]) == Some(Bedrock.MapTokenUsage(last.usage, last.serviceTier))
  {
    hide Bedrock.MapStopReason, Bedrock.MapTokenUsage, Bedrock.EventResponse;
    assert (events + [last])[..|events|] == events;
    EventReason(IdsAfter(map[], events), env.Wrap(last));
  }

  lemma EventReason(ids: map<int, string>, event: Bedrock.StreamEvent)
    ensures var chunk := Bedrock.EventResponse(ids, event);
            && |chunk.results| == 1
            && chunk.results[0].finishReason
               == if event.event.MessageStop? then Bedrock.MapStopReason(event.event.stopReason) else None
  {
    hide Bedrock.MapStopReason;
  }

  lemma BatchReads(resp: Bedrock.Converse)
    ensures var batch := [Bedrock.BatchResponse(resp)];
            && AllContent(batch) == Concat(Bedrock.TextOf, resp.content)
            && AllThought(batch) == (if resp.showThoughts then Concat(Shown, resp.content) else "")
            && AllCalls(batch) == Concat(Bedrock.CallOf, resp.content)
            && FinishReasonOf(batch) == Bedrock.MapStopReason(resp.stopReason)
  {
    var batch := [Bedrock.BatchResponse(resp)];
    assert batch[..0] == [];
    ConcatOne(ContentOf, batch[0]);
    ConcatOne(CallsOf, batch[0]);
    VisibleIsShown(resp.content);
    var thoughts := Concat(Bedrock.ThoughtOf, resp.content);
    assert thoughts == [] ==> Concat(Bedrock.Visible, thoughts) == "";
    ConcatOne(ThoughtOf, batch[0]);
  }

  /** The text sent for a tool input is the one that the whole answer prints for it. */
  predicate Faithful(block: Bedrock.Block, sent: string) {
    block.ToolUseBlock? ==> (block.input.Structured? || block.input.Scalar?) && sent == block.input.json
  }

  ghost predicate AllFaithful(blocks: seq<Bedrock.Block>, indices: seq<int>, parts: seq<seq<Event>>)
    requires |blocks| == |indices| == |parts|
  {
    forall k :: 0 <= k < |blocks| ==> Faithful(blocks[k], InputSent(parts[k], indices[k]))
  }

  /** Two calls agree in all but their arguments. */
  predicate SameTool(a: ToolCall, b: ToolCall) {
    a.toolCallId == b.toolCallId && a.toolName == b.toolName
  }

  lemma AllFaithfulStep(blocks: seq<Bedrock.Block>, indices: seq<int>, parts: seq<seq<Event>>)
    requires |blocks| == |indices| == |parts| > 0
    ensures var n := |blocks| - 1;
            AllFaithful(blocks, indices, parts)
            <==> AllFaithful(blocks[..n], indices[..n], parts[..n])
                 && Faithful(blocks[n], InputSent(parts[n], indices[n]))
  {
    hide Faithful, InputSent;
    var n := |blocks| - 1;
    assert forall k :: 0 <= k < n ==>
             blocks[k] == blocks[..n][k] && indices[k] == indices[..n][k] && parts[k] == parts[..n][k];
  }

  lemma {:induction false} SameCalls(blocks: seq<Bedrock.Block>, indices: seq<int>, parts: seq<seq<Event>>)
    requires SplitsAll(blocks, indices, parts)
    ensures Paired(SameTool, StreamedCalls(blocks, indices, parts), Concat(WholeCall, blocks))
    ensures StreamedCalls(blocks, indices, parts) == Concat(WholeCall, blocks) <==> AllFaithful(blocks, indices, parts)
  {
    if blocks != [] {
      hide StreamedCall, WholeCall, Faithful, Splits, InputSent, AllFaithful, Paired, SameTool;
      var n := |blocks| - 1;
      var sent := InputSent(parts[n], indices[n]);
      SameCalls(blocks[..n], indices[..n], parts[..n]);
      PartSends(blocks[n], indices[n], parts[n]);
      OneCall(blocks[n], sent);
      AllFaithfulStep(blocks, indices, parts);
      PairedMore(SameTool, StreamedCalls(blocks[..n], indices[..n], parts[..n]), Concat(WholeCall, blocks[..n]),
                 StreamedCall(blocks[n], sent), WholeCall(blocks[n]));
    }
  }

  lemma PartSends(block: Bedrock.Block, index: int, events: seq<Event>)
    requires Splits(block, index, events)
    ensures block.ToolUseBlock? ==> Sends(block.input, InputSent(events, index))
  {
    hide InputSent, Concat;
  }

  lemma OneCall(block: Bedrock.Block, sent: string)
    requires block.ToolUseBlock? ==> Sends(block.input, sent)
    ensures StreamedCall(block, sent) == WholeCall(block) <==> Faithful(block, sent)
    ensures Paired(SameTool, StreamedCall(block, sent), WholeCall(block))
  {
    hide IsLiteral;
    if block.ToolUseBlock? {
      assert StreamedCall(block, sent)[0].input == Some(sent);
      assert WholeCall(block)[0].input == InputOf(Bedrock.ParamsOf(block.input));
      if block.input.StringValue? {
        LiteralDiffers(sent, block.input.text);
      }
    }
  }

  // ------------------------------------------------------- what came last

  /** Whether the last tool use or non-empty text of the answer is a tool use. */
  function EndsInToolUse(blocks: seq<Bedrock.Block>): bool {
    if blocks == [] then false
    else
      var last := blocks[|blocks| - 1];
      last.ToolUseBlock? || (Bedrock.TextOf(last) == "" && EndsInToolUse(blocks[..|blocks| - 1]))
  }

  lemma {:induction false} EndsWithoutCalls(called: bool, events: seq<Event>)
    requires All(CallFree, events)
    ensures EndsInCall(called, events) == (called && Concat(TextPiece, events) == "")
  {
    if events != [] {
      var front, last := events[..|events| - 1], events[|events| - 1];
      EndsWithoutCalls(called, front);
      assert CallFree(last) && !CarriesCall(last);
      assert CarriesText(last) <==> TextPiece(last) != "";
      hide CallFree, TextPiece, CarriesText, CarriesCall;
    }
  }

  lemma {:induction false} EndsWithoutText(events: seq<Event>)
    requires forall i :: 0 <= i < |events| ==> !CarriesText(events[i])
    ensures EndsInCall(true, events)
  {
    if events != [] {
      EndsWithoutText(events[..|events| - 1]);
    }
  }

  lemma PartEnds(called: bool, block: Bedrock.Block, index: int, events: seq<Event>)
    requires Splits(block, index, events)
    ensures EndsInCall(called, events) == (block.ToolUseBlock? || (Bedrock.TextOf(block) == "" && called))
  {
    PartPieces(block, index, events);
    hide Concat, Fragments, IsLiteral, EndsInCall;
    if block.ToolUseBlock? {
      assert events == events[..1] + events[1..];
      EndsSplit(called, events[..1], events[1..]);
      EndsInOne(called, events[0]);
      assert events[..1] == [events[0]];
      forall i | 0 <= i < |events[1..]|
        ensures !CarriesText(events[1..][i])
      {
        assert InputEvent(events[1..][i], index);
      }
      EndsWithoutText(events[1..]);
    } else {
      EndsWithoutCalls(called, events);
    }
  }

  lemma EndsInOne(called: bool, event: Event)
    ensures EndsInCall(called, [event]) == (CarriesCall(event) || (!CarriesText(event) && called))
  {
    assert [event][..0] == [];
  }

  lemma {:induction false} FlatEnds(blocks: seq<Bedrock.Block>, indices: seq<int>, parts: seq<seq<Event>>)
    requires SplitsAll(blocks, indices, parts)
    ensures EndsInCall(false, Flat(parts)) == EndsInToolUse(blocks)
  {
    if blocks != [] {
      hide EndsInCall, Splits, Bedrock.TextOf;
      var n := |blocks| - 1;
      FlatEnds(blocks[..n], indices[..n], parts[..n]);
      EndsSplit(false, Flat(parts[..n]), parts[n]);
      PartEnds(EndsInCall(false, Flat(parts[..n])), blocks[n], indices[n], parts[n]);
    } else {
      assert Flat(parts) == [];
    }
  }

  /** The stream of an answer ends in a call exactly when the answer does. */
  lemma StreamEnds(resp: Bedrock.Converse, indices: seq<int>, parts: seq<seq<Event>>)
    requires SplitsAll(resp.content, indices, parts)
    ensures EndsInCall(false, StreamOf(resp, parts)) == EndsInToolUse(resp.content)
  {
    hide EndsInCall, EndsInToolUse, Flat, SplitsAll, Concat;
    var head, tail := [Bedrock.MessageStart],
      [Bedrock.MessageStop(resp.stopReason), Bedrock.MetadataEvent(resp.usage, resp.serviceTier)];
    HeadPieces();
    TailPieces(resp);
    FlatEnds(resp.content, indices, parts);
    EndsWithoutCalls(false, head);
    EndsSplit(false, head, Flat(parts));
    EndsSplit(false, head + Flat(parts), tail);
    EndsWithoutCalls(EndsInToolUse(resp.content), tail);
  }

  // ------------------------------------------------------------ the two readers

  /**
   * Every answer, split into events block by block in any way, reads the same as the whole: text, visible thought,
   * stop reason and usage, its thought blocks once their pieces are joined in number, order, encryption and signature,
   * and its tool calls in number, order, id and name.  The thought blocks' data agrees as well exactly when every
   * encrypted payload was cut at whole triples of bytes.  The arguments agree as well exactly when each tool input is
   * an object, array, number or boolean and the text that was sent for it is the one that the whole answer prints.
   */
  lemma {:induction false} StreamEqualsBatch(resp: Bedrock.Converse, indices: seq<int>, parts: seq<seq<Event>>)
    requires SplitsAll(resp.content, indices, parts) && DistinctIds(ToolIds(resp.content))
    ensures var stream := Chunks(Envelope(resp.requestId, resp.showThoughts), map[], StreamOf(resp, parts));
            var batch := [Bedrock.BatchResponse(resp)];
            var streamed, whole := FlushedCalls(stream), ListedCalls(AllCalls(batch));
            && AllContent(stream) == AllContent(batch)
            && AllThought(stream) == AllThought(batch)
            && Concat(BlocksIn, stream) == Concat(PartThoughts, parts)
            && Paired(SameSeal, JoinedBlocks(resp.content, parts), BlocksIn(batch[0]))
            && (JoinedBlocks(resp.content, parts) == BlocksIn(batch[0]) <==> AllCutWell(resp.content, parts))
            && FinishReasonOf(stream) == FinishReasonOf(batch)
            && TokensAfter(None, StreamOf(resp, parts)) == Some(Bedrock.MapTokenUsage(resp.usage, resp.serviceTier))
            && Paired(SameTool, streamed, whole)
            && (streamed == whole <==> AllFaithful(resp.content, indices, parts))
  {
    var env := Envelope(resp.requestId, resp.showThoughts);
    hide *;
    EventsText(env, map[], StreamOf(resp, parts));
    EventsThought(env, map[], StreamOf(resp, parts));
    StreamPieces(resp, indices, parts);
    ThoughtsJoin(env, resp, indices, parts);
    StreamCalls(env, resp, indices, parts);
    StreamStop(env, resp, indices, parts);
    BatchReads(resp);
    BatchCalls(resp.content);
    SameCalls(resp.content, indices, parts);
  }

  function ToolBlock(input: Bedrock.Document): Bedrock.Block {
    Bedrock.ToolUseBlock(Some("id"), Some("name"), input)
  }

  /** An answer with one tool block, sent as `sent`, reads differently in its stream. */
  ghost predicate Differs(input: Bedrock.Document, sent: string) {
    exists part :: DiffersIn(input, sent, part)
  }

  ghost predicate DiffersIn(input: Bedrock.Document, sent: string, part: seq<Event>) {
    var resp := Bedrock.Converse([ToolBlock(input)], None, None, None, None, false);
    && SplitsAll(resp.content, [0], [part]) && DistinctIds(ToolIds(resp.content)) && InputSent(part, 0) == sent
    && FlushedCalls(Chunks(Envelope(None, false), map[], StreamOf(resp, [part])))
       != ListedCalls(AllCalls([Bedrock.BatchResponse(resp)]))
  }

  lemma UnfaithfulDiffers(input: Bedrock.Document, sent: string)
    requires Sends(input, sent) && !Faithful(ToolBlock(input), sent)
    ensures Differs(input, sent)
  {
    var resp := Bedrock.Converse([ToolBlock(input)], None, None, None, None, false);
    hide Chunks, FlushedCalls, ListedCalls, AllCalls, StreamOf, Splits, InputSent, Faithful, Sends, Concat;
    var part := BlockSplits(ToolBlock(input), 0, sent);
    assert SplitsAll(resp.content, [0], [part]);
    ConcatOne(Bedrock.CallOf, ToolBlock(input));
    assert !Faithful(resp.content[0], InputSent([part][0], [0][0]));
    StreamEqualsBatch(resp, [0], [part]);
    assert DiffersIn(input, sent, part);
  }

  /** A bare string, an object sent with a blank in it, and an empty object sent without any text. */
  lemma SentTextDiffers()
    ensures Differs(Bedrock.StringValue("a"), Quoted("a"))
    ensures Differs(Bedrock.Structured("{\"a\":1}"), "{\"a\": 1}")
    ensures Differs(Bedrock.Structured("{}"), "")
  {
    hide Differs, IsLiteral;
    QuotedIsLiteral("a");
    UnfaithfulDiffers(Bedrock.StringValue("a"), Quoted("a"));
    assert |"{\"a\": 1}"| == 8 && |"{\"a\":1}"| == 7;
    UnfaithfulDiffers(Bedrock.Structured("{\"a\":1}"), "{\"a\": 1}");
    UnfaithfulDiffers(Bedrock.Structured("{}"), "");
  }
}
