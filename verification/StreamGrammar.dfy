/** What the AI SDK adapter emits over a whole stream: its shape, and what every part adds up to. */
module StreamGrammar {
  import opened Optional
  import opened Sequences
  import opened ChatTypes
  import opened SdkTransformer

  function Run(chunks: seq<ChatResponse>): (State, seq<Part>) {
    if chunks == [] then (INITIAL, [])
    else
      var (state, parts) := Run(chunks[..|chunks| - 1]);
      var (next, more) := TransformChunk(state, chunks[|chunks| - 1]);
      (next, parts + more)
  }

  /** Everything enqueued for a chunk list, the flush included. */
  function Output(chunks: seq<ChatResponse>): seq<Part> {
    Run(chunks).1 + Closing(Run(chunks).0)
  }

  predicate HasResult(chunk: ChatResponse) { chunk.results != [] }

  ghost predicate AllHaveResults(chunks: seq<ChatResponse>) {
    forall i :: 0 <= i < |chunks| ==> HasResult(chunks[i])
  }

  // ------------------------------------------------------------- the grammar

  /** `Open(meta, text)`: response metadata has been sent, a text block is open. */
  datatype Phase = Fresh | Open(meta: bool, text: bool) | Tools | Complete | Rejected

  function Next(phase: Phase, part: Part): Phase {
    match (phase, part)
    case (Fresh, StreamStart) => Open(false, false)
    case (Fresh, Finish(_, _, _)) => Complete
    case (Open(meta, text), ResponseMetadata(_, _)) => if meta then Rejected else Open(true, text)
    case (Open(meta, text), TextStart) => if text then Rejected else Open(meta, true)
    case (Open(meta, text), TextDelta(delta)) => if text && delta != "" then phase else Rejected
    case (Open(meta, text), TextEnd) => if text then Tools else Rejected
    case (Open(meta, text), ToolCallPart(_)) => if text then Rejected else Tools
    case (Open(meta, text), Finish(_, _, _)) => if text then Rejected else Complete
    case (Tools, ToolCallPart(_)) => Tools
    case (Tools, Finish(_, _, _)) => Complete
    case _ => Rejected
  }

  function Scan(phase: Phase, parts: seq<Part>): Phase {
    if parts == [] then phase else Next(Scan(phase, parts[..|parts| - 1]), parts[|parts| - 1])
  }

  /**
   * stream-start first; at most one response-metadata; at most one text block, never empty and closed
   * before the tool calls; exactly one finish, last.  An empty stream is a finish alone.
   */
  ghost predicate WellFormed(parts: seq<Part>) {
    Scan(Fresh, parts) == Complete
  }

  lemma {:induction false} ScanConcat(phase: Phase, a: seq<Part>, b: seq<Part>)
    ensures Scan(phase, a + b) == Scan(Scan(phase, a), b)
  {
    if b == [] {
      assert a + b == a;
    } else {
      ScanConcat(phase, a, b[..|b| - 1]);
      assert (a + b)[..|a + b| - 1] == a + b[..|b| - 1];
    }
  }

  lemma ScanOne(phase: Phase, part: Part)
    ensures Scan(phase, [part]) == Next(phase, part)
  {
    assert [part][..0] == [];
    assert Scan(phase, []) == phase;
  }

  lemma ScanTwo(phase: Phase, a: Part, b: Part)
    ensures Scan(phase, [a] + [b]) == Next(Next(phase, a), b)
  {
    ScanConcat(phase, [a], [b]);
    ScanOne(phase, a);
    ScanOne(Next(phase, a), b);
  }

  /** The phase that the adapter's own flags describe. */
  function PhaseOf(state: State): Phase {
    if !state.hasStarted then Fresh else Open(state.responseMetadataSent, state.textStarted)
  }

  lemma PreamblePhase(state: State, chunk: ChatResponse)
    ensures Scan(PhaseOf(state), Preamble(state, chunk).1) == PhaseOf(Preamble(state, chunk).0)
    requires !state.hasStarted ==> !state.responseMetadataSent && !state.textStarted
  {
    var meta := ResponseMetadataOf(chunk);
    var a: seq<Part> := if state.hasStarted then [] else [StreamStart];
    var b: seq<Part> := if !state.responseMetadataSent && meta.Some? then [meta.value] else [];
    ScanConcat(PhaseOf(state), a, b);
    ScanOne(PhaseOf(state), StreamStart);
    if meta.Some? {
      ScanOne(Scan(PhaseOf(state), a), meta.value);
    }
  }

  lemma ChoosePhase(state: State, chunk: ChatResponse, choice: ChatResult)
    requires state.hasStarted
    ensures Scan(PhaseOf(state), Choose(state, chunk, choice).1) == PhaseOf(Choose(state, chunk, choice).0)
  {
    hide Scan, MergeCalls, MapFinishReason, AddUsage, Next;
    var phase, delta := PhaseOf(state), TextDelta(choice.content.GetOr(""));
    ScanOne(phase, delta);
    ScanTwo(phase, TextStart, delta);
    ScanNothing(phase);
    assert [] + [delta] == [delta];
    if delta.delta != "" {
      TextPhases(state.responseMetadataSent, delta);
    }
  }

  lemma ScanNothing(phase: Phase)
    ensures Scan(phase, []) == phase
  {
  }

  lemma TextPhases(meta: bool, delta: Part)
    requires delta.TextDelta? && delta.delta != ""
    ensures Next(Open(meta, true), delta) == Open(meta, true)
    ensures Next(Next(Open(meta, false), TextStart), delta) == Open(meta, true)
  {
  }

  lemma {:induction false} ClosingPhase(state: State)
    requires state.hasStarted || (state.functionCalls == [] && !state.textStarted)
    ensures Scan(PhaseOf(state), Closing(state)) == Complete
  {
    var phase, tools := PhaseOf(state), ToolParts(state.functionCalls);
    var text: seq<Part> := if state.textStarted then [TextEnd] else [];
    ScanOne(phase, TextEnd);
    var settled := Scan(phase, text);
    ScanTools(settled, state.functionCalls);
    ScanConcat(phase, text, tools);
    ScanConcat(phase, text + tools, [FinishPart(state)]);
    ScanOne(Scan(settled, tools), FinishPart(state));
  }

  lemma {:induction false} ScanTools(phase: Phase, calls: seq<ToolCall>)
    requires phase == Tools || (phase.Open? && !phase.text) || calls == []
    ensures Scan(phase, ToolParts(calls)) == if calls == [] then phase else Tools
  {
    if calls != [] {
      ScanTools(phase, calls[..|calls| - 1]);
      assert ToolParts(calls)[..|calls| - 1] == ToolParts(calls[..|calls| - 1]);
    }
  }

  lemma {:induction false} FinishedStaysFinished(phase: Phase, parts: seq<Part>)
    requires phase == Complete || phase == Rejected
    ensures Scan(phase, parts) == if parts == [] then phase else Rejected
  {
    if parts != [] {
      FinishedStaysFinished(phase, parts[..|parts| - 1]);
    }
  }

  lemma {:induction false} RunPhase(chunks: seq<ChatResponse>)
    ensures var (state, parts) := Run(chunks);
            && state.hasStarted == (chunks != [])
            && (chunks == [] ==> state == INITIAL)
            && (if AllHaveResults(chunks) then Scan(Fresh, parts) == PhaseOf(state)
                else Scan(Fresh, parts) == Complete || Scan(Fresh, parts) == Rejected)
  {
    if chunks == [] {
      assert Scan(Fresh, []) == Fresh;
    } else {
      hide TransformChunk, Next;
      var front, chunk := chunks[..|chunks| - 1], chunks[|chunks| - 1];
      RunPhase(front);
      assert AllHaveResults(chunks) <==> AllHaveResults(front) && HasResult(chunk);
      var (state, parts) := Run(front);
      var (next, more) := TransformChunk(state, chunk);
      ScanConcat(Fresh, parts, more);
      if AllHaveResults(front) {
        ChunkPhase(state, chunk);
      } else {
        FinishedStaysFinished(Scan(Fresh, parts), more);
      }
    }
  }

  lemma ChunkPhase(state: State, chunk: ChatResponse)
    requires state.hasStarted || state == INITIAL
    ensures var (next, more) := TransformChunk(state, chunk);
            && next.hasStarted
            && Scan(PhaseOf(state), more) == if HasResult(chunk) then PhaseOf(next) else Complete
  {
    hide Scan, Choose, PhaseOf, Next;
    var (ready, opening) := Preamble(state, chunk);
    PreamblePhase(state, chunk);
    if HasResult(chunk) {
      ChoosePhase(ready, chunk, chunk.results[0]);
      ChooseKeeps(ready, chunk, chunk.results[0]);
      ScanConcat(PhaseOf(state), opening, Choose(ready, chunk, chunk.results[0]).1);
    } else {
      var ending := (if ready.textStarted then [TextEnd] else []) + [FinishPart(ready)];
      ScanConcat(PhaseOf(state), opening, ending);
      EndingPhase(ready);
      assert opening + ending == opening + (if ready.textStarted then [TextEnd] else []) + [FinishPart(ready)];
    }
  }

  lemma ChooseKeeps(state: State, chunk: ChatResponse, choice: ChatResult)
    ensures Choose(state, chunk, choice).0.hasStarted == state.hasStarted
  {
    hide MergeCalls, AddUsage, MapFinishReason;
  }

  lemma EndingPhase(state: State)
    requires state.hasStarted
    ensures Scan(PhaseOf(state), (if state.textStarted then [TextEnd] else []) + [FinishPart(state)]) == Complete
  {
    hide Scan;
    if state.textStarted {
      ScanTwo(PhaseOf(state), TextEnd, FinishPart(state));
    } else {
      ScanOne(PhaseOf(state), FinishPart(state));
      assert [] + [FinishPart(state)] == [FinishPart(state)];
    }
  }

  /** The output is well formed exactly when every chunk carries a result. */
  lemma {:induction false} StreamIsWellFormed(chunks: seq<ChatResponse>)
    ensures WellFormed(Output(chunks)) <==> AllHaveResults(chunks)
  {
    RunPhase(chunks);
    var (state, parts) := Run(chunks);
    ScanConcat(Fresh, parts, Closing(state));
    if AllHaveResults(chunks) {
      ClosingPhase(state);
    } else {
      FinishedStaysFinished(Scan(Fresh, parts), Closing(state));
    }
  }

  /** A single chunk without results finishes twice. */
  lemma EmptyChunkFinishesTwice()
    ensures var empty := ChatResponse([], None, None, None);
            !WellFormed(Output([empty]))
            && Output([empty]) == [StreamStart, FinishPart(INITIAL), FinishPart(Run([empty]).0)]
  {
    var empty := ChatResponse([], None, None, None);
    StreamIsWellFormed([empty]);
    assert !HasResult([empty][0]);
    assert [empty][..0] == [] && Run([]) == (INITIAL, []);
  }

  // -------------------------------------------------- what the parts add up to

  lemma CollectOptional<T>(of: Part -> seq<T>, present: bool, part: Part)
    ensures Concat(of, if present then [part] else []) == if present then of(part) else []
    ensures Concat(of, if present then [] else [part]) == if present then [] else of(part)
  {
    assert [part][..0] == [];
    assert Concat(of, []) == [];
  }

  function DeltaOf(part: Part): string { if part.TextDelta? then part.delta else "" }

  function CallOf(part: Part): seq<ToolCall> { if part.ToolCallPart? then [part.call] else [] }

  function MetadataOf(part: Part): seq<Part> { if part.ResponseMetadata? then [part] else [] }

  function FinishOf(part: Part): seq<Part> { if part.Finish? then [part] else [] }

  function ContentOf(chunk: ChatResponse): string {
    if chunk.results == [] then "" else chunk.results[0].content.GetOr("")
  }

  function CallsOf(chunk: ChatResponse): seq<Call> {
    if chunk.results == [] then [] else chunk.results[0].functionCalls.GetOr([])
  }

  function AllContent(chunks: seq<ChatResponse>): string {
    Concat(ContentOf, chunks)
  }

  function AllCalls(chunks: seq<ChatResponse>): seq<Call> {
    Concat(CallsOf, chunks)
  }

  lemma CollectPreamble<T>(of: Part -> seq<T>, state: State, chunk: ChatResponse)
    ensures var meta := ResponseMetadataOf(chunk);
            Concat(of, Preamble(state, chunk).1) ==
            (if state.hasStarted then [] else of(StreamStart))
            + if !state.responseMetadataSent && meta.Some? then of(meta.value) else []
  {
    var meta := ResponseMetadataOf(chunk);
    var sends := !state.responseMetadataSent && meta.Some?;
    var part := if sends then meta.value else StreamStart;
    CollectOptional(of, state.hasStarted, StreamStart);
    CollectOptional(of, sends, part);
    ConcatSplit(of, if state.hasStarted then [] else [StreamStart], if sends then [part] else []);
  }

  lemma CollectChoice<T>(of: Part -> seq<T>, state: State, chunk: ChatResponse, choice: ChatResult)
    ensures Concat(of, Choose(state, chunk, choice).1) ==
            if choice.content.GetOr("") == "" then []
            else (if state.textStarted then [] else of(TextStart)) + of(TextDelta(choice.content.GetOr("")))
  {
    var delta := TextDelta(choice.content.GetOr(""));
    CollectOptional(of, state.textStarted, TextStart);
    CollectOptional(of, true, delta);
    ConcatSplit(of, if state.textStarted then [] else [TextStart], [delta]);
    assert Concat(of, []) == [];
  }

  lemma CollectNoChoice<T>(of: Part -> seq<T>, state: State)
    ensures Concat(of, (if state.textStarted then [TextEnd] else []) + [FinishPart(state)])
            == (if state.textStarted then of(TextEnd) else []) + of(FinishPart(state))
  {
    CollectOptional(of, state.textStarted, TextEnd);
    CollectOptional(of, true, FinishPart(state));
    ConcatSplit(of, if state.textStarted then [TextEnd] else [], [FinishPart(state)]);
  }

  /** The contribution of one chunk to a measure of the parts, split where the code splits. */
  lemma CollectChunk<T>(of: Part -> seq<T>, state: State, chunk: ChatResponse)
    ensures var ready := Preamble(state, chunk).0;
            Concat(of, TransformChunk(state, chunk).1) ==
            Concat(of, Preamble(state, chunk).1) +
            if chunk.results == [] then (if ready.textStarted then of(TextEnd) else []) + of(FinishPart(ready))
            else Concat(of, Choose(ready, chunk, chunk.results[0]).1)
  {
    hide Preamble, Choose, Concat, FinishPart;
    var (ready, opening) := Preamble(state, chunk);
    if chunk.results == [] {
      var ending := (if ready.textStarted then [TextEnd] else []) + [FinishPart(ready)];
      CollectNoChoice(of, ready);
      ConcatSplit(of, opening, ending);
      assert opening + ending == opening + (if ready.textStarted then [TextEnd] else []) + [FinishPart(ready)];
    } else {
      ConcatSplit(of, opening, Choose(ready, chunk, chunk.results[0]).1);
    }
  }

  lemma {:induction false} CollectClosing<T>(of: Part -> seq<T>, state: State)
    ensures Concat(of, Closing(state)) ==
            (if state.textStarted then of(TextEnd) else []) + Concat(of, ToolParts(state.functionCalls))
            + of(FinishPart(state))
  {
    var text: seq<Part> := if state.textStarted then [TextEnd] else [];
    CollectOptional(of, state.textStarted, TextEnd);
    CollectOptional(of, true, FinishPart(state));
    ConcatSplit(of, text, ToolParts(state.functionCalls));
    ConcatSplit(of, text + ToolParts(state.functionCalls), [FinishPart(state)]);
  }

  lemma {:induction false} CollectCalls(calls: seq<ToolCall>)
    ensures Concat(CallOf, ToolParts(calls)) == calls
  {
    if calls != [] {
      hide Concat;
      var front := calls[..|calls| - 1];
      CollectCalls(front);
      assert ToolParts(calls) == ToolParts(front) + [ToolCallPart(calls[|front|])];
      ConcatSplit(CallOf, ToolParts(front), [ToolCallPart(calls[|front|])]);
      ConcatOne(CallOf, ToolCallPart(calls[|front|]));
    } else {
      ConcatNone(CallOf);
    }
  }

  lemma CollectTools(calls: seq<ToolCall>)
    ensures Concat(CallOf, ToolParts(calls)) == calls
    ensures Concat(DeltaOf, ToolParts(calls)) == ""
    ensures Concat(MetadataOf, ToolParts(calls)) == [] && Concat(FinishOf, ToolParts(calls)) == []
  {
    hide Concat;
    CollectCalls(calls);
    ConcatNothing(DeltaOf, ToolParts(calls));
    ConcatNothing(MetadataOf, ToolParts(calls));
    ConcatNothing(FinishOf, ToolParts(calls));
  }

  /** The text deltas concatenate to all content, for every chunk list. */
  lemma {:induction false} TextIsContent(chunks: seq<ChatResponse>)
    ensures Concat(DeltaOf, Output(chunks)) == AllContent(chunks)
  {
    RunText(chunks);
    var (state, parts) := Run(chunks);
    ConcatSplit(DeltaOf, parts, Closing(state));
    CollectClosing(DeltaOf, state);
    CollectTools(state.functionCalls);
  }

  lemma TextOfChunk(state: State, chunk: ChatResponse)
    ensures Concat(DeltaOf, TransformChunk(state, chunk).1) == ContentOf(chunk)
  {
    hide TransformChunk, Preamble, Choose, Concat;
    CollectChunk(DeltaOf, state, chunk);
    CollectPreamble(DeltaOf, state, chunk);
    if chunk.results != [] {
      CollectChoice(DeltaOf, Preamble(state, chunk).0, chunk, chunk.results[0]);
    }
  }

  lemma {:induction false} RunText(chunks: seq<ChatResponse>)
    ensures Concat(DeltaOf, Run(chunks).1) == AllContent(chunks)
  {
    if chunks != [] {
      hide TransformChunk;
      var front, chunk := chunks[..|chunks| - 1], chunks[|chunks| - 1];
      RunText(front);
      var (state, parts) := Run(front);
      ConcatSplit(DeltaOf, parts, TransformChunk(state, chunk).1);
      TextOfChunk(state, chunk);
    }
  }

  lemma OthersOfChunk(state: State, chunk: ChatResponse)
    ensures var parts := TransformChunk(state, chunk).1;
            && Concat(CallOf, parts) == []
            && |Concat(FinishOf, parts)| == (if HasResult(chunk) then 0 else 1)
  {
    hide TransformChunk, Preamble, Choose, Concat;
    CollectChunk(CallOf, state, chunk);
    CollectChunk(FinishOf, state, chunk);
    CollectPreamble(CallOf, state, chunk);
    CollectPreamble(FinishOf, state, chunk);
    if chunk.results != [] {
      CollectChoice(CallOf, Preamble(state, chunk).0, chunk, chunk.results[0]);
      CollectChoice(FinishOf, Preamble(state, chunk).0, chunk, chunk.results[0]);
    }
  }

  function WithoutResult(chunks: seq<ChatResponse>): nat {
    if chunks == [] then 0
    else WithoutResult(chunks[..|chunks| - 1]) + if HasResult(chunks[|chunks| - 1]) then 0 else 1
  }

  lemma {:induction false} RunOthers(chunks: seq<ChatResponse>)
    ensures Concat(CallOf, Run(chunks).1) == []
    ensures |Concat(FinishOf, Run(chunks).1)| == WithoutResult(chunks)
  {
    if chunks != [] {
      hide TransformChunk;
      var front, chunk := chunks[..|chunks| - 1], chunks[|chunks| - 1];
      RunOthers(front);
      var (state, parts) := Run(front);
      ConcatSplit(CallOf, parts, TransformChunk(state, chunk).1);
      ConcatSplit(FinishOf, parts, TransformChunk(state, chunk).1);
      OthersOfChunk(state, chunk);
    }
  }

  /** One finish closes the stream, each chunk without a result adds another; tool calls come from the flush alone. */
  lemma {:induction false} FinishesAndCalls(chunks: seq<ChatResponse>)
    ensures |Concat(FinishOf, Output(chunks))| == 1 + WithoutResult(chunks)
    ensures Output(chunks)[|Output(chunks)| - 1] == FinishPart(Run(chunks).0)
    ensures Concat(CallOf, Output(chunks)) == MergeCalls([], AllCalls(chunks))
  {
    RunOthers(chunks);
    RunCalls(chunks);
    var (state, parts) := Run(chunks);
    ConcatSplit(FinishOf, parts, Closing(state));
    ConcatSplit(CallOf, parts, Closing(state));
    CollectClosing(FinishOf, state);
    CollectClosing(CallOf, state);
    CollectTools(state.functionCalls);
  }

  lemma MergedLast(calls: seq<ToolCall>, fcs: seq<Call>, fc: Call)
    ensures MergeCalls(calls, fcs + [fc]) == MergeCall(MergeCalls(calls, fcs), fc)
  {
    hide MergeCall;
    assert (fcs + [fc])[..|fcs|] == fcs;
  }

  lemma {:induction false} MergeConcat(calls: seq<ToolCall>, a: seq<Call>, b: seq<Call>)
    ensures MergeCalls(calls, a + b) == MergeCalls(MergeCalls(calls, a), b)
  {
    hide *;
    if b == [] {
      assert a + b == a;
      NothingMerged(MergeCalls(calls, a));
    } else {
      var front, last := b[..|b| - 1], b[|b| - 1];
      MergeConcat(calls, a, front);
      assert b == front + [last] && a + b == a + front + [last];
      MergedLast(calls, a + front, last);
      MergedLast(MergeCalls(calls, a), front, last);
    }
  }

  lemma {:induction false} RunCalls(chunks: seq<ChatResponse>)
    ensures Run(chunks).0.functionCalls == MergeCalls([], AllCalls(chunks))
  {
    if chunks == [] {
      NothingMerged([]);
    } else {
      var front, chunk := chunks[..|chunks| - 1], chunks[|chunks| - 1];
      RunCalls(front);
      MergeConcat([], AllCalls(front), CallsOf(chunk));
      NothingMerged(MergeCalls([], AllCalls(front)));
      hide MergeCalls;
    }
  }

  // ------------------------------------------------ one tool call per distinct id

  /** The distinct ids in order of first appearance. */
  function FirstSeen(fcs: seq<Call>): (ids: seq<string>)
    ensures forall id :: id in ids <==> exists k :: 0 <= k < |fcs| && fcs[k].id == id
    ensures forall i, j :: 0 <= i < j < |ids| ==> ids[i] != ids[j]
  {
    if fcs == [] then []
    else
      var front, id := FirstSeen(fcs[..|fcs| - 1]), fcs[|fcs| - 1].id;
      if id in front then front else front + [id]
  }

  /** The calls with one id, in order. */
  function Own(fcs: seq<Call>, id: string): seq<Call> {
    if fcs == [] then []
    else Own(fcs[..|fcs| - 1], id) + if fcs[|fcs| - 1].id == id then [fcs[|fcs| - 1]] else []
  }

  /** The input that one id's calls build up: strings append, a non-string value starts over. */
  function Assembled(own: seq<Call>): Option<string>
    requires own != []
  {
    var last := own[|own| - 1].params;
    if |own| == 1 then InputOf(last) else Extend(Assembled(own[..|own| - 1]), last)
  }

  /** What a call says of its input: a string or the JSON text of anything else, nothing if it is undefined. */
  function Written(fc: Call): string {
    match fc.params
    case Text(s) => s
    case Json(s) => s
    case Absent => ""
  }

  /** Only the last value that is not a string and the strings behind it are left of an input. */
  lemma {:induction false} AssembledFrom(front: seq<Call>, start: Call, texts: seq<Call>)
    requires front == [] || !start.params.Text?
    requires forall i :: 0 <= i < |texts| ==> texts[i].params.Text?
    ensures Assembled(front + [start] + texts)
            == if texts == [] && start.params.Absent? then None else Some(Written(start) + Concat(Written, texts))
  {
    hide Assembled, Concat, Written;
    var own := front + [start] + texts;
    ConcatNone(Written);
    if texts == [] {
      assert own == front + [start] && own[..|own| - 1] == front;
      AssembledLast(front, start);
      StartsOver(front, start);
    } else {
      var shorter, last := texts[..|texts| - 1], texts[|texts| - 1];
      AssembledFrom(front, start, shorter);
      assert own == front + [start] + shorter + [last] && texts == shorter + [last];
      AssembledLast(front + [start] + shorter, last);
      ConcatSplit(Written, shorter, [last]);
      ConcatOne(Written, last);
      WrittenText(last);
      WrittenText(start);
      assert Assembled(front + [start] + shorter).GetOr("") == Written(start) + Concat(Written, shorter);
      assert Written(start) + (Concat(Written, shorter) + Written(last))
             == Written(start) + Concat(Written, shorter) + Written(last);
    }
  }

  lemma AssembledLast(front: seq<Call>, last: Call)
    ensures Assembled(front + [last])
            == if front == [] then InputOf(last.params) else Extend(Assembled(front), last.params)
  {
    assert (front + [last])[..|front|] == front;
  }

  lemma StartsOver(front: seq<Call>, start: Call)
    requires front == [] || !start.params.Text?
    ensures (if front == [] then InputOf(start.params) else Extend(Assembled(front), start.params))
            == if start.params.Absent? then None else Some(Written(start) + "")
  {
    hide Assembled;
    assert Written(start) + "" == Written(start);
  }

  lemma WrittenText(fc: Call)
    ensures fc.params.Text? ==> Written(fc) == fc.params.text
    ensures fc.params.Absent? ==> Written(fc) == ""
  {
  }

  lemma {:induction false} OwnExists(fcs: seq<Call>, id: string)
    ensures Own(fcs, id) != [] <==> id in FirstSeen(fcs)
  {
    if fcs != [] {
      OwnExists(fcs[..|fcs| - 1], id);
    }
  }

  function Entry(fcs: seq<Call>, id: string): ToolCall
    requires id in FirstSeen(fcs)
  {
    OwnExists(fcs, id);
    ToolCall(id, Own(fcs, id)[0].name, Assembled(Own(fcs, id)))
  }

  /** The reference: per distinct id its first name and the input assembled from its own calls alone. */
  function Reassembled(fcs: seq<Call>): seq<ToolCall> {
    var ids := FirstSeen(fcs);
    seq(|ids|, k requires 0 <= k < |ids| => Entry(fcs, ids[k]))
  }

  /** Merging in place by id computes exactly the per-id reassembly, however the calls interleave. */
  lemma {:induction false} MergeReassembles(fcs: seq<Call>)
    ensures MergeCalls([], fcs) == Reassembled(fcs)
  {
    if fcs == [] {
      NothingMerged([]);
    } else {
      MergeReassembles(fcs[..|fcs| - 1]);
      ReassembledStep(fcs);
    }
  }

  /** The emitted tool calls: one per distinct id in first-seen order, for every chunk list. */
  lemma OneCallPerId(chunks: seq<ChatResponse>)
    ensures Concat(CallOf, Output(chunks)) == Reassembled(AllCalls(chunks))
  {
    hide *;
    FinishesAndCalls(chunks);
    MergeReassembles(AllCalls(chunks));
  }

  lemma {:induction false} EntryStep(fcs: seq<Call>, id: string)
    requires fcs != [] && id in FirstSeen(fcs[..|fcs| - 1])
    ensures var before, fc := Entry(fcs[..|fcs| - 1], id), fcs[|fcs| - 1];
            Entry(fcs, id) == if id == fc.id then before.(input := Extend(before.input, fc.params)) else before
  {
    var front, fc := fcs[..|fcs| - 1], fcs[|fcs| - 1];
    OwnExists(front, id);
    var own := Own(front, id);
    assert (own + [fc])[..|own|] == own;
    assert own + [] == own;
  }

  lemma {:induction false} EntryNew(fcs: seq<Call>)
    requires fcs != [] && fcs[|fcs| - 1].id !in FirstSeen(fcs[..|fcs| - 1])
    ensures var fc := fcs[|fcs| - 1]; Entry(fcs, fc.id) == ToolCall(fc.id, fc.name, InputOf(fc.params))
  {
    var front, fc := fcs[..|fcs| - 1], fcs[|fcs| - 1];
    OwnExists(front, fc.id);
    assert Own(fcs, fc.id) == [fc];
  }

  /** The list is merged in place where the id is known, and extended where it is new. */
  lemma MergeAt(calls: seq<ToolCall>, fc: Call, index: nat)
    requires index <= |calls| && forall k :: 0 <= k < |calls| ==> (calls[k].toolCallId == fc.id <==> k == index)
    ensures MergeCall(calls, fc) ==
            if index == |calls| then calls + [ToolCall(fc.id, fc.name, InputOf(fc.params))]
            else calls[index := calls[index].(input := Extend(calls[index].input, fc.params))]
  {
    hide Extend, InputOf;
    var found := FindCall(calls, fc.id);
    assert found < |calls| ==> calls[found].toolCallId == fc.id;
    assert index < |calls| ==> calls[index].toolCallId == fc.id;
    assert found == index;
  }

  lemma FirstSeenStep(fcs: seq<Call>)
    requires fcs != []
    ensures var before, fc := FirstSeen(fcs[..|fcs| - 1]), fcs[|fcs| - 1];
            FirstSeen(fcs) == if fc.id in before then before else before + [fc.id]
  {
  }

  lemma {:induction false} ReassembledStep(fcs: seq<Call>)
    requires fcs != []
    ensures MergeCall(Reassembled(fcs[..|fcs| - 1]), fcs[|fcs| - 1]) == Reassembled(fcs)
  {
    hide FirstSeen, Entry, MergeCall, Extend, InputOf;
    var front, fc := fcs[..|fcs| - 1], fcs[|fcs| - 1];
    var before, ids := Reassembled(front), FirstSeen(front);
    FirstSeenStep(fcs);
    forall k | 0 <= k < |ids|
      ensures before[k].toolCallId == ids[k]
      ensures Entry(fcs, ids[k])
              == if ids[k] == fc.id then before[k].(input := Extend(before[k].input, fc.params)) else before[k]
    {
      EntryStep(fcs, ids[k]);
      EntryId(front, ids[k]);
    }
    if fc.id in ids {
      var k :| 0 <= k < |ids| && ids[k] == fc.id;
      MergeAt(before, fc, k);
    } else {
      EntryNew(fcs);
      MergeAt(before, fc, |ids|);
    }
  }

  lemma EntryId(fcs: seq<Call>, id: string)
    requires id in FirstSeen(fcs)
    ensures Entry(fcs, id).toolCallId == id
  {
    hide FirstSeen;
  }
}
