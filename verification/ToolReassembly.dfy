/** The Bedrock event stream fed to the AI SDK adapter: tool calls come out whole, stop reasons do not. */
module ToolReassembly {
  import opened Optional
  import opened Sequences
  import opened ChatTypes
  import opened SdkTransformer
  import opened StreamGrammar
  import Totals = StreamTotals
  import Bedrock = BedrockStream

  type Event = Bedrock.Event

  /** What all events of one stream share. */
  datatype Envelope = Envelope(requestId: Option<string>, showThoughts: bool) {
    function Wrap(event: Event): Bedrock.StreamEvent {
      Bedrock.StreamEvent(event, requestId, showThoughts)
    }
  }

  // ------------------------------------------------------- folding the events

  function IdsAfter(ids: map<int, string>, events: seq<Event>): map<int, string> {
    if events == [] then ids
    else Bedrock.ToolIdsAfter(IdsAfter(ids, events[..|events| - 1]), events[|events| - 1])
  }

  /** The responses that the events of a stream without failures produce, from the tool ids known so far. */
  function Chunks(env: Envelope, ids: map<int, string>, events: seq<Event>): seq<ChatResponse> {
    if events == [] then []
    else
      var front := events[..|events| - 1];
      Chunks(env, ids, front) + [Bedrock.EventResponse(IdsAfter(ids, front), env.Wrap(events[|events| - 1]))]
  }

  function TokensAfter(tokens: Option<TokenUsage>, events: seq<Event>): Option<TokenUsage> {
    if events == [] then tokens
    else Bedrock.TokensAfter(TokensAfter(tokens, events[..|events| - 1]), events[|events| - 1])
  }

  /** The tool calls that the adapter flushes for a chunk list (see FinishesAndCalls). */
  function FlushedCalls(chunks: seq<ChatResponse>): seq<ToolCall> {
    MergeCalls([], AllCalls(chunks))
  }

  function ThoughtOf(chunk: ChatResponse): string {
    if chunk.results == [] then "" else chunk.results[0].thought.GetOr("")
  }

  function FinishReasonOf(chunks: seq<ChatResponse>): Option<FinishReason> {
    if chunks == [] then None
    else
      var chunk := chunks[|chunks| - 1];
      if chunk.results != [] && chunk.results[0].finishReason.Some? then chunk.results[0].finishReason
      else FinishReasonOf(chunks[..|chunks| - 1])
  }

  // -------------------------------------------- tool blocks whose deltas interleave

  datatype Opening = Opening(index: int, id: string, name: string)

  function OpeningOf(event: Event): seq<Opening> {
    match event
    case ContentBlockStart(index, ToolUseStart(id, name)) => [Opening(index.GetOr(0), id.GetOr(""), name.GetOr(""))]
    case _ => []
  }

  /** The tool blocks that were started, in order. */
  function Openings(events: seq<Event>): seq<Opening> {
    Concat(OpeningOf, events)
  }

  function FragmentOf(index: int): Event -> string {
    (event: Event) =>
      match event
      case ContentBlockDelta(at, ToolUseDelta(input)) => if at.GetOr(0) == index then input.GetOr("") else ""
      case _ => ""
  }

  /** The argument fragments of one block, concatenated. */
  function Fragments(events: seq<Event>, index: int): string {
    Concat(FragmentOf(index), events)
  }

  predicate IsOpen(openings: seq<Opening>, index: int) {
    exists k :: 0 <= k < |openings| && openings[k].index == index
  }

  predicate IsNew(openings: seq<Opening>, opening: Opening) {
    forall k :: 0 <= k < |openings| ==> openings[k].index != opening.index && openings[k].id != opening.id
  }

  /** Tool blocks have distinct indices and ids, and a fragment belongs to a block that has been started. */
  predicate Interleaving(events: seq<Event>) {
    events != [] ==>
      var front, last := events[..|events| - 1], events[|events| - 1];
      && Interleaving(front)
      && Bedrock.ErrorOf(last).None?
      && (forall opening :: opening in OpeningOf(last) ==> IsNew(Openings(front), opening))
      && (last.ContentBlockDelta? && last.delta.ToolUseDelta? ==> IsOpen(Openings(front), last.deltaIndex.GetOr(0)))
  }

  function CallFor(events: seq<Event>, opening: Opening): ToolCall {
    ToolCall(opening.id, opening.name, Some(Fragments(events, opening.index)))
  }

  /** One call per tool block, in start order, with its own name and its own fragments. */
  function OneCallPerBlock(events: seq<Event>): seq<ToolCall> {
    var openings := Openings(events);
    seq(|openings|, k requires 0 <= k < |openings| => CallFor(events, openings[k]))
  }

  /** The invariant of the fold: the id table and the openings agree, and no foreign fragment is waiting. */
  ghost predicate Tracked(events: seq<Event>, ids: map<int, string>) {
    var openings := Openings(events);
    && (forall j, k :: 0 <= j < k < |openings| ==>
          openings[j].index != openings[k].index && openings[j].id != openings[k].id)
    && (forall k :: 0 <= k < |openings| ==> openings[k].index in ids && ids[openings[k].index] == openings[k].id)
    && (forall index :: !IsOpen(openings, index) ==> Fragments(events, index) == "")
  }

  lemma MergeOne(calls: seq<ToolCall>, fc: Call)
    ensures MergeCalls(calls, [fc]) == MergeCall(calls, fc)
  {
    assert [fc][..0] == [];
    NothingMerged(calls);
  }

  lemma NewBlock(calls: seq<ToolCall>, opening: Opening)
    requires forall k :: 0 <= k < |calls| ==> calls[k].toolCallId != opening.id
    ensures MergeCall(calls, Call(opening.id, opening.name, Text("")))
            == calls + [ToolCall(opening.id, opening.name, Some(""))]
  {
  }

  lemma KnownBlock(calls: seq<ToolCall>, k: nat, fragment: string)
    requires k < |calls| && calls[k].input.Some?
    requires forall j :: 0 <= j < |calls| && j != k ==> calls[j].toolCallId != calls[k].toolCallId
    ensures MergeCall(calls, Call(calls[k].toolCallId, "", Text(fragment)))
            == calls[k := calls[k].(input := Some(calls[k].input.value + fragment))]
  {
  }

  lemma IsOpenSnoc(openings: seq<Opening>, opening: Opening, index: int)
    ensures IsOpen(openings + [opening], index) <==> IsOpen(openings, index) || index == opening.index
  {
    var longer := openings + [opening];
    assert longer[|openings|] == opening;
    if k :| 0 <= k < |openings| && openings[k].index == index {
      assert longer[k].index == index;
    }
  }

  lemma StartAddsNoFragment(events: seq<Event>, opening: Opening, index: int)
    requires events != [] && OpeningOf(events[|events| - 1]) == [opening]
    ensures Fragments(events, index) == Fragments(events[..|events| - 1], index)
    ensures Openings(events) == Openings(events[..|events| - 1]) + [opening]
  {
    var front := events[..|events| - 1];
    assert Fragments(front, index) + "" == Fragments(front, index);
  }

  lemma {:induction false} StartTracked(front: seq<Event>, events: seq<Event>, ids: map<int, string>, opening: Opening)
    requires Tracked(front, ids) && IsNew(Openings(front), opening)
    requires Openings(events) == Openings(front) + [opening]
    requires forall index :: Fragments(events, index) == Fragments(front, index)
    ensures Tracked(events, ids[opening.index := opening.id])
  {
    hide Openings, Fragments;
    forall index
      ensures IsOpen(Openings(events), index) <==> IsOpen(Openings(front), index) || index == opening.index
    {
      IsOpenSnoc(Openings(front), opening, index);
    }
  }

  lemma {:induction false} StartCalls(front: seq<Event>, events: seq<Event>, ids: map<int, string>, opening: Opening)
    requires Tracked(front, ids) && IsNew(Openings(front), opening)
    requires Openings(events) == Openings(front) + [opening]
    requires forall index :: Fragments(events, index) == Fragments(front, index)
    ensures MergeCalls(OneCallPerBlock(front), [Call(opening.id, opening.name, Text(""))]) == OneCallPerBlock(events)
  {
    hide Openings, Fragments, MergeCalls, MergeCall;
    MergeOne(OneCallPerBlock(front), Call(opening.id, opening.name, Text("")));
    NewBlock(OneCallPerBlock(front), opening);
    assert !IsOpen(Openings(front), opening.index);
  }

  lemma {:induction false} StepStart(events: seq<Event>, ids: map<int, string>, opening: Opening)
    requires events != [] && Interleaving(events) && OpeningOf(events[|events| - 1]) == [opening]
    requires Tracked(events[..|events| - 1], ids)
    ensures Tracked(events, ids[opening.index := opening.id])
    ensures MergeCalls(OneCallPerBlock(events[..|events| - 1]), [Call(opening.id, opening.name, Text(""))])
            == OneCallPerBlock(events)
  {
    var front := events[..|events| - 1];
    assert opening in OpeningOf(events[|events| - 1]);
    assert IsNew(Openings(front), opening);
    hide *;
    forall index
      ensures Fragments(events, index) == Fragments(front, index)
    {
      StartAddsNoFragment(events, opening, index);
    }
    StartAddsNoFragment(events, opening, 0);
    StartTracked(front, events, ids, opening);
    StartCalls(front, events, ids, opening);
  }

  lemma {:induction false} StepFragment(events: seq<Event>, ids: map<int, string>, index: int, fragment: string)
    requires events != [] && Interleaving(events)
    requires var last := events[|events| - 1];
             && last.ContentBlockDelta? && last.delta.ToolUseDelta?
             && last.deltaIndex.GetOr(0) == index && last.delta.input.GetOr("") == fragment
    requires Tracked(events[..|events| - 1], ids)
    ensures Tracked(events, ids) && index in ids
    ensures MergeCalls(OneCallPerBlock(events[..|events| - 1]), [Call(ids[index], "", Text(fragment))])
            == OneCallPerBlock(events)
  {
    hide Openings, Fragments, Interleaving, MergeCalls, MergeCall;
    var front := events[..|events| - 1];
    forall at
      ensures Fragments(events, at) == Fragments(front, at) + if at == index then fragment else ""
    {
      FragmentAdds(events, index, fragment, at);
    }
    FragmentAdds(events, index, fragment, index);
    FragmentOpen(events);
    FragmentMerges(front, events, ids, index, fragment);
    FragmentTracked(front, events, ids, index, fragment);
  }

  lemma FragmentOpen(events: seq<Event>)
    requires events != [] && Interleaving(events)
    ensures var last := events[|events| - 1];
            last.ContentBlockDelta? && last.delta.ToolUseDelta?
            ==> IsOpen(Openings(events[..|events| - 1]), last.deltaIndex.GetOr(0))
  {
  }

  lemma FragmentTracked(front: seq<Event>, events: seq<Event>, ids: map<int, string>, index: int, fragment: string)
    requires Tracked(front, ids) && IsOpen(Openings(front), index) && Openings(events) == Openings(front)
    requires forall at :: Fragments(events, at) == Fragments(front, at) + if at == index then fragment else ""
    ensures Tracked(events, ids) && index in ids
  {
    hide Openings, Fragments;
  }

  lemma FragmentMerges(front: seq<Event>, events: seq<Event>, ids: map<int, string>, index: int, fragment: string)
    requires Tracked(front, ids) && IsOpen(Openings(front), index) && Openings(events) == Openings(front)
    requires forall at :: Fragments(events, at) == Fragments(front, at) + if at == index then fragment else ""
    ensures index in ids
            && MergeCalls(OneCallPerBlock(front), [Call(ids[index], "", Text(fragment))]) == OneCallPerBlock(events)
  {
    hide Openings, Fragments, MergeCalls, MergeCall;
    var openings, calls := Openings(front), OneCallPerBlock(front);
    var k :| 0 <= k < |openings| && openings[k].index == index;
    KnownBlock(calls, k, fragment);
    MergeOne(calls, Call(ids[index], "", Text(fragment)));
    forall j | 0 <= j < |openings| && j != k
      ensures CallFor(events, openings[j]) == calls[j]
    {
      assert Fragments(front, openings[j].index) + "" == Fragments(front, openings[j].index);
    }
  }

  lemma FragmentAdds(events: seq<Event>, index: int, fragment: string, at: int)
    requires events != []
    requires var last := events[|events| - 1];
             && last.ContentBlockDelta? && last.delta.ToolUseDelta?
             && last.deltaIndex.GetOr(0) == index && last.delta.input.GetOr("") == fragment
    ensures Fragments(events, at) == Fragments(events[..|events| - 1], at) + if at == index then fragment else ""
    ensures Openings(events) == Openings(events[..|events| - 1])
  {
    var openings := Openings(events[..|events| - 1]);
    assert openings + [] == openings;
  }

  lemma {:induction false} StepOther(events: seq<Event>, ids: map<int, string>)
    requires events != [] && Tracked(events[..|events| - 1], ids)
    requires var last := events[|events| - 1];
             OpeningOf(last) == [] && !(last.ContentBlockDelta? && last.delta.ToolUseDelta?)
    ensures Tracked(events, ids) && OneCallPerBlock(events) == OneCallPerBlock(events[..|events| - 1])
  {
    var front := events[..|events| - 1];
    assert Openings(events) == Openings(front) + [] == Openings(front);
    forall index
      ensures Fragments(events, index) == Fragments(front, index)
    {
      assert Fragments(front, index) + "" == Fragments(front, index);
    }
  }

  /** The calls in the response to one event. */
  lemma EventCalls(env: Envelope, ids: map<int, string>, event: Event)
    ensures CallsOf(Bedrock.EventResponse(ids, env.Wrap(event))) ==
            if OpeningOf(event) != [] then [Call(OpeningOf(event)[0].id, OpeningOf(event)[0].name, Text(""))]
            else if event.ContentBlockDelta? && event.delta.ToolUseDelta? then
              var index := event.deltaIndex.GetOr(0);
              [Call(if index in ids then ids[index] else "", "", Text(event.delta.input.GetOr("")))]
            else []
    ensures Bedrock.ToolIdsAfter(ids, event)
            == if OpeningOf(event) != [] then ids[OpeningOf(event)[0].index := OpeningOf(event)[0].id] else ids
    ensures |OpeningOf(event)| <= 1
  {
  }

  lemma {:induction false} InterleavedFold(env: Envelope, events: seq<Event>)
    requires Interleaving(events)
    ensures Tracked(events, IdsAfter(map[], events))
    ensures FlushedCalls(Chunks(env, map[], events)) == OneCallPerBlock(events)
  {
    if events == [] {
      NothingMerged([]);
    } else {
      hide Tracked, OneCallPerBlock, MergeCalls, OpeningOf, CallsOf, Bedrock.EventResponse, Bedrock.ToolIdsAfter;
      var front, last := events[..|events| - 1], events[|events| - 1];
      InterleavedFold(env, front);
      var ids, chunks := IdsAfter(map[], front), Chunks(env, map[], front);
      var calls := CallsOf(Bedrock.EventResponse(ids, env.Wrap(last)));
      MergeConcat([], AllCalls(chunks), calls);
      EventCalls(env, ids, last);
      if OpeningOf(last) != [] {
        StepStart(events, ids, OpeningOf(last)[0]);
      } else if last.ContentBlockDelta? && last.delta.ToolUseDelta? {
        StepFragment(events, ids, last.deltaIndex.GetOr(0), last.delta.input.GetOr(""));
      } else {
        StepOther(events, ids);
        NothingMerged(MergeCalls([], AllCalls(chunks)));
      }
    }
  }

  /**
   * End to end: whatever way the deltas of several tool blocks interleave, the adapter emits one
   * tool call per block in start order, with the block's name and exactly its fragments.
   */
  lemma {:induction false} ToolReassembly(env: Envelope, events: seq<Event>)
    requires Interleaving(events)
    ensures Concat(StreamGrammar.CallOf, Output(Chunks(env, map[], events))) == OneCallPerBlock(events)
  {
    InterleavedFold(env, events);
    FinishesAndCalls(Chunks(env, map[], events));
  }

  // ------------------------------------------------------- why the answer stopped

  predicate CarriesCall(event: Event) {
    (event.ContentBlockStart? && event.start.ToolUseStart?) || (event.ContentBlockDelta? && event.delta.ToolUseDelta?)
  }

  predicate CarriesText(event: Event) {
    event.ContentBlockDelta? && event.delta.TextDelta? && event.delta.text != ""
  }

  /** Whether a tool event came last among the events with a tool call or with text; `called` if there are none. */
  function EndsInCall(called: bool, events: seq<Event>): bool {
    if events == [] then called
    else
      var last := events[|events| - 1];
      CarriesCall(last) || (!CarriesText(last) && EndsInCall(called, events[..|events| - 1]))
  }

  /** All that the adapter can say of an event stream. */
  function StreamFinish(called: bool): SdkFinish {
    if called then SdkFinish(ToolCalls, Some(FunctionCall)) else SdkFinish(Other, None)
  }

  lemma {:induction false} EndsSplit(called: bool, a: seq<Event>, b: seq<Event>)
    ensures EndsInCall(called, a + b) == EndsInCall(EndsInCall(called, a), b)
  {
    if b == [] {
      assert a + b == a;
    } else {
      EndsSplit(called, a, b[..|b| - 1]);
      assert (a + b)[..|a + b| - 1] == a + b[..|b| - 1];
    }
  }

  /** No event has text and a stop reason together. */
  lemma EventDecides(ids: map<int, string>, event: Bedrock.StreamEvent)
    ensures var chunk := Bedrock.EventResponse(ids, event);
            && |chunk.results| == 1
            && (CallsOf(chunk) != [] <==> CarriesCall(event.event))
            && (ContentOf(chunk) != "" <==> CarriesText(event.event))
            && (ContentOf(chunk) != "" ==> chunk.results[0].finishReason == None)
  {
  }

  lemma {:induction false} DecidedByEvents(env: Envelope, ids: map<int, string>, events: seq<Event>)
    ensures Totals.DecidedBy(Chunks(env, ids, events)) == StreamFinish(EndsInCall(false, events))
  {
    if events != [] {
      hide Bedrock.EventResponse, CarriesCall, CarriesText, CallsOf, ContentOf;
      var front, last := events[..|events| - 1], events[|events| - 1];
      DecidedByEvents(env, ids, front);
      EventDecides(IdsAfter(ids, front), env.Wrap(last));
    }
  }

  /**
   * The adapter never learns why a streamed answer stopped.  What it says instead is the answer's own reason exactly
   * when that is a tool call and a tool event came last, or there is none and no tool event came last.
   */
  lemma StopReasonIsLost(env: Envelope, ids: map<int, string>, events: seq<Event>, reason: Option<string>)
    ensures var finish := Run(Chunks(env, ids, events)).0.finishReason;
            && finish == StreamFinish(EndsInCall(false, events))
            && (finish == MapFinishReason(Bedrock.MapStopReason(reason))
                <==> Bedrock.MapStopReason(reason) == if EndsInCall(false, events) then Some(FunctionCall) else None)
  {
    Totals.FinishReasonDecided(Chunks(env, ids, events));
    DecidedByEvents(env, ids, events);
    FinishAgrees(EndsInCall(false, events), Bedrock.MapStopReason(reason));
    hide Bedrock.MapStopReason, Run, Chunks, MapFinishReason;
  }

  lemma FinishAgrees(called: bool, reason: Option<FinishReason>)
    ensures StreamFinish(called) == MapFinishReason(reason) <==> reason == if called then Some(FunctionCall) else None
  {
  }

  const CUT_OFF: seq<Event> := [
    Bedrock.ContentBlockDelta(Some(0), Bedrock.TextDelta("x")),
    Bedrock.MessageStop(Some("max_tokens"))
  ]

  lemma CutOffEndsInText()
    ensures !EndsInCall(false, CUT_OFF)
  {
    assert CUT_OFF == CUT_OFF[..1] + [CUT_OFF[1]];
    assert CUT_OFF[..1][..0] == [];
  }

  lemma MaxTokensIsLength()
    ensures Bedrock.MapStopReason(Some("max_tokens")) == Some(Length)
  {
    assert "max_tokens"[0] == 'm' && "end_turn"[0] == 'e' && "stop_sequence"[0] == 's';
  }

  /** A text cut off by the token limit ends, for the adapter, for no known reason. */
  lemma CutOffUnnoticed(env: Envelope)
    ensures CUT_OFF[1] == Bedrock.MessageStop(Some("max_tokens"))
            && Bedrock.MapStopReason(Some("max_tokens")) == Some(Length)
    ensures Run(Chunks(env, map[], CUT_OFF)).0.finishReason == SdkFinish(Other, None)
  {
    StopReasonIsLost(env, map[], CUT_OFF, None);
    CutOffEndsInText();
    MaxTokensIsLength();
    hide Run, Chunks, EndsInCall, Bedrock.MapStopReason;
  }
}
