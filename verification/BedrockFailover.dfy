/** Opening one Converse stream across regions, as `createConverseStream` in src/aws-bedrock/api.ts does. */
module BedrockFailover {
  import opened Optional
  import Bedrock = BedrockStream

  type Event = Bedrock.Event

  /** What asking one region comes to: `ending` is the error that breaks its event iteration off, if any. */
  datatype Outcome = SendFailed(error: string) | NoStream | Streamed(events: seq<Event>, ending: Option<string>)

  /** What the flags say at one moment: the request goes on, its signal is aborted, or its reader has cancelled. */
  datatype Stop = Going | Aborted | Cancelled

  /**
   * The flags as they are read before region k is asked and after it failed.  `during(k)` is the number of events that
   * region k has enqueued when the reader cancels while its stream is read, if it does.
   */
  datatype Interruption = Interruption(before: nat -> Stop, during: nat -> Option<nat>, after: nat -> Stop)

  const NO_STREAM := "Bedrock returned no Converse stream"
  const ABORTED := "Aborted"
  const INVALID_STATE := "Invalid state: controller is already closed"

  /** What the reader of the stream and the regions see, in order. */
  datatype Signal = Asked(region: nat) | Enqueued(event: Event) | Closed | Errored(error: string)

  /** The stream's controller: once the reader has cancelled, it throws on new events and ignores errors. */
  class Controller {
    var signals: seq<Signal>
    var cancelled: bool

    constructor ()
      ensures signals == [] && !cancelled
    {
      signals, cancelled := [], false;
    }

    method Ask(region: nat)
      modifies this`signals
      ensures signals == old(signals) + [Asked(region)]
    {
      signals := signals + [Asked(region)];
    }

    method Enqueue(event: Event) returns (thrown: Option<string>)
      modifies this`signals
      ensures thrown == if cancelled then Some(INVALID_STATE) else None
      ensures signals == old(signals) + if cancelled then [] else [Enqueued(event)]
    {
      if cancelled {
        return Some(INVALID_STATE);
      }
      signals := signals + [Enqueued(event)];
      return None;
    }

    method Close() returns (thrown: Option<string>)
      modifies this`signals
      ensures thrown == if cancelled then Some(INVALID_STATE) else None
      ensures signals == old(signals) + if cancelled then [] else [Closed]
    {
      if cancelled {
        return Some(INVALID_STATE);
      }
      signals := signals + [Closed];
      return None;
    }

    method Error(error: string)
      modifies this`signals
      ensures signals == old(signals) + if cancelled then [] else [Errored(error)]
    {
      if !cancelled {
        signals := signals + [Errored(error)];
      }
    }
  }

  /** A server-side failure that may be retried elsewhere, provided nothing has been handed out yet. */
  predicate Retryable(event: Event) {
    var failure := Bedrock.ErrorOf(event);
    failure.Some? && failure.value.status.Some? && failure.value.status.value != 0 && failure.value.status.value >= 500
  }

  // ------------------------------------------------------------ the reference

  /** The region fails before it has delivered anything. */
  predicate FallsOver(outcome: Outcome) {
    match outcome
    case SendFailed(_) => true
    case NoStream => true
    case Streamed(events, ending) => if events == [] then ending.Some? else Retryable(events[0])
  }

  /** Why a region fell over. */
  function Cause(outcome: Outcome): string
    requires FallsOver(outcome)
  {
    match outcome
    case SendFailed(error) => error
    case NoStream => NO_STREAM
    case Streamed(events, ending) =>
      if events == [] then ending.value else Bedrock.ErrorOf(events[0]).value.message
  }

  function Enqueues(events: seq<Event>): seq<Signal> {
    seq(|events|, i requires 0 <= i < |events| => Enqueued(events[i]))
  }

  /** The reader cancels while this stream is read. */
  predicate CutOff(outcome: Outcome, during: Option<nat>) {
    outcome.Streamed? && during.Some? && during.value <= |outcome.events| && (during.value == 0 || !FallsOver(outcome))
  }

  /** The events that a region hands out. */
  function HandedOut(outcome: Outcome, during: Option<nat>): seq<Event> {
    if CutOff(outcome, during) then outcome.events[..during.value]
    else if FallsOver(outcome) then [] else outcome.events
  }

  /** What asking a region makes visible before its stream is closed or its error is looked at. */
  function Visible(k: nat, outcome: Outcome, during: Option<nat>): seq<Signal> {
    [Asked(k)] + Enqueues(HandedOut(outcome, during))
  }

  /** An error reaches a reader that has not cancelled. */
  function Reported(stop: Stop, error: string): seq<Signal> {
    if stop == Cancelled then [] else [Errored(error)]
  }

  /** The signals from region `k` on; `last` is the error of the region before. */
  function Signals(outcomes: seq<Outcome>, stops: Interruption, k: nat, last: Option<string>): seq<Signal>
    requires k <= |outcomes|
    decreases |outcomes| - k
  {
    if k == |outcomes| then [Errored(last.GetOr(ABORTED))]
    else if stops.before(k) != Going then Reported(stops.before(k), last.GetOr(ABORTED))
    else Visible(k, outcomes[k], stops.during(k)) + AfterRegion(outcomes, stops, k)
  }

  function AfterRegion(outcomes: seq<Outcome>, stops: Interruption, k: nat): seq<Signal>
    requires k < |outcomes|
    decreases |outcomes| - k, 0
  {
    if CutOff(outcomes[k], stops.during(k)) then []
    else if !FallsOver(outcomes[k]) then
      if outcomes[k].ending.None? then [Closed] else Reported(stops.after(k), outcomes[k].ending.value)
    else if stops.after(k) != Going then Reported(stops.after(k), Cause(outcomes[k]))
    else Signals(outcomes, stops, k + 1, Some(Cause(outcomes[k])))
  }

  method CreateConverseStream(outcomes: seq<Outcome>, stops: Interruption, controller: Controller)
    requires !controller.cancelled
    modifies controller
    ensures controller.signals == old(controller.signals) + Signals(outcomes, stops, 0, None)
  {
    hide *;
    var lastError: Option<string> := None;
    var emitted := false;
    ghost var goal := controller.signals + Signals(outcomes, stops, 0, None);
    var k := 0;
    while k < |outcomes|
      invariant 0 <= k <= |outcomes| && !emitted && !controller.cancelled
      invariant controller.signals + Signals(outcomes, stops, k, lastError) == goal
    {
      SignalsFrom(outcomes, stops, k, lastError);
      controller.cancelled := stops.before(k) == Cancelled;
      if stops.before(k) != Going {
        break;
      }
      ghost var shown := controller.signals + Visible(k, outcomes[k], stops.during(k));
      Associate(controller.signals, Visible(k, outcomes[k], stops.during(k)), AfterRegion(outcomes, stops, k));
      assert shown + AfterRegion(outcomes, stops, k) == goal;
      AfterRegionIs(outcomes, stops, k);
      var thrown: Option<string>;
      emitted, thrown := AskRegion(outcomes[k], stops.during(k), k, controller);
      assert controller.signals == shown + if thrown.None? then [Closed] else [];
      if thrown.None? {
        return;
      }
      lastError := thrown;
      controller.cancelled := controller.cancelled || stops.after(k) == Cancelled;
      if emitted || controller.cancelled || stops.after(k) == Aborted {
        controller.Error(thrown.value);
        return;
      }
      k := k + 1;
    }
    SignalsFrom(outcomes, stops, k, lastError);
    controller.Error(lastError.GetOr(ABORTED));
  }

  lemma Associate(a: seq<Signal>, b: seq<Signal>, c: seq<Signal>)
    ensures a + b + c == a + (b + c)
  {
  }

  lemma SignalsFrom(outcomes: seq<Outcome>, stops: Interruption, k: nat, last: Option<string>)
    requires k <= |outcomes|
    ensures Signals(outcomes, stops, k, last) ==
            if k == |outcomes| then [Errored(last.GetOr(ABORTED))]
            else if stops.before(k) == Cancelled then []
            else if stops.before(k) == Aborted then [Errored(last.GetOr(ABORTED))]
            else Visible(k, outcomes[k], stops.during(k)) + AfterRegion(outcomes, stops, k)
  {
  }

  lemma AfterRegionIs(outcomes: seq<Outcome>, stops: Interruption, k: nat)
    requires k < |outcomes|
    ensures AfterRegion(outcomes, stops, k) ==
            if CutOff(outcomes[k], stops.during(k)) then []
            else if !FallsOver(outcomes[k]) then
              if outcomes[k].ending.None? then [Closed]
              else if stops.after(k) == Cancelled then [] else [Errored(outcomes[k].ending.value)]
            else if stops.after(k) == Cancelled then []
            else if stops.after(k) == Aborted then [Errored(Cause(outcomes[k]))]
            else Signals(outcomes, stops, k + 1, Some(Cause(outcomes[k])))
    ensures !FallsOver(outcomes[k]) ==> outcomes[k].Streamed?
  {
    hide Retryable, Cause;
  }

  /** The try block for one region. */
  method AskRegion(outcome: Outcome, during: Option<nat>, k: nat, controller: Controller)
    returns (emitted: bool, thrown: Option<string>)
    requires !controller.cancelled
    modifies controller
    ensures controller.cancelled == CutOff(outcome, during)
    ensures !CutOff(outcome, during) ==>
              if FallsOver(outcome) then !emitted && thrown == Some(Cause(outcome))
              else outcome.Streamed? && thrown == outcome.ending && (thrown.Some? ==> emitted)
    ensures CutOff(outcome, during) ==> thrown.Some?
    ensures controller.signals == old(controller.signals) + Visible(k, outcome, during)
              + if thrown.None? then [Closed] else []
  {
    hide Enqueues, Retryable;
    NothingHandedOut();
    emitted, thrown := false, None;
    controller.Ask(k);
    match outcome {
      case SendFailed(error) =>
        thrown := Some(error);
      case NoStream =>
        thrown := Some(NO_STREAM);
      case Streamed(events, ending) =>
        emitted, thrown := Deliver(events, ending, during, controller);
    }
  }

  lemma NothingHandedOut()
    ensures Enqueues([]) == []
  {
  }

  lemma OneMoreHandedOut(events: seq<Event>, n: nat)
    requires n < |events|
    ensures Enqueues(events[..n + 1]) == Enqueues(events[..n]) + [Enqueued(events[n])]
  {
  }

  /** The event loop over one region's stream and the close behind it, entered with nothing emitted yet. */
  method Deliver(events: seq<Event>, ending: Option<string>, during: Option<nat>, controller: Controller)
    returns (emitted: bool, thrown: Option<string>)
    requires !controller.cancelled
    modifies controller
    ensures var outcome := Streamed(events, ending);
            && controller.cancelled == CutOff(outcome, during)
            && (CutOff(outcome, during) ==> thrown.Some?)
            && (!CutOff(outcome, during) ==>
                  if FallsOver(outcome) then !emitted && thrown == Some(Cause(outcome))
                  else thrown == ending && (thrown.Some? ==> emitted))
            && controller.signals == old(controller.signals) + Enqueues(HandedOut(outcome, during))
                 + if thrown.None? then [Closed] else []
  {
    hide Enqueues, Retryable;
    NothingHandedOut();
    RetryableIs();
    emitted := false;
    assert events[..0] == [];
    for n := 0 to |events|
      invariant emitted == (n > 0)
      invariant n > 0 ==> !Retryable(events[0])
      invariant !controller.cancelled && (during.Some? ==> during.value >= n)
      invariant controller.signals == old(controller.signals) + Enqueues(events[..n])
    {
      controller.cancelled := during == Some(n);
      var event := events[n];
      var failure := Bedrock.ErrorOf(event);
      if failure.Some? && !emitted && failure.value.status.Some? && failure.value.status.value != 0
         && failure.value.status.value >= 500 {
        return false, Some(failure.value.message);
      }
      thrown := controller.Enqueue(event);
      if thrown.Some? {
        return;
      }
      OneMoreHandedOut(events, n);
      emitted := true;
    }
    assert events[..|events|] == events;
    controller.cancelled := during == Some(|events|);
    if ending.Some? {
      return emitted, ending;
    }
    thrown := controller.Close();
  }

  lemma RetryableIs()
    ensures forall event :: Retryable(event) <==>
              var failure := Bedrock.ErrorOf(event);
              failure.Some? && failure.value.status.Some? && failure.value.status.value != 0
              && failure.value.status.value >= 500
  {
  }

  // ------------------------------------------------------------ safety of every run

  function AskedUpTo(k: nat, n: nat): seq<Signal>
    requires k <= n
  {
    seq(n - k, i requires 0 <= i < n - k => Asked(k + i))
  }

  /** The shape of a run: regions asked in order, one region's events, one last word for a reader that stayed. */
  datatype Story = Story(asked: nat, delivered: seq<Event>, ending: Option<Signal>)

  function Told(k: nat, story: Story): seq<Signal>
    requires k <= story.asked
  {
    AskedUpTo(k, story.asked) + Enqueues(story.delivered) + if story.ending.Some? then [story.ending.value] else []
  }

  /** A failure of the service itself: a throttled or an invalid request is none. */
  predicate ServerSide(kind: Bedrock.FailureKind) {
    || kind.Unavailable? || kind.Internal?
    || (kind.ModelStream? && kind.originalStatus.Some? && kind.originalStatus.value >= 500)
  }

  /** The region could not be asked, broke off before any event, or began with a failure of the service itself. */
  predicate GivesWay(outcome: Outcome) {
    match outcome
    case SendFailed(_) => true
    case NoStream => true
    case Streamed(events, ending) =>
      if events == [] then ending.Some? else events[0].Failure? && ServerSide(events[0].kind)
  }

  /** The error that a region that gives way leaves behind. */
  predicate Tells(outcome: Outcome, error: string) {
    match outcome
    case SendFailed(sent) => error == sent
    case NoStream => error == "Bedrock returned no Converse stream"
    case Streamed(events, ending) =>
      if events == [] then ending == Some(error)
      else
        && events[0].Failure?
        && (if events[0].message.Some? then error == events[0].message.value
            else if events[0].kind.Unavailable? then error == "Bedrock unavailable"
            else if events[0].kind.Internal? then error == "Bedrock internal error"
            else error == "Bedrock stream error")
  }

  lemma FallsOverByKind(outcome: Outcome)
    ensures FallsOver(outcome) <==> GivesWay(outcome)
    ensures FallsOver(outcome) ==> Tells(outcome, Cause(outcome))
  {
    if outcome.Streamed? && outcome.events != [] {
      Bedrock.FailureIs(outcome.events[0]);
    }
  }

  /** The reader cancels while this stream is read: at a moment that the reading of it comes to. */
  predicate Leaves(outcome: Outcome, during: Option<nat>) {
    && outcome.Streamed? && during.Some? && during.value <= |outcome.events|
    && (during.value > 0 ==> !GivesWay(outcome))
  }

  lemma LeavesIs(outcome: Outcome, during: Option<nat>)
    ensures CutOff(outcome, during) <==> Leaves(outcome, during)
  {
    FallsOverByKind(outcome);
    hide FallsOver, GivesWay;
  }

  /** The reader cancels before region `k` is asked, while its stream is read, or before its error is reported. */
  predicate Cancels(outcomes: seq<Outcome>, stops: Interruption, k: nat)
    requires k <= |outcomes|
  {
    k < |outcomes|
    && (stops.before(k) == Cancelled || stops.after(k) == Cancelled || Leaves(outcomes[k], stops.during(k)))
  }

  /** Region `i` is asked, gives way and nobody interrupts. */
  predicate PassesOn(outcomes: seq<Outcome>, stops: Interruption, i: nat)
    requires i < |outcomes|
  {
    && stops.before(i) == Going && stops.after(i) == Going
    && GivesWay(outcomes[i]) && !Leaves(outcomes[i], stops.during(i))
  }

  /** The last word when no further region is asked although none has delivered: silence for a reader that left. */
  predicate GivesUp(stop: Stop, ending: Option<Signal>) {
    if stop == Cancelled then ending.None? else ending.Some? && ending.value.Errored?
  }

  /** What the last region asked leads to. */
  predicate Concludes(outcomes: seq<Outcome>, stops: Interruption, story: Story)
    requires 0 < story.asked <= |outcomes|
  {
    var r, region := story.asked - 1, outcomes[story.asked - 1];
    && stops.before(r) == Going
    && if Leaves(region, stops.during(r)) then
         story.delivered == region.events[..stops.during(r).value] && story.ending.None?
       else if !GivesWay(region) then
         && region.Streamed? && story.delivered == region.events
         && (region.ending.None? ==> story.ending == Some(Closed))
         && (region.ending.Some? ==>
               story.ending == if stops.after(r) == Cancelled then None else Some(Errored(region.ending.value)))
       else
         && story.delivered == []
         && (story.ending.Some? ==> story.ending.value.Errored? && Tells(region, story.ending.value.error))
         && if stops.after(r) != Going then GivesUp(stops.after(r), story.ending)
            else if story.asked < |outcomes| then
              stops.before(story.asked) != Going && GivesUp(stops.before(story.asked), story.ending)
            else GivesUp(Going, story.ending)
  }

  /**
   * Regions are asked in order without a gap, and every one before the last gave way, uninterrupted and with nothing
   * delivered: it could not be asked, broke off at once, or began with a failure of the service itself.  All events
   * come from the last region asked: its whole stream, or what it had sent when the reader left.  The run ends with
   * exactly one close or error, or in silence for a reader that left; it closes only when the last region's stream ran
   * to its end, and reports that region's own error otherwise.  It asks no further region only if the last one
   * delivered, an interruption came or none was left.
   */
  ghost predicate Safe(outcomes: seq<Outcome>, stops: Interruption, k: nat, last: Option<string>, story: Story) {
    && k <= story.asked <= |outcomes|
    && (forall i :: k <= i < story.asked - 1 ==> PassesOn(outcomes, stops, i))
    && if story.asked > k then Concludes(outcomes, stops, story)
       else
         && story.delivered == []
         && (story.ending.Some? ==> story.ending.value == Errored(if last.Some? then last.value else "Aborted"))
         && if k < |outcomes| then stops.before(k) != Going && GivesUp(stops.before(k), story.ending)
            else GivesUp(Going, story.ending)
  }

  lemma ToldNow(k: nat, ending: Option<Signal>)
    ensures Told(k, Story(k, [], ending)) == if ending.Some? then [ending.value] else []
  {
  }

  lemma ToldHere(k: nat, delivered: seq<Event>, ending: Option<Signal>)
    ensures Told(k, Story(k + 1, delivered, ending))
            == [Asked(k)] + Enqueues(delivered) + if ending.Some? then [ending.value] else []
  {
    hide Enqueues;
    assert AskedUpTo(k, k + 1) == [Asked(k)];
  }

  lemma ToldOn(k: nat, story: Story)
    requires k < story.asked
    ensures Told(k, story) == [Asked(k)] + Enqueues([]) + Told(k + 1, story)
  {
    NothingHandedOut();
    hide Enqueues;
    assert AskedUpTo(k, story.asked) == [Asked(k)] + AskedUpTo(k + 1, story.asked);
  }

  /** A region that passes on is told of first, and the rest of the story stays as it is. */
  lemma PassedOn(outcomes: seq<Outcome>, stops: Interruption, k: nat, last: Option<string>, story: Story)
    requires k < |outcomes| && PassesOn(outcomes, stops, k)
    requires FallsOver(outcomes[k]) && Safe(outcomes, stops, k + 1, Some(Cause(outcomes[k])), story)
    ensures Safe(outcomes, stops, k, last, story)
  {
    hide PassesOn, Tells, GivesWay, Leaves, FallsOver, Cause;
    FallsOverByKind(outcomes[k]);
    PassesOnIs(outcomes, stops, k);
  }

  lemma PassesOnIs(outcomes: seq<Outcome>, stops: Interruption, i: nat)
    requires i < |outcomes|
    ensures PassesOn(outcomes, stops, i) <==>
            && stops.before(i) == Going && stops.after(i) == Going
            && GivesWay(outcomes[i]) && !Leaves(outcomes[i], stops.during(i))
  {
  }

  lemma {:induction false} StoryFrom(outcomes: seq<Outcome>, stops: Interruption, k: nat, last: Option<string>)
    returns (story: Story)
    requires k <= |outcomes|
    ensures Safe(outcomes, stops, k, last, story)
    ensures Signals(outcomes, stops, k, last) == Told(k, story)
    decreases |outcomes| - k
  {
    hide Cause, Retryable, Signals, AfterRegion, Told, Enqueues, Tells, GivesWay, Leaves, FallsOver, CutOff;
    SignalsFrom(outcomes, stops, k, last);
    if k == |outcomes| || stops.before(k) != Going {
      var silent := k < |outcomes| && stops.before(k) == Cancelled;
      story := Story(k, [], if silent then None else Some(Errored(last.GetOr(ABORTED))));
      ToldNow(k, story.ending);
    } else {
      AfterRegionIs(outcomes, stops, k);
      FallsOverByKind(outcomes[k]);
      LeavesIs(outcomes[k], stops.during(k));
      var region, cut := outcomes[k], CutOff(outcomes[k], stops.during(k));
      var events := HandedOut(region, stops.during(k));
      if !cut && FallsOver(region) && stops.after(k) == Going {
        story := StoryFrom(outcomes, stops, k + 1, Some(Cause(region)));
        ToldOn(k, story);
        PassedOn(outcomes, stops, k, last, story);
      } else {
        var ending := if cut then None
                      else if !FallsOver(region) && region.ending.None? then Some(Closed)
                      else if stops.after(k) == Cancelled then None
                      else Some(Errored(if FallsOver(region) then Cause(region) else region.ending.value));
        story := Story(k + 1, events, ending);
        ToldHere(k, events, ending);
      }
    }
  }

  /** Failover safety for every script of regional outcomes and every interruption. */
  lemma FailoverSafety(outcomes: seq<Outcome>, stops: Interruption) returns (story: Story)
    ensures Signals(outcomes, stops, 0, None) == Told(0, story)
    ensures Safe(outcomes, stops, 0, None, story)
    ensures (forall k :: 0 <= k < |outcomes| ==> !Cancels(outcomes, stops, k)) ==> story.ending.Some?
  {
    story := StoryFrom(outcomes, stops, 0, None);
    hide PassesOn, Tells, GivesWay, Leaves;
    if forall k :: 0 <= k < |outcomes| ==> !Cancels(outcomes, stops, k) {
      assert !Cancels(outcomes, stops, story.asked);
      assert story.asked > 0 ==> !Cancels(outcomes, stops, story.asked - 1);
    }
  }

  // -------------------------------------------------------- when a run succeeds

  /** Region `w` is the first that does not give way, and no interruption is seen up to its end. */
  ghost predicate Reaches(outcomes: seq<Outcome>, stops: Interruption, k: nat, w: nat) {
    && k <= w < |outcomes| && !GivesWay(outcomes[w])
    && stops.before(w) == Going && !Leaves(outcomes[w], stops.during(w))
    && forall i :: k <= i < w ==> PassesOn(outcomes, stops, i)
  }

  /** The run closes exactly when it reaches a region whose stream runs to its end. */
  lemma {:induction false} ClosesIff(outcomes: seq<Outcome>, stops: Interruption, k: nat, last: Option<string>)
    requires k <= |outcomes|
    ensures Closed in Signals(outcomes, stops, k, last)
            <==> exists w: nat :: Reaches(outcomes, stops, k, w) && outcomes[w].ending.None?
    decreases |outcomes| - k
  {
    hide Cause, Retryable, Signals, AfterRegion, Enqueues, CutOff, HandedOut, Visible, GivesWay, Leaves, FallsOver,
      PassesOn;
    SignalsFrom(outcomes, stops, k, last);
    if k < |outcomes| {
      PassesOnIs(outcomes, stops, k);
    }
    if k < |outcomes| && stops.before(k) == Going {
      AfterRegionIs(outcomes, stops, k);
      FallsOverByKind(outcomes[k]);
      LeavesIs(outcomes[k], stops.during(k));
      NoCloseYet(k, outcomes[k], stops.during(k));
      if CutOff(outcomes[k], stops.during(k)) {
        assert forall w: nat :: !Reaches(outcomes, stops, k, w);
      } else if !FallsOver(outcomes[k]) {
        assert Reaches(outcomes, stops, k, k);
        assert forall w: nat :: Reaches(outcomes, stops, k, w) ==> w == k;
      } else if stops.after(k) == Going {
        ClosesIff(outcomes, stops, k + 1, Some(Cause(outcomes[k])));
        forall w: nat
          ensures Reaches(outcomes, stops, k, w) <==> Reaches(outcomes, stops, k + 1, w)
        {
        }
      }
    }
  }

  lemma NoCloseYet(k: nat, outcome: Outcome, during: Option<nat>)
    ensures Closed !in Visible(k, outcome, during)
  {
    hide HandedOut;
  }
}
