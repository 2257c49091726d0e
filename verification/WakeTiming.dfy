/**
 * When a run of the event loop of scripts/mind-pacer-eval.ts wakes, said of the pacer's own decisions and the list of
 * wakes alone.
 */
module WakeTiming {
  import opened Optional
  import opened Sequences
  import opened WakeSchedule

  /** What the pacer decided last: at the bootstrap or at the last wake, each time from the state it was left in. */
  function Decided<S>(pacer: Pacer<S>, wakes: seq<Wake>): Decision<S> {
    if wakes == [] then pacer.next(pacer.initial, Bootstrap, 0)
    else
      var front, last := wakes[..|wakes| - 1], wakes[|wakes| - 1];
      pacer.next(Decided(pacer, front).state, if last.reactive then Reactive else Spontaneous, last.at)
  }

  function LastAt(wakes: seq<Wake>): int {
    if wakes == [] then 0 else wakes[|wakes| - 1].at
  }

  /** The last decision makes the mind wake at `at`: after the delay it armed, but no sooner than a tick. */
  predicate Armed<S>(pacer: Pacer<S>, wakes: seq<Wake>, at: int) {
    var decision := Decided(pacer, wakes);
    && decision.Arm? && !pacer.parked(decision.state)
    && at >= LastAt(wakes) + decision.delayMs && at >= LastAt(wakes) + 1_000
    && (at == LastAt(wakes) + decision.delayMs || at == LastAt(wakes) + 1_000)
  }

  /** The instant of the last reactive wake, or of the start. */
  function LastBeatAt(wakes: seq<Wake>): int {
    if wakes == [] then 0
    else if wakes[|wakes| - 1].reactive then wakes[|wakes| - 1].at else LastBeatAt(wakes[..|wakes| - 1])
  }

  /** The next reactive wake is due a period after the last. */
  predicate Beating(options: Options, wakes: seq<Wake>, at: int) {
    options.reactiveEveryMs.Some? && at == LastBeatAt(wakes) + options.reactiveEveryMs.value
  }

  /** A wake comes when the pacer armed it or the period is over, whichever is first, and the period wins a tie. */
  ghost predicate OnTime<S>(pacer: Pacer<S>, options: Options, before: seq<Wake>, wake: Wake) {
    && wake.at < options.horizonMs
    && if wake.reactive then
         Beating(options, before, wake.at) && forall at :: Armed(pacer, before, at) ==> at >= wake.at
       else
         Armed(pacer, before, wake.at) && forall at :: Beating(options, before, at) ==> at > wake.at
  }

  ghost predicate AllOnTime<S>(pacer: Pacer<S>, options: Options, wakes: seq<Wake>) {
    forall i :: 0 <= i < |wakes| ==> OnTime(pacer, options, wakes[..i], wakes[i])
  }

  /** Nothing is left to come below the horizon. */
  ghost predicate Over<S>(pacer: Pacer<S>, options: Options, wakes: seq<Wake>) {
    forall at :: Armed(pacer, wakes, at) || Beating(options, wakes, at) ==> at >= options.horizonMs
  }

  lemma AllOnTimeSnoc<S>(pacer: Pacer<S>, options: Options, wakes: seq<Wake>, wake: Wake)
    ensures AllOnTime(pacer, options, wakes + [wake])
            <==> AllOnTime(pacer, options, wakes) && OnTime(pacer, options, wakes, wake)
  {
    hide OnTime;
    var all := wakes + [wake];
    assert all[..|wakes|] == wakes && all[|wakes|] == wake;
    forall i | 0 <= i < |wakes|
      ensures all[..i] == wakes[..i] && all[i] == wakes[i]
    {
    }
  }

  // ------------------------------------------------------- every run is on time

  /** The loop's variables say what the list of wakes says. */
  ghost predicate InStep<S>(pacer: Pacer<S>, options: Options, sim: Sim<S>) {
    var decision := Decided(pacer, sim.wakes);
    && sim.now == LastAt(sim.wakes)
    && sim.state == decision.state
    && sim.wakeAt == (if decision.Arm? then Some(sim.now + decision.delayMs) else None)
    && sim.nextReactiveAt == (if options.reactiveEveryMs.None? then None
                              else Some(LastBeatAt(sim.wakes) + options.reactiveEveryMs.value))
  }

  lemma InStepDue<S>(pacer: Pacer<S>, options: Options, sim: Sim<S>)
    requires InStep(pacer, options, sim)
    ensures forall at :: Armed(pacer, sim.wakes, at) <==> SpontaneousAt(pacer, sim) == Some(at)
    ensures forall at :: Beating(options, sim.wakes, at) <==> sim.nextReactiveAt == Some(at)
  {
    hide Decided, LastBeatAt;
  }

  lemma Appended<S>(pacer: Pacer<S>, wakes: seq<Wake>, wake: Wake)
    ensures var all := wakes + [wake];
            && Decided(pacer, all) == pacer.next(Decided(pacer, wakes).state,
                                                 if wake.reactive then Reactive else Spontaneous, wake.at)
            && LastAt(all) == wake.at
            && LastBeatAt(all) == if wake.reactive then wake.at else LastBeatAt(wakes)
  {
    assert (wakes + [wake])[..|wakes|] == wakes;
  }

  lemma AdvanceInStep<S>(pacer: Pacer<S>, options: Options, sim: Sim<S>)
    requires InStep(pacer, options, sim) && !Done(pacer, options, sim)
    ensures InStep(pacer, options, Advance(pacer, options, sim))
    ensures AllOnTime(pacer, options, sim.wakes) ==> AllOnTime(pacer, options, Advance(pacer, options, sim).wakes)
  {
    hide Decided, LastBeatAt, LastAt, Armed, Beating, AllOnTime;
    var at := Due(pacer, sim).value;
    var wake := Wake(at, sim.nextReactiveAt == Some(at));
    InStepDue(pacer, options, sim);
    Appended(pacer, sim.wakes, wake);
    AllOnTimeSnoc(pacer, options, sim.wakes, wake);
  }

  lemma {:induction false} RunInStep<S>(pacer: Pacer<S>, options: Options, sim: Sim<S>, steps: nat)
    requires InStep(pacer, options, sim) && AllOnTime(pacer, options, sim.wakes)
    ensures var final := Run(pacer, options, sim, steps);
            InStep(pacer, options, final) && AllOnTime(pacer, options, final.wakes)
    decreases steps
  {
    hide InStep, AllOnTime, Advance, Done;
    RunStep(pacer, options, sim, steps);
    if steps != 0 && !Done(pacer, options, sim) {
      AdvanceInStep(pacer, options, sim);
      RunInStep(pacer, options, Advance(pacer, options, sim), steps - 1);
    }
  }

  lemma InitInStep<S>(pacer: Pacer<S>, options: Options)
    ensures InStep(pacer, options, Init(pacer, options)) && AllOnTime(pacer, options, [])
    ensures Init(pacer, options).wakes == []
  {
  }

  /**
   * For every pacer, horizon and period: each wake of a run comes when the pacer's last decision or the period makes
   * it come, the run ends in the state of the last decision, and it stops only if the guard stopped it or nothing is
   * left to come.
   */
  lemma EveryWakeOnTime<S>(pacer: Pacer<S>, options: Options, steps: nat)
    ensures var final := Run(pacer, options, Init(pacer, options), steps);
            && AllOnTime(pacer, options, final.wakes)
            && final.state == Decided(pacer, final.wakes).state
            && (Over(pacer, options, final.wakes) || |final.wakes| == steps)
            && (Done(pacer, options, final) <==> Over(pacer, options, final.wakes))
  {
    hide Run, Init, Armed, Beating, Decided, LastBeatAt, LastAt, AllOnTime;
    var final := Run(pacer, options, Init(pacer, options), steps);
    InitInStep(pacer, options);
    RunInStep(pacer, options, Init(pacer, options), steps);
    RunLength(pacer, options, Init(pacer, options), steps);
    InStepDue(pacer, options, final);
    DoneIs(pacer, options, final);
  }

  lemma DoneIs<S>(pacer: Pacer<S>, options: Options, sim: Sim<S>)
    ensures Done(pacer, options, sim) <==>
            && (SpontaneousAt(pacer, sim).Some? ==> SpontaneousAt(pacer, sim).value >= options.horizonMs)
            && (sim.nextReactiveAt.Some? ==> sim.nextReactiveAt.value >= options.horizonMs)
  {
    hide SpontaneousAt;
  }

  /** One list of wakes is on time, so these are the wakes of the run. */
  lemma {:induction false} OnTimeUnique<S>(pacer: Pacer<S>, options: Options, a: seq<Wake>, b: seq<Wake>)
    requires AllOnTime(pacer, options, a) && AllOnTime(pacer, options, b)
    requires Over(pacer, options, a) && Over(pacer, options, b)
    ensures a == b
  {
    hide OnTime, Over;
    var n := 0;
    assert a[..0] == b[..0];
    while n < |a| && n < |b|
      invariant n <= |a| && n <= |b| && a[..n] == b[..n]
    {
      SameNext(pacer, options, a[..n], a[n], b[n]);
      assert a[..n + 1] == a[..n] + [a[n]] && b[..n + 1] == b[..n] + [b[n]];
      n := n + 1;
    }
    assert n == |a| ==> a[..n] == a;
    assert n == |b| ==> b[..n] == b;
    if n < |a| {
      NotBoth(pacer, options, a[..n], a[n]);
    } else if n < |b| {
      NotBoth(pacer, options, b[..n], b[n]);
    }
  }

  lemma NotBoth<S>(pacer: Pacer<S>, options: Options, before: seq<Wake>, wake: Wake)
    ensures !(Over(pacer, options, before) && OnTime(pacer, options, before, wake))
  {
    hide Armed, Beating;
  }

  lemma SameNext<S>(pacer: Pacer<S>, options: Options, before: seq<Wake>, a: Wake, b: Wake)
    requires OnTime(pacer, options, before, a) && OnTime(pacer, options, before, b)
    ensures a == b
  {
    assert a.reactive ==> Beating(options, before, a.at);
    assert b.reactive ==> Beating(options, before, b.at);
    assert !a.reactive ==> Armed(pacer, before, a.at);
    assert !b.reactive ==> Armed(pacer, before, b.at);
    hide Decided, LastBeatAt, LastAt;
  }

  // --------------------------------------------------------------- a steady pacer

  /** Arms the same delay at every wake and never parks. */
  ghost predicate Steady<S(!new)>(pacer: Pacer<S>, delayMs: int) {
    && (forall state :: !pacer.parked(state))
    && forall state, wakeClass, at ::
         pacer.next(state, wakeClass, at).Arm? && pacer.next(state, wakeClass, at).delayMs == delayMs
  }

  lemma SteadyArmed<S(!new)>(pacer: Pacer<S>, delayMs: int, wakes: seq<Wake>, at: int)
    requires Steady(pacer, delayMs) && delayMs >= TICK_MS
    ensures Armed(pacer, wakes, at) <==> at == LastAt(wakes) + delayMs
  {
    var decision := Decided(pacer, wakes);
    assert !pacer.parked(decision.state) && decision.Arm? && decision.delayMs == delayMs;
  }

  function Multiple(k: nat, delayMs: int): int { k * delayMs }

  lemma MultipleNext(n: nat, delayMs: int)
    ensures Multiple(0, delayMs) == 0 && Multiple(n + 1, delayMs) == Multiple(n, delayMs) + delayMs
  {
  }

  lemma {:induction false} SteadyTimes<S(!new)>(pacer: Pacer<S>, options: Options, delayMs: int, wakes: seq<Wake>,
                                                n: nat)
    requires Steady(pacer, delayMs) && delayMs >= TICK_MS && options.reactiveEveryMs.None?
    requires AllOnTime(pacer, options, wakes) && n <= |wakes|
    ensures LastAt(wakes[..n]) == Multiple(n, delayMs)
    ensures forall i :: 0 <= i < n ==> wakes[i] == Wake(Multiple(i + 1, delayMs), false)
    ensures forall i :: 0 <= i < n ==> wakes[i].at < options.horizonMs
  {
    hide Armed, Steady, Multiple;
    MultipleNext(n, delayMs);
    if n > 0 {
      SteadyTimes(pacer, options, delayMs, wakes, n - 1);
      assert OnTime(pacer, options, wakes[..n - 1], wakes[n - 1]);
      SteadyArmed(pacer, delayMs, wakes[..n - 1], wakes[n - 1].at);
      MultipleNext(n - 1, delayMs);
    }
  }

  /** A pacer that always arms the same delay, of at least a tick, wakes at exactly its multiples below the horizon. */
  lemma SteadyWakes<S(!new)>(pacer: Pacer<S>, options: Options, delayMs: int, steps: nat, at: int)
    requires Steady(pacer, delayMs) && delayMs >= TICK_MS && options.reactiveEveryMs.None?
    ensures var final := Run(pacer, options, Init(pacer, options), steps);
            Done(pacer, options, final) ==>
              && (forall wake :: wake in final.wakes ==> !wake.reactive)
              && (Wake(at, false) in final.wakes
                  <==> at < options.horizonMs && exists k: nat :: k >= 1 && at == Multiple(k, delayMs))
  {
    hide Run, Init, Done, Steady, AllOnTime, Multiple, Armed, LastAt, Decided;
    var final := Run(pacer, options, Init(pacer, options), steps);
    EveryWakeOnTime(pacer, options, steps);
    SteadyTimes(pacer, options, delayMs, final.wakes, |final.wakes|);
    assert final.wakes[..|final.wakes|] == final.wakes;
    if Done(pacer, options, final) {
      SteadyEnd(pacer, options, delayMs, final.wakes);
      SteadyBelow(options, delayMs, final.wakes, at);
    }
  }

  lemma SteadyEnd<S(!new)>(pacer: Pacer<S>, options: Options, delayMs: int, wakes: seq<Wake>)
    requires Steady(pacer, delayMs) && delayMs >= TICK_MS && Over(pacer, options, wakes)
    requires LastAt(wakes) == Multiple(|wakes|, delayMs)
    ensures Multiple(|wakes| + 1, delayMs) >= options.horizonMs
  {
    hide Steady, Armed, LastAt, Multiple;
    MultipleNext(|wakes|, delayMs);
    SteadyArmed(pacer, delayMs, wakes, LastAt(wakes) + delayMs);
  }

  lemma SteadyBelow(options: Options, delayMs: int, wakes: seq<Wake>, at: int)
    requires delayMs >= TICK_MS && Multiple(|wakes| + 1, delayMs) >= options.horizonMs
    requires forall i :: 0 <= i < |wakes| ==> wakes[i] == Wake(Multiple(i + 1, delayMs), false)
    requires forall wake :: wake in wakes ==> wake.at < options.horizonMs
    ensures Wake(at, false) in wakes
            <==> at < options.horizonMs && exists k: nat :: k >= 1 && at == Multiple(k, delayMs)
  {
    hide Multiple;
    if k: nat :| k >= 1 && at == Multiple(k, delayMs) {
      if at < options.horizonMs {
        MultipleOrder(k, |wakes| + 1, delayMs);
        assert wakes[k - 1] == Wake(at, false);
      }
    }
  }

  lemma MultipleOrder(j: nat, k: nat, delayMs: int)
    requires delayMs > 0
    ensures Multiple(j, delayMs) < Multiple(k, delayMs) <==> j < k
  {
    MultiplesOrder(j, k, delayMs);
  }
}
