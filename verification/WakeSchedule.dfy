/**
 * The event loop of scripts/mind-pacer-eval.ts over an arbitrary pacer, and the pacer the mind
 * ships (src/ax/mind/pacer.ts) as one instance of it.
 */
module WakeSchedule {
  import opened Optional
  import opened Sequences

  const HOUR_MS: int := 3_600_000
  const HORIZON_MS: int := 24 * HOUR_MS
  const TICK_MS: int := 1_000
  const MAX_STEPS: nat := 500_000

  datatype WakeClass = Bootstrap | Reactive | Spontaneous

  datatype Decision<+S> = Arm(state: S, delayMs: int) | Unchanged(state: S)

  datatype Pacer<!S> = Pacer(next: (S, WakeClass, int) -> Decision<S>, parked: S -> bool, initial: S)

  datatype Wake = Wake(at: int, reactive: bool)

  /** `None` stands for infinity in `nextReactiveAt` and for undefined in `wakeAt`. */
  datatype Sim<+S> = Sim(state: S, now: int, wakeAt: Option<int>, nextReactiveAt: Option<int>, wakes: seq<Wake>)

  datatype Options = Options(horizonMs: int, reactiveEveryMs: Option<int>) {
    /** A period of zero or less would fire at the same instant for ever. */
    predicate Valid() { reactiveEveryMs.Some? ==> reactiveEveryMs.value > 0 }
  }

  // ---------------------------------------------------------------- one step

  /** Consults the pacer and returns its new state with the absolute time it armed, if any. */
  function Apply<S>(pacer: Pacer<S>, state: S, wakeClass: WakeClass, at: int): (S, Option<int>) {
    match pacer.next(state, wakeClass, at)
    case Arm(next, delayMs) => (next, Some(at + delayMs))
    case Unchanged(next) => (next, None)
  }

  function SpontaneousAt<S>(pacer: Pacer<S>, sim: Sim<S>): Option<int> {
    if sim.wakeAt.None? || pacer.parked(sim.state) then None else Some(Max(sim.wakeAt.value, sim.now + TICK_MS))
  }

  function Earlier(a: Option<int>, b: Option<int>): Option<int> {
    if a.None? || (b.Some? && b.value <= a.value) then b else a
  }

  /** The next instant at which something happens. */
  function Due<S>(pacer: Pacer<S>, sim: Sim<S>): Option<int> {
    Earlier(SpontaneousAt(pacer, sim), sim.nextReactiveAt)
  }

  predicate Done<S>(pacer: Pacer<S>, options: Options, sim: Sim<S>) {
    Due(pacer, sim).None? || Due(pacer, sim).value >= options.horizonMs
  }

  function Advance<S>(pacer: Pacer<S>, options: Options, sim: Sim<S>): Sim<S>
    requires !Done(pacer, options, sim)
  {
    var at := Due(pacer, sim).value;
    if sim.nextReactiveAt == Some(at) then
      var (state, wakeAt) := Apply(pacer, sim.state, Reactive, at);
      var every := if options.reactiveEveryMs.Some? then options.reactiveEveryMs.value else HORIZON_MS;
      Sim(state, at, wakeAt, Some(at + every), sim.wakes + [Wake(at, true)])
    else
      var (state, wakeAt) := Apply(pacer, sim.state, Spontaneous, at);
      Sim(state, at, wakeAt, sim.nextReactiveAt, sim.wakes + [Wake(at, false)])
  }

  function Init<S>(pacer: Pacer<S>, options: Options): Sim<S> {
    var (state, wakeAt) := Apply(pacer, pacer.initial, Bootstrap, 0);
    Sim(state, 0, wakeAt, options.reactiveEveryMs, [])
  }

  /** At most `steps` further events. */
  function Run<S>(pacer: Pacer<S>, options: Options, sim: Sim<S>, steps: nat): Sim<S>
    decreases steps
  {
    if steps == 0 || Done(pacer, options, sim) then sim
    else Run(pacer, options, Advance(pacer, options, sim), steps - 1)
  }

  function Tally(wakes: seq<Wake>, pick: Wake -> bool): nat {
    if wakes == [] then 0
    else Tally(wakes[..|wakes| - 1], pick) + if pick(wakes[|wakes| - 1]) then 1 else 0
  }

  lemma TallySnoc(wakes: seq<Wake>, wake: Wake, pick: Wake -> bool)
    ensures Tally(wakes + [wake], pick) == Tally(wakes, pick) + if pick(wake) then 1 else 0
  {
    assert (wakes + [wake])[..|wakes|] == wakes;
  }

  predicate IsReactive(wake: Wake) { wake.reactive }

  predicate IsSpontaneous(wake: Wake) { !wake.reactive }

  function SpontaneousSince(from: int): Wake -> bool {
    (wake: Wake) => !wake.reactive && wake.at >= from
  }

  method Simulate<S>(pacer: Pacer<S>, options: Options)
    returns (spontaneous: nat, spontaneousInLastHour: nat, reactiveWakes: nat, parked: bool, state: S)
    ensures var final := Run(pacer, options, Init(pacer, options), 500_000);
            var n := |final.wakes|;
            && state == final.state && parked == pacer.parked(final.state)
            && spontaneous == |set i | 0 <= i < n && !final.wakes[i].reactive|
            && reactiveWakes == |set i | 0 <= i < n && final.wakes[i].reactive|
            && spontaneousInLastHour
               == |set i | 0 <= i < n && !final.wakes[i].reactive && final.wakes[i].at >= options.horizonMs - 3_600_000|
  {
    hide Tally, Max, Run, Apply, SpontaneousSince;
    var wakeAt: Option<int>;
    var now := 0;
    spontaneous, spontaneousInLastHour, reactiveWakes := 0, 0, 0;
    var nextReactiveAt := options.reactiveEveryMs;
    state := pacer.initial;
    state, wakeAt := ApplyTo(pacer, state, Bootstrap, now);
    ghost var wakes: seq<Wake> := [];
    NoWakes(SpontaneousSince(options.horizonMs - HOUR_MS));
    NoWakes(IsSpontaneous);
    NoWakes(IsReactive);
    ghost var goal := Run(pacer, options, Init(pacer, options), MAX_STEPS);
    var iteration := 0;
    while iteration < MAX_STEPS
      invariant 0 <= iteration <= MAX_STEPS
      invariant Run(pacer, options, Sim(state, now, wakeAt, nextReactiveAt, wakes), MAX_STEPS - iteration) == goal
      invariant spontaneous == Tally(wakes, IsSpontaneous) && reactiveWakes == Tally(wakes, IsReactive)
      invariant spontaneousInLastHour == Tally(wakes, SpontaneousSince(options.horizonMs - HOUR_MS))
    {
      ghost var sim := Sim(state, now, wakeAt, nextReactiveAt, wakes);
      RunStep(pacer, options, sim, MAX_STEPS - iteration);
      var spontaneousAt := if wakeAt.None? || pacer.parked(state) then None else Some(Max(wakeAt.value, now + TICK_MS));
      var at := Earlier(spontaneousAt, nextReactiveAt);
      if at.None? || at.value >= options.horizonMs {
        break;
      }
      now := at.value;
      iteration := iteration + 1;
      if at == nextReactiveAt {
        reactiveWakes := reactiveWakes + 1;
        state, wakeAt := ApplyTo(pacer, state, Reactive, now);
        nextReactiveAt := Some(now + options.reactiveEveryMs.GetOr(HORIZON_MS));
        wakes := wakes + [Wake(now, true)];
      } else {
        spontaneous := spontaneous + 1;
        if now >= options.horizonMs - HOUR_MS {
          spontaneousInLastHour := spontaneousInLastHour + 1;
        }
        state, wakeAt := ApplyTo(pacer, state, Spontaneous, now);
        wakes := wakes + [Wake(now, false)];
      }
      ghost var wake := wakes[|wakes| - 1];
      TallySnoc(sim.wakes, wake, IsSpontaneous);
      TallySnoc(sim.wakes, wake, IsReactive);
      TallySnoc(sim.wakes, wake, SpontaneousSince(options.horizonMs - HOUR_MS));
      SinceIs(options.horizonMs - HOUR_MS, wake);
      assert Sim(state, now, wakeAt, nextReactiveAt, wakes) == Advance(pacer, options, sim);
    }
    RunStep(pacer, options, Sim(state, now, wakeAt, nextReactiveAt, wakes), MAX_STEPS - iteration);
    TalliesAre(wakes, options.horizonMs);
    parked := pacer.parked(state);
  }

  lemma {:induction false} TallyIsSize(wakes: seq<Wake>, pick: Wake -> bool, picked: set<int>)
    requires forall i :: i in picked <==> 0 <= i < |wakes| && pick(wakes[i])
    ensures Tally(wakes, pick) == |picked|
  {
    if wakes == [] {
      assert forall i :: i !in picked;
      assert |picked| == 0;
    } else {
      var last := |wakes| - 1;
      TallyIsSize(wakes[..last], pick, picked - {last});
      if last in picked {
        assert |picked - {last}| == |picked| - 1;
      } else {
        assert picked - {last} == picked;
      }
    }
  }

  lemma TalliesAre(wakes: seq<Wake>, horizonMs: int)
    ensures Tally(wakes, IsSpontaneous) == |set i | 0 <= i < |wakes| && !wakes[i].reactive|
    ensures Tally(wakes, IsReactive) == |set i | 0 <= i < |wakes| && wakes[i].reactive|
    ensures Tally(wakes, SpontaneousSince(horizonMs - HOUR_MS))
            == |set i | 0 <= i < |wakes| && !wakes[i].reactive && wakes[i].at >= horizonMs - 3_600_000|
  {
    hide Tally;
    TallyIsSize(wakes, IsSpontaneous, set i | 0 <= i < |wakes| && !wakes[i].reactive);
    TallyIsSize(wakes, IsReactive, set i | 0 <= i < |wakes| && wakes[i].reactive);
    TallyIsSize(wakes, SpontaneousSince(horizonMs - HOUR_MS),
                set i | 0 <= i < |wakes| && !wakes[i].reactive && wakes[i].at >= horizonMs - 3_600_000);
  }

  lemma {:induction false} RunStep<S>(pacer: Pacer<S>, options: Options, sim: Sim<S>, steps: nat)
    ensures Run(pacer, options, sim, steps)
            == if steps == 0 || Done(pacer, options, sim) then sim
               else Run(pacer, options, Advance(pacer, options, sim), steps - 1)
  {
  }

  lemma SinceIs(from: int, wake: Wake)
    ensures SpontaneousSince(from)(wake) <==> !wake.reactive && wake.at >= from
  {
  }

  lemma NoWakes(pick: Wake -> bool)
    ensures Tally([], pick) == 0
  {
  }

  method ApplyTo<S>(pacer: Pacer<S>, state: S, wakeClass: WakeClass, at: int) returns (next: S, wakeAt: Option<int>)
    ensures (next, wakeAt) == Apply(pacer, state, wakeClass, at)
  {
    var decision := pacer.next(state, wakeClass, at);
    match decision {
      case Arm(armed, delayMs) =>
        next, wakeAt := armed, Some(at + delayMs);
      case Unchanged(held) =>
        next, wakeAt := held, None;
    }
  }

  // ----------------------------------------------------------- every schedule

  /** Times strictly increase inside the horizon, and a spontaneous wake keeps its distance. */
  ghost predicate Increasing(options: Options, wakes: seq<Wake>) {
    && (forall i :: 0 <= i < |wakes| ==> 0 < wakes[i].at < options.horizonMs)
    && forall i: nat :: i + 1 < |wakes| ==>
         wakes[i].at + (if wakes[i + 1].reactive then 1 else TICK_MS) <= wakes[i + 1].at
  }

  ghost function NextReactive(options: Options, reactive: nat): Option<int> {
    if options.reactiveEveryMs.None? then None else Some(Beat(options, reactive + 1))
  }

  /** What every reachable simulation state satisfies, whatever the pacer does. */
  ghost predicate Timeline(options: Options, now: int, nextReactiveAt: Option<int>, wakes: seq<Wake>) {
    var spontaneous, reactive := Tally(wakes, IsSpontaneous), Tally(wakes, IsReactive);
    var lastHour := Tally(wakes, SpontaneousSince(options.horizonMs - HOUR_MS));
    && Increasing(options, wakes)
    && now == (if wakes == [] then 0 else wakes[|wakes| - 1].at)
    && nextReactiveAt == NextReactive(options, reactive)
    && (nextReactiveAt.Some? ==> nextReactiveAt.value > now)
    && TICK_MS * spontaneous <= now
    && (lastHour > 0 ==> options.horizonMs - HOUR_MS + TICK_MS * (lastHour - 1) <= now)
    && lastHour <= HOUR_MS / TICK_MS
    && |wakes| == spontaneous + reactive
    && (options.reactiveEveryMs.None? ==> reactive == 0)
    && Beats(options, wakes, reactive)
  }

  /** The reactive wakes are exactly the first `reactive` multiples of the period. */
  ghost predicate Beats(options: Options, wakes: seq<Wake>, reactive: nat) {
    forall at: int :: Wake(at, true) in wakes <==> options.reactiveEveryMs.Some? && IsBeat(options, at, reactive)
  }

  ghost predicate IsBeat(options: Options, at: int, reactive: nat)
    requires options.reactiveEveryMs.Some?
  {
    exists k: nat :: 1 <= k <= reactive && Beat(options, k) == at
  }

  function Beat(options: Options, k: nat): int
    requires options.reactiveEveryMs.Some?
  {
    k * options.reactiveEveryMs.value
  }

  ghost predicate Scheduled<S>(options: Options, sim: Sim<S>) {
    Timeline(options, sim.now, sim.nextReactiveAt, sim.wakes)
  }

  lemma {:induction false} TimelineReactive(options: Options, now: int, next: int, wakes: seq<Wake>)
    requires options.Valid() && Timeline(options, now, Some(next), wakes) && next < options.horizonMs
    ensures Timeline(options, next, Some(next + options.reactiveEveryMs.value), wakes + [Wake(next, true)])
  {
    TallySnoc(wakes, Wake(next, true), IsSpontaneous);
    TallySnoc(wakes, Wake(next, true), IsReactive);
    TallySnoc(wakes, Wake(next, true), SpontaneousSince(options.horizonMs - HOUR_MS));
    var reactive := Tally(wakes, IsReactive);
    hide Tally;
    assert Beat(options, reactive + 2) == Beat(options, reactive + 1) + options.reactiveEveryMs.value;
    hide Beat;
    forall at: int
      ensures IsBeat(options, at, reactive + 1) <==> IsBeat(options, at, reactive) || at == next
    {
      if at == next {
        assert Beat(options, reactive + 1) == at;
      }
    }
  }

  lemma {:induction false} TimelineSpontaneous(options: Options, now: int, next: Option<int>, wakes: seq<Wake>, at: int)
    requires Timeline(options, now, next, wakes) && now + TICK_MS <= at < options.horizonMs
    requires next.Some? ==> at < next.value
    ensures Timeline(options, at, next, wakes + [Wake(at, false)])
  {
    TallySnoc(wakes, Wake(at, false), IsSpontaneous);
    TallySnoc(wakes, Wake(at, false), IsReactive);
    TallySnoc(wakes, Wake(at, false), SpontaneousSince(options.horizonMs - HOUR_MS));
    hide Tally, NextReactive;
  }

  lemma {:induction false} AdvanceScheduled<S>(pacer: Pacer<S>, options: Options, sim: Sim<S>)
    requires options.Valid() && Scheduled(options, sim) && !Done(pacer, options, sim)
    ensures Scheduled(options, Advance(pacer, options, sim))
  {
    hide Tally;
    var at := Due(pacer, sim).value;
    if sim.nextReactiveAt == Some(at) {
      TimelineReactive(options, sim.now, at, sim.wakes);
    } else {
      TimelineSpontaneous(options, sim.now, sim.nextReactiveAt, sim.wakes, at);
    }
  }

  lemma {:induction false} RunScheduled<S>(pacer: Pacer<S>, options: Options, sim: Sim<S>, steps: nat)
    requires options.Valid() && Scheduled(options, sim)
    ensures Scheduled(options, Run(pacer, options, sim, steps))
    decreases steps
  {
    hide Scheduled, Advance, Due, Done;
    if steps != 0 && !Done(pacer, options, sim) {
      AdvanceScheduled(pacer, options, sim);
      RunScheduled(pacer, options, Advance(pacer, options, sim), steps - 1);
    }
  }

  lemma InitScheduled<S>(pacer: Pacer<S>, options: Options)
    requires options.Valid()
    ensures Scheduled(options, Init(pacer, options))
  {
  }

  /**
   * For every pacer and positive reactive period: wake times strictly increase, spontaneous wakes
   * keep at least a tick of distance, and at most HOUR_MS / TICK_MS of them fall in the last hour.
   */
  lemma WakeTimes<S>(pacer: Pacer<S>, options: Options, steps: nat)
    requires options.Valid()
    ensures var final := Run(pacer, options, Init(pacer, options), steps);
            && Increasing(options, final.wakes)
            && Tally(final.wakes, SpontaneousSince(options.horizonMs - HOUR_MS)) <= HOUR_MS / TICK_MS
  {
    InitScheduled(pacer, options);
    RunScheduled(pacer, options, Init(pacer, options), steps);
  }

  lemma {:induction false} RunExtends<S>(pacer: Pacer<S>, options: Options, sim: Sim<S>, steps: nat)
    ensures sim.wakes <= Run(pacer, options, sim, steps).wakes
    decreases steps
  {
    if steps != 0 && !Done(pacer, options, sim) {
      RunExtends(pacer, options, Advance(pacer, options, sim), steps - 1);
    }
  }

  /** The times increase in every run exactly when the period is positive or lies beyond the horizon. */
  lemma TimesIncreaseIff<S>(pacer: Pacer<S>, options: Options)
    ensures (forall steps: nat :: Increasing(options, Run(pacer, options, Init(pacer, options), steps).wakes))
            <==> options.Valid() || options.horizonMs <= options.reactiveEveryMs.value
  {
    var start := Init(pacer, options);
    if options.Valid() {
      forall steps: nat
        ensures Increasing(options, Run(pacer, options, start, steps).wakes)
      {
        WakeTimes(pacer, options, steps);
      }
    } else if options.horizonMs > options.reactiveEveryMs.value {
      var first := Advance(pacer, options, start);
      assert first.wakes == [Wake(options.reactiveEveryMs.value, true)];
      RunStep(pacer, options, start, 1);
      RunExtends(pacer, options, first, 0);
      var wakes := Run(pacer, options, start, 1).wakes;
      assert wakes[0].at <= 0;
    } else {
      forall steps: nat
        ensures Increasing(options, Run(pacer, options, start, steps).wakes)
      {
        RunStep(pacer, options, start, steps);
      }
    }
  }

  /** A period of 0 wakes at instant 0, before the clock has moved. */
  lemma ZeroPeriodStandsStill<S>(pacer: Pacer<S>)
    ensures var options := Options(HORIZON_MS, Some(0));
            && Run(pacer, options, Init(pacer, options), 1).wakes == [Wake(0, true)]
            && !Increasing(options, [Wake(0, true)])
  {
    var options := Options(HORIZON_MS, Some(0));
    RunStep(pacer, options, Init(pacer, options), 1);
    assert [Wake(0, true)][0].at == 0;
  }

  /** What is due next is never later than the next beat. */
  lemma DueByBeat<S>(pacer: Pacer<S>, options: Options, sim: Sim<S>)
    requires Done(pacer, options, sim) && sim.nextReactiveAt.Some?
    ensures sim.nextReactiveAt.value >= options.horizonMs
  {
  }

  lemma BeatsOf(options: Options, now: int, next: Option<int>, wakes: seq<Wake>)
    requires Timeline(options, now, next, wakes) && options.reactiveEveryMs.Some?
    ensures next == Some(Beat(options, Tally(wakes, IsReactive) + 1))
    ensures Beats(options, wakes, Tally(wakes, IsReactive))
    ensures forall wake :: wake in wakes ==> wake.at < options.horizonMs
  {
    hide Tally, Beat, Beats;
  }

  /** A beat below the horizon has been counted once the next one lies beyond it. */
  lemma CountedBeat(options: Options, reactive: nat, at: int)
    requires options.Valid() && options.reactiveEveryMs.Some?
    requires Beat(options, reactive + 1) >= options.horizonMs > at
    ensures IsBeat(options, at, reactive) <==> exists k: nat :: k >= 1 && Beat(options, k) == at
  {
    hide Beat;
    if k: nat :| k >= 1 && Beat(options, k) == at {
      BeatOrder(options, k, reactive + 1);
    }
  }

  /** A run that the step guard did not cut short wakes reactively at exactly the multiples of the period. */
  lemma ReactiveBeats<S>(pacer: Pacer<S>, options: Options, steps: nat, at: int)
    requires options.Valid() && options.reactiveEveryMs.Some?
    ensures var final := Run(pacer, options, Init(pacer, options), steps);
            Done(pacer, options, final) ==>
              (Wake(at, true) in final.wakes
               <==> at < options.horizonMs && exists k: nat :: k >= 1 && Beat(options, k) == at)
  {
    hide Run, Init, Done, Timeline, Beat, IsBeat, Tally;
    var final := Run(pacer, options, Init(pacer, options), steps);
    InitScheduled(pacer, options);
    RunScheduled(pacer, options, Init(pacer, options), steps);
    if Done(pacer, options, final) {
      BeatsOf(options, final.now, final.nextReactiveAt, final.wakes);
      DueByBeat(pacer, options, final);
      if at < options.horizonMs {
        CountedBeat(options, Tally(final.wakes, IsReactive), at);
      }
    }
  }

  lemma BeatOrder(options: Options, j: nat, k: nat)
    requires options.Valid() && options.reactiveEveryMs.Some?
    ensures Beat(options, j) < Beat(options, k) <==> j < k
  {
    MultiplesOrder(j, k, options.reactiveEveryMs.value);
  }

  lemma MultiplesOrder(j: nat, k: nat, d: nat)
    requires d > 0
    ensures j * d < k * d <==> j < k
  {
    if j < k {
      assert k * d == j * d + (k - j) * d;
      assert (k - j) * d > 0;
    } else {
      assert j * d == k * d + (j - k) * d;
    }
  }

  lemma {:induction false} RunLength<S>(pacer: Pacer<S>, options: Options, sim: Sim<S>, steps: nat)
    ensures var final := Run(pacer, options, sim, steps);
            !Done(pacer, options, final) ==> |final.wakes| == |sim.wakes| + steps
    decreases steps
  {
    if steps != 0 && !Done(pacer, options, sim) {
      RunLength(pacer, options, Advance(pacer, options, sim), steps - 1);
    }
  }

  /** No more wakes fit below the horizon than one per tick and one per reactive period. */
  lemma WakeBound(options: Options, now: int, next: Option<int>, wakes: seq<Wake>)
    requires options.Valid() && Timeline(options, now, next, wakes) && options.horizonMs > 0
    ensures |wakes| <= (options.horizonMs - 1) / TICK_MS
                       + if options.reactiveEveryMs.None? then 0
                         else (options.horizonMs - 1) / options.reactiveEveryMs.value
  {
    hide Tally;
    var reactive := Tally(wakes, IsReactive);
    if options.reactiveEveryMs.Some? && reactive > 0 {
      LastBeat(options, wakes, reactive);
      Quotient(reactive, options.reactiveEveryMs.value, options.horizonMs - 1);
    }
  }

  lemma LastBeat(options: Options, wakes: seq<Wake>, reactive: nat)
    requires options.Valid() && options.reactiveEveryMs.Some? && reactive > 0
    requires Increasing(options, wakes) && Beats(options, wakes, reactive)
    ensures 0 < reactive * options.reactiveEveryMs.value < options.horizonMs
  {
    var at := Beat(options, reactive);
    assert IsBeat(options, at, reactive);
    assert Wake(at, true) in wakes;
  }

  lemma Quotient(k: nat, d: int, n: int)
    requires d > 0 && 0 <= k * d <= n
    ensures k <= n / d
  {
    MultiplesOrder(k, n / d + 1, d);
    assert n < (n / d + 1) * d;
  }

  /** If fewer events fit below the horizon than the guard allows, the guard never ends a run. */
  lemma GuardNeverEnds<S>(pacer: Pacer<S>, options: Options)
    requires options.Valid()
    requires options.horizonMs > 0 ==>
               (options.horizonMs - 1) / TICK_MS
               + (if options.reactiveEveryMs.None? then 0 else (options.horizonMs - 1) / options.reactiveEveryMs.value)
               < MAX_STEPS
    ensures Done(pacer, options, Run(pacer, options, Init(pacer, options), MAX_STEPS))
  {
    var final := Run(pacer, options, Init(pacer, options), MAX_STEPS);
    InitScheduled(pacer, options);
    RunScheduled(pacer, options, Init(pacer, options), MAX_STEPS);
    RunLength(pacer, options, Init(pacer, options), MAX_STEPS);
    if options.horizonMs > 0 {
      WakeBound(options, final.now, final.nextReactiveAt, final.wakes);
    }
  }

  /** The evaluation's own horizon and both of its reactive settings stay clear of the guard. */
  lemma DayIsLongEnough<S>(pacer: Pacer<S>, engaged: bool)
    ensures var options := Options(86_400_000, if engaged then Some(300_000) else None);
            Done(pacer, options, Run(pacer, options, Init(pacer, options), MAX_STEPS))
  {
    GuardNeverEnds(pacer, Options(HORIZON_MS, if engaged then Some(5 * 60_000) else None));
  }
}
