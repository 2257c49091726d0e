/** The wake ladder of src/ax/mind/pacer.ts and the spending fuse it keeps over a whole simulated run. */
module MindPacer {
  import opened Optional
  import opened Sequences
  import opened WakeSchedule

  datatype Outcome = Visible | Thought | Error | Empty | Noop

  /** `fuse` is `axMindPacerFuse(config)`: an absolute number of spontaneous wakes per hour. */
  datatype Config = Config(baseMs: int, factor: nat, capMs: int, thoughtCapMs: int, hold: int, fuse: int)

  datatype State = State(level: int, ticks: int, wakeAt: Option<int>, spontaneousWakes: seq<int>,
                         parkedUntil: Option<int>)

  function Power(base: nat, exponent: nat): nat {
    if exponent == 0 then 1 else base * Power(base, exponent - 1)
  }

  /** The delay of a ladder level. */
  function PaceDelay(config: Config, level: int): int {
    if level <= 0 then 0 else Min(config.baseMs * Power(config.factor, level - 1), config.capMs)
  }

  /** The times after the cutoff. */
  function Kept(times: seq<int>, cutoff: int): seq<int> {
    if times == [] then []
    else Kept(times[..|times| - 1], cutoff) + if times[|times| - 1] > cutoff then [times[|times| - 1]] else []
  }

  predicate Engaged(wakeClass: WakeClass, outcome: Outcome) {
    wakeClass != Spontaneous || outcome == Visible
  }

  function NextPace(config: Config, state: State, wakeClass: WakeClass, outcome: Outcome, now: int): Decision<State> {
    var kept := Kept(state.spontaneousWakes, now - HOUR_MS);
    var wakes := if wakeClass == Spontaneous then kept + [now] else kept;
    if |wakes| >= config.fuse then
      var oldest := if wakes == [] then now else wakes[0];
      Unchanged(state.(spontaneousWakes := wakes, parkedUntil := Some(oldest + HOUR_MS)))
    else if outcome == Noop then
      Unchanged(state.(spontaneousWakes := wakes, parkedUntil := None))
    else if Engaged(wakeClass, outcome) then
      Arm(State(0, 0, Some(now), wakes, None), 0)
    else
      var climbs := outcome == Error || state.ticks + 1 >= config.hold;
      var level := if climbs then state.level + 1 else state.level;
      var ladder := PaceDelay(config, level);
      var delayMs := if outcome == Thought then Min(ladder, config.thoughtCapMs) else ladder;
      Arm(State(level, if climbs then 0 else state.ticks + 1, Some(now + delayMs), wakes, None), delayMs)
  }

  /** The pacer as the simulation drives it: a reactive wake is visible, every other has the scenario's outcome. */
  function MindPacer(config: Config, outcome: Outcome): Pacer<State> {
    Pacer((state: State, wakeClass: WakeClass, now: int) =>
            NextPace(config, state, wakeClass, if wakeClass == Reactive then Visible else outcome, now),
          (state: State) => state.parkedUntil.Some?,
          State(0, 0, None, [], None))
  }

  // ----------------------------------------------------- the ladder against itself

  /** What the evaluation expects of an armed delay, from the level the ladder reports. */
  function Expected(config: Config, outcome: Outcome, level: int): int {
    if outcome == Thought then Min(PaceDelay(config, level), config.thoughtCapMs) else PaceDelay(config, level)
  }

  /** An armed delay is the ladder's own function of the level reported with it. */
  predicate Agrees(config: Config, outcome: Outcome, state: State, wakeClass: WakeClass, now: int) {
    match NextPace(config, state, wakeClass, outcome, now)
    case Arm(next, delayMs) => delayMs == Expected(config, outcome, next.level)
    case Unchanged(_) => true
  }

  /**
   * No spontaneous or bootstrap wake ever disagrees with the ladder, exactly unless thoughts have a negative cap and
   * the fuse lets a wake through; and no armed delay exceeds the cap.
   */
  lemma LadderAgrees(config: Config, outcome: Outcome)
    ensures (forall state, wakeClass, now :: wakeClass != Reactive ==> Agrees(config, outcome, state, wakeClass, now))
            <==> outcome != Thought || config.thoughtCapMs >= 0 || config.fuse <= 0
    ensures forall state, wakeClass, now :: var decision := NextPace(config, state, wakeClass, outcome, now);
              decision.Arm? ==> decision.delayMs <= Max(config.capMs, 0)
  {
    if outcome == Thought && config.thoughtCapMs < 0 && config.fuse > 0 {
      assert !Agrees(config, outcome, State(0, 0, None, [], None), Bootstrap, 0);
    }
  }

  // ------------------------------------------------- the fuse, over every run

  /** Spontaneous wakes in the hour that ends at `end`. */
  function InHourTo(end: int): Wake -> bool {
    (wake: Wake) => !wake.reactive && end - 3_600_000 < wake.at <= end
  }

  /** Times of the spontaneous wakes after the cutoff. */
  function Recent(wakes: seq<Wake>, cutoff: int): seq<int> {
    if wakes == [] then []
    else
      var last := wakes[|wakes| - 1];
      Recent(wakes[..|wakes| - 1], cutoff) + if !last.reactive && last.at > cutoff then [last.at] else []
  }

  lemma {:induction false} KeptRecent(wakes: seq<Wake>, before: int, cutoff: int)
    requires before <= cutoff
    ensures Kept(Recent(wakes, before), cutoff) == Recent(wakes, cutoff)
  {
    if wakes != [] {
      var front := wakes[..|wakes| - 1];
      KeptRecent(front, before, cutoff);
      var shorter, longer := Recent(front, before), Recent(wakes, before);
      if longer != shorter {
        assert longer[..|longer| - 1] == shorter;
      }
    }
  }

  lemma {:induction false} HourIsRecent(wakes: seq<Wake>, now: int, end: int)
    requires now <= end
    ensures Tally(wakes, InHourTo(end)) <= |Recent(wakes, now - HOUR_MS)|
  {
    if wakes != [] {
      HourIsRecent(wakes[..|wakes| - 1], now, end);
    }
  }

  /**
   * The pacer's own list holds exactly the spontaneous wakes of the last hour, it is below the fuse
   * unless the pacer is parked, and no hour so far has held more of them than the fuse allows.
   */
  ghost predicate Fused(config: Config, sim: Sim<State>) {
    && sim.state.spontaneousWakes == Recent(sim.wakes, sim.now - HOUR_MS)
    && (sim.state.parkedUntil.None? ==> |sim.state.spontaneousWakes| < config.fuse)
    && forall end :: Tally(sim.wakes, InHourTo(end)) <= Max(config.fuse, 0)
  }

  lemma NextPaceFused(config: Config, state: State, wakeClass: WakeClass, outcome: Outcome, now: int)
    ensures var next := NextPace(config, state, wakeClass, outcome, now).state;
            && next.spontaneousWakes == Kept(state.spontaneousWakes, now - HOUR_MS)
                                        + (if wakeClass == Spontaneous then [now] else [])
            && (next.parkedUntil.None? <==> |next.spontaneousWakes| < config.fuse)
  {
  }

  lemma {:induction false} RecentSnoc(wakes: seq<Wake>, wake: Wake, before: int)
    requires before <= wake.at
    ensures Recent(wakes + [wake], wake.at - HOUR_MS)
            == Kept(Recent(wakes, before - HOUR_MS), wake.at - HOUR_MS) + if wake.reactive then [] else [wake.at]
  {
    assert (wakes + [wake])[..|wakes|] == wakes;
    KeptRecent(wakes, before - HOUR_MS, wake.at - HOUR_MS);
  }

  lemma {:induction false} HourSnoc(config: Config, sim: Sim<State>, wake: Wake, end: int)
    requires Fused(config, sim) && sim.now <= wake.at
    requires !wake.reactive ==> sim.state.parkedUntil.None?
    ensures Tally(sim.wakes + [wake], InHourTo(end)) <= Max(config.fuse, 0)
  {
    TallySnoc(sim.wakes, wake, InHourTo(end));
    if InHourTo(end)(wake) {
      HourIsRecent(sim.wakes, sim.now, end);
    }
    assert Tally(sim.wakes, InHourTo(end)) <= Max(config.fuse, 0);
  }

  lemma {:induction false} AdvanceFused(config: Config, outcome: Outcome, options: Options, sim: Sim<State>)
    requires options.Valid() && Scheduled(options, sim) && Fused(config, sim)
    requires !Done(MindPacer(config, outcome), options, sim)
    ensures Fused(config, Advance(MindPacer(config, outcome), options, sim))
  {
    hide Tally, Recent, Kept, NextPace;
    var pacer := MindPacer(config, outcome);
    var next := Advance(pacer, options, sim);
    var wake := next.wakes[|next.wakes| - 1];
    assert next.wakes == sim.wakes + [wake] && sim.now < wake.at == next.now;
    var wakeClass := if wake.reactive then Reactive else Spontaneous;
    NextPaceFused(config, sim.state, wakeClass, if wake.reactive then Visible else outcome, wake.at);
    RecentSnoc(sim.wakes, wake, sim.now);
    forall end
      ensures Tally(next.wakes, InHourTo(end)) <= Max(config.fuse, 0)
    {
      HourSnoc(config, sim, wake, end);
    }
  }

  lemma {:induction false} RunFused(config: Config, outcome: Outcome, options: Options, sim: Sim<State>, steps: nat)
    requires options.Valid() && Scheduled(options, sim) && Fused(config, sim)
    ensures Fused(config, Run(MindPacer(config, outcome), options, sim, steps))
    decreases steps
  {
    hide Scheduled, Fused, Advance, Done, NextPace;
    var pacer := MindPacer(config, outcome);
    if steps != 0 && !Done(pacer, options, sim) {
      AdvanceFused(config, outcome, options, sim);
      AdvanceScheduled(pacer, options, sim);
      RunFused(config, outcome, options, Advance(pacer, options, sim), steps - 1);
    }
  }

  lemma InitFused(config: Config, outcome: Outcome, options: Options)
    requires options.Valid()
    ensures Fused(config, Init(MindPacer(config, outcome), options))
  {
    NextPaceFused(config, MindPacer(config, outcome).initial, Bootstrap, outcome, 0);
    forall end
      ensures Tally([], InHourTo(end)) == 0
    {
      NoWakes(InHourTo(end));
    }
  }

  /** No hour of any run ever holds more spontaneous wakes than the fuse allows, whatever the scenario. */
  lemma FuseHolds(config: Config, outcome: Outcome, options: Options, steps: nat, end: int)
    requires options.Valid()
    ensures var final := Run(MindPacer(config, outcome), options, Init(MindPacer(config, outcome), options), steps);
            Tally(final.wakes, InHourTo(end)) <= Max(config.fuse, 0)
  {
    var pacer := MindPacer(config, outcome);
    InitFused(config, outcome, options);
    InitScheduled(pacer, options);
    RunFused(config, outcome, options, Init(pacer, options), steps);
    hide Tally, Run, Init, MindPacer;
    assert Fused(config, Run(pacer, options, Init(pacer, options), steps));
  }

  // ----------------------------------------------- where the ladder stands, over every run

  /** What a decision leaves behind: a fused or a `noop` wake keeps the level and arms nothing. */
  lemma DecisionTable(config: Config, state: State, wakeClass: WakeClass, outcome: Outcome, now: int)
    ensures var decision := NextPace(config, state, wakeClass, outcome, now);
            var next := decision.state;
            && (next.parkedUntil.Some? ==>
                  && decision.Unchanged?
                  && next.parkedUntil.value == HOUR_MS + (if next.spontaneousWakes == [] then now
                                                          else next.spontaneousWakes[0]))
            && (decision.Arm? <==> next.parkedUntil.None? && outcome != Noop)
            && (decision.Arm? ==> next.wakeAt == Some(now + decision.delayMs))
            && (decision.Unchanged? ==> next.level == state.level && next.ticks == state.ticks
                                        && next.wakeAt == state.wakeAt)
            && (decision.Arm? && (wakeClass != Spontaneous || outcome == Visible) ==>
                  next.level == 0 && next.ticks == 0 && decision.delayMs == 0)
  {
    hide Kept, PaceDelay;
  }

  /** The level rises by one at every error, and otherwise at every `hold`-th wake without engagement. */
  predicate OnLadder(config: Config, outcome: Outcome, state: State, idle: nat) {
    match outcome
    case Visible => state.level == 0 && state.ticks == 0
    case Noop => state.level == 0 && state.ticks == 0
    case Error => state.level == idle && state.ticks == 0
    case _ => state.level == idle / Max(config.hold, 1) && state.ticks == idle % Max(config.hold, 1)
  }

  lemma ClimbOnce(config: Config, outcome: Outcome, state: State, now: int, idle: nat)
    requires OnLadder(config, outcome, state, idle)
    ensures var next := NextPace(config, state, Spontaneous, outcome, now).state;
            next.parkedUntil.None? ==> OnLadder(config, outcome, next, idle + 1)
  {
    hide Kept, PaceDelay;
    var hold := Max(config.hold, 1);
    if outcome == Empty || outcome == Thought {
      OneMoreTick(idle, hold);
    }
  }

  lemma OneMoreTick(idle: nat, hold: int)
    requires hold >= 1
    ensures if idle % hold + 1 >= hold then (idle + 1) / hold == idle / hold + 1 && (idle + 1) % hold == 0
            else (idle + 1) / hold == idle / hold && (idle + 1) % hold == idle % hold + 1
  {
    var q, r := idle / hold, idle % hold;
    if r + 1 >= hold {
      assert idle + 1 == (q + 1) * hold + 0;
      Divided(idle + 1, q + 1, 0, hold);
    } else {
      assert idle + 1 == q * hold + (r + 1);
      Divided(idle + 1, q, r + 1, hold);
    }
  }

  lemma Divided(n: nat, q: int, r: int, hold: int)
    requires hold >= 1 && n == q * hold + r && 0 <= r < hold
    ensures n / hold == q && n % hold == r
  {
    var d := n / hold - q;
    assert d * hold == r - n % hold;
    assert -hold < d * hold < hold;
  }

  /** The spontaneous wakes since the last reactive one, or since the start. */
  function Idle(wakes: seq<Wake>): nat {
    if wakes == [] || wakes[|wakes| - 1].reactive then 0 else Idle(wakes[..|wakes| - 1]) + 1
  }

  lemma IdleSnoc(wakes: seq<Wake>, wake: Wake)
    ensures Idle(wakes + [wake]) == if wake.reactive then 0 else Idle(wakes) + 1
  {
    assert (wakes + [wake])[..|wakes|] == wakes;
  }

  ghost predicate Climbed(config: Config, outcome: Outcome, sim: Sim<State>) {
    sim.state.parkedUntil.None? ==> OnLadder(config, outcome, sim.state, Idle(sim.wakes))
  }

  lemma AdvanceClimbed(config: Config, outcome: Outcome, options: Options, sim: Sim<State>)
    requires Climbed(config, outcome, sim) && !Done(MindPacer(config, outcome), options, sim)
    ensures Climbed(config, outcome, Advance(MindPacer(config, outcome), options, sim))
  {
    hide NextPace, Idle, OnLadder;
    var next := Advance(MindPacer(config, outcome), options, sim);
    var wake := next.wakes[|next.wakes| - 1];
    assert next.wakes == sim.wakes + [wake];
    IdleSnoc(sim.wakes, wake);
    if wake.reactive {
      DecisionTable(config, sim.state, Reactive, Visible, wake.at);
      if next.state.parkedUntil.None? {
        Bottom(config, outcome, next.state);
      }
    } else {
      ClimbOnce(config, outcome, sim.state, wake.at, Idle(sim.wakes));
    }
  }

  lemma Bottom(config: Config, outcome: Outcome, state: State)
    requires state.level == 0 && state.ticks == 0
    ensures OnLadder(config, outcome, state, 0)
  {
    Divided(0, 0, 0, Max(config.hold, 1));
  }

  lemma {:induction false} RunClimbed(config: Config, outcome: Outcome, options: Options, sim: Sim<State>, steps: nat)
    requires Climbed(config, outcome, sim)
    ensures Climbed(config, outcome, Run(MindPacer(config, outcome), options, sim, steps))
    decreases steps
  {
    hide Climbed, Advance, Done, NextPace;
    var pacer := MindPacer(config, outcome);
    RunStep(pacer, options, sim, steps);
    if steps != 0 && !Done(pacer, options, sim) {
      AdvanceClimbed(config, outcome, options, sim);
      RunClimbed(config, outcome, options, Advance(pacer, options, sim), steps - 1);
    }
  }

  /**
   * Whenever a run of the shipped pacer is not parked, its level is the number of spontaneous wakes since the last
   * reactive one, divided by `hold` if they stayed idle and undivided if they failed; engagement keeps it at 0.
   */
  lemma LadderClimbs(config: Config, outcome: Outcome, options: Options, steps: nat)
    ensures var final := Run(MindPacer(config, outcome), options, Init(MindPacer(config, outcome), options), steps);
            var idle := Idle(final.wakes);
            final.state.parkedUntil.None? ==>
              match outcome
              case Visible => final.state.level == 0
              case Noop => final.state.level == 0
              case Error => final.state.level == idle
              case _ => final.state.level == idle / Max(config.hold, 1)
  {
    hide Run, NextPace, Idle;
    var pacer := MindPacer(config, outcome);
    DecisionTable(config, pacer.initial, Bootstrap, outcome, 0);
    if Init(pacer, options).state.parkedUntil.None? {
      Bottom(config, outcome, Init(pacer, options).state);
    }
    NothingIdle();
    RunClimbed(config, outcome, options, Init(pacer, options), steps);
  }

  lemma NothingIdle()
    ensures Idle([]) == 0
  {
  }

  /** The delay is nothing at the bottom, the base one level up, and from there grows by the factor up to the cap. */
  lemma DelayGrows(config: Config, level: int)
    requires config.baseMs >= 0 && config.capMs >= 0 && config.factor >= 1
    ensures level <= 0 ==> PaceDelay(config, level) == 0
    ensures PaceDelay(config, 1) == Min(config.baseMs, config.capMs)
    ensures level >= 1 ==> PaceDelay(config, level + 1) == Min(config.factor * PaceDelay(config, level), config.capMs)
  {
    if level >= 1 {
      var before := config.baseMs * Power(config.factor, level - 1);
      Regroup(config.baseMs, config.factor, Power(config.factor, level - 1));
      Scale(config.factor, before);
      Scale(config.factor, config.capMs);
    }
  }

  lemma Regroup(base: int, factor: int, power: int)
    ensures base * (factor * power) == factor * (base * power)
  {
  }

  lemma Scale(factor: int, n: int)
    requires factor >= 1 && n >= 0
    ensures factor * n >= n
  {
  }
}
