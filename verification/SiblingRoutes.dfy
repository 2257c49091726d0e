/**
 * The sibling ping-pong replay of scripts/mind-durability-eval.ts, over an arbitrary route table,
 * and the routes the mind really builds (src/ax/mind/routes.ts) as one instance of it.
 */
module SiblingRoutes {
  import opened Optional

  type Writer = string

  /** A route's predicate and instance key see an ingress only through the step's writer. */
  datatype Route = Route(authorize: Option<Writer -> bool>, instanceKey: Option<Writer -> Writer>) {
    predicate Admits(writer: Writer) {
      authorize.Some? && authorize.value(writer)
    }

    /** Who writes the `idle` step that an admitted wake settles with. */
    function Answer(writer: Writer): Writer {
      if instanceKey.Some? then instanceKey.value(writer) else "undefined"
    }
  }

  datatype Ingress = Ingress(writer: Writer, seqNo: nat)

  const SIBLING_ROUTE_CEILING: nat := 2000

  // ------------------------------------------------------------------- walks

  type Walk = seq<nat>

  /** The writer reached by following the routes of `walk` from `seed`. */
  ghost function End(table: seq<Route>, seed: Writer, walk: Walk): Writer {
    if walk == [] || walk[|walk| - 1] >= |table| then seed
    else table[walk[|walk| - 1]].Answer(End(table, seed, walk[..|walk| - 1]))
  }

  /** Every route of the walk admits the step its predecessor wrote. */
  ghost predicate IsWalk(table: seq<Route>, seed: Writer, walk: Walk) {
    walk != [] ==>
      && IsWalk(table, seed, walk[..|walk| - 1])
      && walk[|walk| - 1] < |table|
      && table[walk[|walk| - 1]].Admits(End(table, seed, walk[..|walk| - 1]))
  }

  /** `walk` continued by route `r`. */
  ghost function Then(walk: Walk, r: nat): (longer: Walk)
    ensures longer != [] && longer[..|longer| - 1] == walk && longer[|longer| - 1] == r
  {
    walk + [r]
  }

  lemma WalkThen(table: seq<Route>, seed: Writer, walk: Walk, r: nat)
    requires r < |table|
    ensures IsWalk(table, seed, Then(walk, r)) <==>
            IsWalk(table, seed, walk) && table[r].Admits(End(table, seed, walk))
    ensures End(table, seed, Then(walk, r)) == table[r].Answer(End(table, seed, walk))
  {
  }

  /** `all` is the set of non-empty walks from the seed; it exists only when there are finitely many. */
  ghost predicate AllWalks(table: seq<Route>, seed: Writer, all: set<Walk>) {
    forall walk :: walk in all <==> walk != [] && IsWalk(table, seed, walk)
  }

  /** The seed has finitely many non-empty walks, and fewer than the ceiling. */
  ghost predicate Quiesces(table: seq<Route>, seed: Writer) {
    exists all :: AllWalks(table, seed, all) && |all| < SIBLING_ROUTE_CEILING
  }

  // ----------------------------------------------------------- the worklist

  /** Every queued step stands for one walk, and the admitted walks extend each other without a gap. */
  ghost predicate Queued(table: seq<Route>, seed: Writer, work: seq<Ingress>, walks: seq<Walk>, seen: set<Walk>) {
    && |walks| == |work|
    && (forall i :: 0 <= i < |walks| ==>
          && work[i].writer == End(table, seed, walks[i])
          && (walks[i] == [] || walks[i] in seen))
    && (forall i, j :: 0 <= i < j < |walks| ==> walks[i] != walks[j])
    && (forall p :: p in seen ==> p != [] && IsWalk(table, seed, p))
    && (forall p: Walk, r: nat :: Then(p, r) in seen ==> (p == [] || p in seen) && p !in walks)
  }

  /** All extensions of a finished walk have been admitted. */
  ghost predicate Finished(table: seq<Route>, seed: Writer, walks: seq<Walk>, seen: set<Walk>) {
    forall p: Walk, r: nat ::
      r < |table| && p !in walks && (p == [] || p in seen) && table[r].Admits(End(table, seed, p))
      ==> Then(p, r) in seen
  }

  /** The extensions of `walk` by its first `next` routes are exactly the admitted ones. */
  ghost predicate Extending(table: seq<Route>, seed: Writer, walk: Walk, next: nat, seen: set<Walk>) {
    forall r: nat :: r < |table| ==>
      (Then(walk, r) in seen <==> r < next && table[r].Admits(End(table, seed, walk)))
  }

  method SiblingRouteFixedPoint(table: seq<Route>, seed: Writer) returns (admitted: nat, quiesced: bool)
    ensures quiesced <==> Quiesces(table, seed)
    ensures forall all :: AllWalks(table, seed, all) && |all| < SIBLING_ROUTE_CEILING ==> admitted == |all|
    ensures !quiesced ==> admitted == 2_000
  {
    hide IsWalk, End, Queued, Finished, Busy, FinishedBut, Extending, AllWalks, Quiesces;
    admitted := 0;
    var seqNo := 1;
    var work := [Ingress(seed, seqNo)];
    ghost var walks: seq<Walk>, seen: set<Walk> := [[]], {};
    Start(table, seed, work);
    while |work| > 0 && admitted < SIBLING_ROUTE_CEILING
      invariant Queued(table, seed, work, walks, seen)
      invariant admitted == |seen| <= SIBLING_ROUTE_CEILING
      invariant admitted < SIBLING_ROUTE_CEILING ==> Finished(table, seed, walks, seen)
      decreases SIBLING_ROUTE_CEILING - admitted, |work|
    {
      Take(table, seed, work, walks, seen);
      var ingress := work[0];
      ghost var walk := walks[0];
      work, walks := work[1..], walks[1..];
      ghost var admittedBefore, queuedBefore := admitted, |work|;
      var k := 0;
      while k < |table|
        invariant 0 <= k <= |table|
        invariant Busy(table, seed, work, walks, seen, walk)
        invariant admitted == |seen| < SIBLING_ROUTE_CEILING
        invariant Extending(table, seed, walk, k, seen)
        invariant FinishedBut(table, seed, walks, seen, walk)
        invariant admitted > admittedBefore || (admitted == admittedBefore && |work| == queuedBefore)
      {
        var route := table[k];
        if route.Admits(ingress.writer) {
          Admit(table, seed, work, walks, seen, walk, k, Ingress(route.Answer(ingress.writer), seqNo + 1));
          admitted := admitted + 1;
          seqNo := seqNo + 1;
          work := work + [Ingress(route.Answer(ingress.writer), seqNo)];
          walks := walks + [Then(walk, k)];
          seen := seen + {Then(walk, k)};
          if admitted >= SIBLING_ROUTE_CEILING {
            Interrupted(table, seed, work, walks, seen, walk);
            break;
          }
        } else {
          Skip(table, seed, walk, k, seen);
        }
        k := k + 1;
      }
      if admitted < SIBLING_ROUTE_CEILING {
        Settle(table, seed, work, walks, seen, walk);
      }
    }
    quiesced := |work| == 0 && admitted < SIBLING_ROUTE_CEILING;
    Verdict(table, seed, work, walks, seen);
  }

  /** The state while `walk` is being processed. */
  ghost predicate Busy(table: seq<Route>, seed: Writer, work: seq<Ingress>, walks: seq<Walk>, seen: set<Walk>,
                       walk: Walk) {
    && Queued(table, seed, work, walks, seen)
    && IsWalk(table, seed, walk) && (walk == [] || walk in seen) && walk !in walks
  }

  /** All extensions of a finished walk other than `walk` have been admitted. */
  ghost predicate FinishedBut(table: seq<Route>, seed: Writer, walks: seq<Walk>, seen: set<Walk>, walk: Walk) {
    forall p: Walk, r: nat ::
      r < |table| && p !in walks && p != walk && (p == [] || p in seen) && table[r].Admits(End(table, seed, p))
      ==> Then(p, r) in seen
  }

  lemma Start(table: seq<Route>, seed: Writer, work: seq<Ingress>)
    requires |work| == 1 && work[0].writer == seed
    ensures Queued(table, seed, work, [[]], {}) && Finished(table, seed, [[]], {})
  {
  }

  lemma {:induction false} Take(table: seq<Route>, seed: Writer, work: seq<Ingress>, walks: seq<Walk>, seen: set<Walk>)
    requires Queued(table, seed, work, walks, seen) && Finished(table, seed, walks, seen) && work != []
    ensures walks != [] && Busy(table, seed, work[1..], walks[1..], seen, walks[0])
    ensures work[0].writer == End(table, seed, walks[0])
    ensures Extending(table, seed, walks[0], 0, seen)
    ensures FinishedBut(table, seed, walks[1..], seen, walks[0])
  {
    assert IsWalk(table, seed, []);
    hide IsWalk, End;
    assert walks == [walks[0]] + walks[1..];
  }

  lemma {:induction false} Skip(table: seq<Route>, seed: Writer, walk: Walk, r: nat, seen: set<Walk>)
    requires r < |table| && !table[r].Admits(End(table, seed, walk))
    requires Extending(table, seed, walk, r, seen)
    ensures Extending(table, seed, walk, r + 1, seen)
  {
  }

  lemma {:induction false} Admit(table: seq<Route>, seed: Writer, work: seq<Ingress>, walks: seq<Walk>, seen: set<Walk>,
                                 walk: Walk, r: nat, answer: Ingress)
    requires Busy(table, seed, work, walks, seen, walk) && r < |table|
    requires Extending(table, seed, walk, r, seen) && FinishedBut(table, seed, walks, seen, walk)
    requires table[r].Admits(End(table, seed, walk))
    requires answer.writer == table[r].Answer(End(table, seed, walk))
    ensures Then(walk, r) !in seen
    ensures Busy(table, seed, work + [answer], walks + [Then(walk, r)], seen + {Then(walk, r)}, walk)
    ensures Extending(table, seed, walk, r + 1, seen + {Then(walk, r)})
    ensures FinishedBut(table, seed, walks + [Then(walk, r)], seen + {Then(walk, r)}, walk)
  {
    hide IsWalk, End;
    WalkThen(table, seed, walk, r);
    PushWalk(table, seed, work, walks, seen, walk, r, answer);
  }

  lemma {:induction false} PushWalk(table: seq<Route>, seed: Writer, work: seq<Ingress>, walks: seq<Walk>,
                                    seen: set<Walk>, walk: Walk, r: nat, answer: Ingress)
    requires Queued(table, seed, work, walks, seen)
    requires Then(walk, r) !in seen && IsWalk(table, seed, Then(walk, r))
    requires (walk == [] || walk in seen) && walk !in walks
    requires answer.writer == End(table, seed, Then(walk, r))
    ensures Queued(table, seed, work + [answer], walks + [Then(walk, r)], seen + {Then(walk, r)})
  {
    hide IsWalk, End;
    assert |Then(walk, r)| == |walk| + 1;
  }

  lemma {:induction false} Settle(table: seq<Route>, seed: Writer, work: seq<Ingress>, walks: seq<Walk>,
                                  seen: set<Walk>, walk: Walk)
    requires Busy(table, seed, work, walks, seen, walk)
    requires FinishedBut(table, seed, walks, seen, walk) && Extending(table, seed, walk, |table|, seen)
    ensures Queued(table, seed, work, walks, seen) && Finished(table, seed, walks, seen)
  {
    hide IsWalk, End, Queued;
  }

  lemma Interrupted(table: seq<Route>, seed: Writer, work: seq<Ingress>, walks: seq<Walk>, seen: set<Walk>, walk: Walk)
    requires Busy(table, seed, work, walks, seen, walk)
    ensures Queued(table, seed, work, walks, seen)
  {
  }

  lemma {:induction false} EveryWalkSeen(table: seq<Route>, seed: Writer, seen: set<Walk>, walk: Walk)
    requires Finished(table, seed, [], seen) && walk != [] && IsWalk(table, seed, walk)
    ensures walk in seen
    decreases |walk|
  {
    var front, r := walk[..|walk| - 1], walk[|walk| - 1];
    if front != [] {
      EveryWalkSeen(table, seed, seen, front);
    }
    assert Then(front, r) == walk;
  }

  lemma {:induction false} Verdict(table: seq<Route>, seed: Writer, work: seq<Ingress>, walks: seq<Walk>,
                                   seen: set<Walk>)
    requires Queued(table, seed, work, walks, seen) && |seen| <= SIBLING_ROUTE_CEILING
    requires |seen| < SIBLING_ROUTE_CEILING ==> work == [] && Finished(table, seed, walks, seen)
    ensures |seen| < SIBLING_ROUTE_CEILING <==> Quiesces(table, seed)
    ensures forall all :: AllWalks(table, seed, all) && |all| < SIBLING_ROUTE_CEILING ==> |all| == |seen|
  {
    if |seen| < SIBLING_ROUTE_CEILING {
      assert walks == [];
      forall walk | walk != [] && IsWalk(table, seed, walk)
        ensures walk in seen
      {
        EveryWalkSeen(table, seed, seen, walk);
      }
      assert AllWalks(table, seed, seen);
    }
    forall all | AllWalks(table, seed, all)
      ensures |all| >= |seen|
      ensures |seen| < SIBLING_ROUTE_CEILING ==> all == seen
    {
      assert all == seen + (all - seen);
      if |seen| < SIBLING_ROUTE_CEILING {
        assert forall walk :: walk in all ==> walk in seen;
      }
    }
  }

  // --------------------------------------------------- the routes a mind builds

  /** The descriptor flags that make a step type carry nothing for a sibling. */
  datatype StepType = StepType(wakeSignal: bool, siblingInert: bool, neverRetriggersSelf: bool) {
    predicate SiblingWakeSuppressed() {
      wakeSignal || siblingInert || neverRetriggersSelf
    }
  }

  const IDLE := StepType(false, true, false)

  /** `watches` says that the thinker opted in to its siblings' steps of the type at hand. */
  datatype Thinker = Thinker(name: Writer, triggerSelf: bool, watches: bool)

  /** The `authorize` predicate of a thinker's wake route. */
  predicate Authorizes(thinker: Thinker, stepType: StepType, siblings: seq<Writer>, writer: Writer) {
    if writer != thinker.name then
      !(writer in siblings && !thinker.watches && stepType.SiblingWakeSuppressed())
    else
      !stepType.neverRetriggersSelf && thinker.triggerSelf
  }

  /** A step wakes outsiders always, siblings unless it carries nothing for them unwatched, its writer if it may. */
  lemma WokenBy(thinker: Thinker, stepType: StepType, siblings: seq<Writer>, writer: Writer)
    ensures var woken := Authorizes(thinker, stepType, siblings, writer);
            && (writer != thinker.name && writer !in siblings ==> woken)
            && (writer != thinker.name && thinker.watches ==> woken)
            && (writer != thinker.name && writer in siblings && !thinker.watches ==>
                  (woken <==> !stepType.wakeSignal && !stepType.siblingInert && !stepType.neverRetriggersSelf))
            && (writer == thinker.name ==> (woken <==> thinker.triggerSelf && !stepType.neverRetriggersSelf))
  {
  }

  function WakeRoute(thinker: Thinker, siblings: seq<Writer>): Route {
    Route(Some((writer: Writer) => Authorizes(thinker, IDLE, siblings, writer)), Some((writer: Writer) => thinker.name))
  }

  function Others(names: seq<Writer>, name: Writer): (others: seq<Writer>)
    ensures forall one :: one in others <==> one in names && one != name
  {
    if names == [] then []
    else
      assert names == [names[0]] + names[1..];
      (if names[0] != name then [names[0]] else []) + Others(names[1..], name)
  }

  /** With the rule off, each thinker's route is built as if it had no siblings. */
  function RouteTable(names: seq<Writer>, withRule: bool): seq<Route> {
    seq(|names|, i requires 0 <= i < |names| =>
      WakeRoute(Thinker(names[i], false, false), if withRule then Others(names, names[i]) else []))
  }

  /** With the sibling rule on, the seed's `idle` wakes nobody: the replay admits nothing at all. */
  lemma RuleStopsPingPong(names: seq<Writer>)
    requires names != []
    ensures AllWalks(RouteTable(names, true), names[0], {})
    ensures Quiesces(RouteTable(names, true), names[0])
  {
    forall walk | walk != []
      ensures !IsWalk(RouteTable(names, true), names[0], walk)
    {
      NoWalk(names, walk);
    }
    var none: set<Walk> := {};
    assert |none| < SIBLING_ROUTE_CEILING;
  }

  lemma {:induction false} NoWalk(names: seq<Writer>, walk: Walk)
    requires names != [] && walk != []
    ensures !IsWalk(RouteTable(names, true), names[0], walk)
    decreases |walk|
  {
    var table, front := RouteTable(names, true), walk[..|walk| - 1];
    if front != [] {
      NoWalk(names, front);
    } else if walk[0] < |table| {
      assert End(table, names[0], front) == names[0];
      assert !table[walk[0]].Admits(names[0]);
    }
  }

  /** With the rule off the replay quiesces exactly when there is no second thinker to answer. */
  lemma BaselineRunsAway(names: seq<Writer>)
    requires names != []
    ensures Quiesces(RouteTable(names, false), names[0])
            <==> forall i :: 0 <= i < |names| ==> names[i] == names[0]
  {
    var table := RouteTable(names, false);
    if i :| 0 <= i < |names| && names[i] != names[0] {
      forall all | AllWalks(table, names[0], all)
        ensures |all| >= SIBLING_ROUTE_CEILING
      {
        var walk := LongWalk(names, i, SIBLING_ROUTE_CEILING);
        var prefixes := Prefixes(table, names[0], walk);
        assert prefixes <= all;
        assert all == prefixes + (all - prefixes);
      }
    } else {
      forall walk | walk != []
        ensures !IsWalk(table, names[0], walk)
      {
        LonelyWalk(names, walk);
      }
      assert AllWalks(table, names[0], {});
    }
  }

  lemma {:induction false} LonelyWalk(names: seq<Writer>, walk: Walk)
    requires names != [] && walk != []
    requires forall i :: 0 <= i < |names| ==> names[i] == names[0]
    ensures !IsWalk(RouteTable(names, false), names[0], walk)
    decreases |walk|
  {
    var table, front := RouteTable(names, false), walk[..|walk| - 1];
    if front != [] {
      LonelyWalk(names, front);
    } else if walk[0] < |table| {
      assert !table[walk[0]].Admits(names[0]);
    }
  }

  /** Two thinkers can answer each other for any number of steps. */
  lemma {:induction false} LongWalk(names: seq<Writer>, other: nat, n: nat) returns (walk: Walk)
    requires other < |names| && names[other] != names[0]
    ensures |walk| == n && IsWalk(RouteTable(names, false), names[0], walk)
    ensures End(RouteTable(names, false), names[0], walk) == names[if n % 2 == 0 then 0 else other]
  {
    walk := [];
    if n != 0 {
      var front := LongWalk(names, other, n - 1);
      var table, r := RouteTable(names, false), if n % 2 == 0 then 0 else other;
      assert table[r].Admits(names[if n % 2 == 0 then other else 0]);
      WalkThen(table, names[0], front, r);
      walk := Then(front, r);
      assert |walk| == |front| + 1;
    }
  }

  lemma {:induction false} Prefixes(table: seq<Route>, seed: Writer, walk: Walk) returns (prefixes: set<Walk>)
    requires IsWalk(table, seed, walk)
    ensures |prefixes| == |walk|
    ensures forall p :: p in prefixes ==> p != [] && |p| <= |walk| && IsWalk(table, seed, p)
    decreases |walk|
  {
    prefixes := {};
    if walk != [] {
      prefixes := Prefixes(table, seed, walk[..|walk| - 1]);
      prefixes := prefixes + {walk};
    }
  }
}
