/** The fixture builder of scripts/evaluate-gepa-discriminative-search.ts. */
module TaskInterleaving {
  import opened Optional
  import opened Sequences

  datatype Kind = AlwaysPass | AlwaysFail | Discriminating | Alternating

  datatype Task = Task(kind: Kind, owner: Option<string>)

  /** Requested numbers; an absent count is 0. */
  datatype Counts = Counts(pass: int, fail: int, split: int, alternate: int) {
    function Of(kind: Kind): int {
      match kind
      case AlwaysPass => pass
      case AlwaysFail => fail
      case Discriminating => split
      case Alternating => alternate
    }

    function Total(): int { pass + fail + split + alternate }

    ghost function Less(kind: Kind): Counts {
      match kind
      case AlwaysPass => this.(pass := pass - 1)
      case AlwaysFail => this.(fail := fail - 1)
      case Discriminating => this.(split := split - 1)
      case Alternating => this.(alternate := alternate - 1)
    }
  }

  const COMPONENT_IDS: seq<string> := [
    "root::instruction", "root::description", "root::fn-desc:f1", "root::fn-desc:f2",
    "root::fn-desc:f3", "root::fn-desc:f4", "root::fn-desc:f5", "root::fn-desc:f6"
  ]

  const COMPONENTS: nat := 8

  function Rank(kind: Kind): nat {
    match kind
    case AlwaysPass => 0
    case AlwaysFail => 1
    case Discriminating => 2
    case Alternating => 3
  }

  /** The kinds that still have something to emit, in their fixed order. */
  function Remaining(left: Counts): (kinds: seq<Kind>)
    ensures forall kind :: kind in kinds <==> left.Of(kind) > 0
    ensures forall i, j :: 0 <= i < j < |kinds| ==> Rank(kinds[i]) < Rank(kinds[j])
  {
    (if left.pass > 0 then [AlwaysPass] else []) + (if left.fail > 0 then [AlwaysFail] else [])
    + (if left.split > 0 then [Discriminating] else []) + (if left.alternate > 0 then [Alternating] else [])
  }

  function CountOf(kind: Kind, tasks: seq<Task>): nat {
    if tasks == [] then 0
    else CountOf(kind, tasks[..|tasks| - 1]) + if tasks[|tasks| - 1].kind == kind then 1 else 0
  }

  /** Owners of the discriminating tasks, in order of appearance. */
  function Owners(tasks: seq<Task>): seq<Option<string>> {
    if tasks == [] then []
    else
      var last := tasks[|tasks| - 1];
      Owners(tasks[..|tasks| - 1]) + if last.kind == Discriminating then [last.owner] else []
  }

  /** Component `k mod 8` owns the k-th discriminating task. */
  function RoundRobin(n: nat): seq<Option<string>> {
    seq(n, k requires 0 <= k < n => Some(COMPONENT_IDS[k % COMPONENTS]))
  }

  predicate OnlyDiscriminatingOwned(tasks: seq<Task>) {
    forall i :: 0 <= i < |tasks| ==> (tasks[i].owner.Some? <==> tasks[i].kind == Discriminating)
  }

  /** What is left of the request once `tasks` have been emitted. */
  ghost function LeftAfter(counts: Counts, tasks: seq<Task>): Counts {
    Counts(counts.pass - CountOf(AlwaysPass, tasks), counts.fail - CountOf(AlwaysFail, tasks),
           counts.split - CountOf(Discriminating, tasks), counts.alternate - CountOf(Alternating, tasks))
  }

  function Pick(remaining: seq<Kind>, index: nat): (kind: Kind)
    requires remaining != []
    ensures kind == remaining[index % |remaining|]
  {
    remaining[index % |remaining|]
  }

  /** A task cycles by its position through the kinds that are still left when it is emitted. */
  ghost predicate Cycles(counts: Counts, prefix: seq<Task>, kind: Kind) {
    var remaining := Remaining(LeftAfter(counts, prefix));
    remaining != [] && kind == remaining[|prefix| % |remaining|]
  }

  ghost predicate Interleaved(tasks: seq<Task>, counts: Counts) {
    forall i :: 0 <= i < |tasks| ==> Cycles(counts, tasks[..i], tasks[i].kind)
  }

  lemma {:induction false} InterleavedSnoc(tasks: seq<Task>, counts: Counts, task: Task)
    requires Interleaved(tasks, counts) && Cycles(counts, tasks, task.kind)
    ensures Interleaved(tasks + [task], counts)
  {
    var longer := tasks + [task];
    forall i | 0 <= i < |longer|
      ensures Cycles(counts, longer[..i], longer[i].kind)
    {
      assert longer[..i] == tasks[..i];
      if i == |tasks| {
        assert tasks[..i] == tasks;
      }
    }
  }

  /** `tasks` is what has been emitted once `left` of the requested `counts` remains. */
  ghost predicate Built(tasks: seq<Task>, counts: Counts, left: Counts) {
    && left == LeftAfter(counts, tasks)
    && (forall kind :: left.Of(kind) >= 0 || left.Of(kind) == counts.Of(kind))
    && Owners(tasks) == RoundRobin(CountOf(Discriminating, tasks))
    && OnlyDiscriminatingOwned(tasks)
  }

  lemma {:induction false} Emit(tasks: seq<Task>, counts: Counts, left: Counts, task: Task)
    requires Built(tasks, counts, left) && left.Of(task.kind) > 0
    requires task.owner == if task.kind == Discriminating
                           then Some(COMPONENT_IDS[CountOf(Discriminating, tasks) % COMPONENTS]) else None
    ensures Built(tasks + [task], counts, left.Less(task.kind))
    ensures CountOf(Discriminating, tasks + [task])
            == CountOf(Discriminating, tasks) + if task.kind == Discriminating then 1 else 0
  {
    assert (tasks + [task])[..|tasks|] == tasks;
    var n := CountOf(Discriminating, tasks);
    assert RoundRobin(n + 1) == RoundRobin(n) + [Some(COMPONENT_IDS[n % COMPONENTS])];
  }

  method BuildTasks(counts: Counts) returns (tasks: seq<Task>)
    ensures |tasks| == if counts.Total() > 0 then counts.Total() else 0
    ensures (forall kind :: CountOf(kind, tasks) == Max(0, counts.Of(kind)))
            <==> (forall kind :: counts.Of(kind) >= 0) || (forall kind :: counts.Of(kind) <= 0)
    ensures forall kind :: counts.Of(kind) <= 0 ==> CountOf(kind, tasks) == 0
    ensures Owners(tasks) == RoundRobin(CountOf(Discriminating, tasks))
    ensures OnlyDiscriminatingOwned(tasks)
    ensures Interleaved(tasks, counts)
  {
    hide CountOf, Owners, RoundRobin, OnlyDiscriminatingOwned, Interleaved, LeftAfter, Remaining, Pick;
    tasks := [];
    NothingBuilt(counts);
    var total := counts.Total();
    var pass, fail, split, alternate := counts.pass, counts.fail, counts.split, counts.alternate;
    var splitSeen := 0;
    var index := 0;
    while index < total
      invariant index == |tasks| && (index <= total || index == 0)
      invariant pass + fail + split + alternate == total - index
      invariant Built(tasks, counts, Counts(pass, fail, split, alternate))
      invariant splitSeen == CountOf(Discriminating, tasks)
      invariant Interleaved(tasks, counts)
    {
      ghost var left := Counts(pass, fail, split, alternate);
      SomethingRemains(left);
      var remaining := Remaining(Counts(pass, fail, split, alternate));
      var kind := Pick(remaining, index);
      var task: Task;
      if kind == AlwaysPass {
        pass := pass - 1;
        task := Task(kind, None);
      } else if kind == AlwaysFail {
        fail := fail - 1;
        task := Task(kind, None);
      } else if kind == Alternating {
        alternate := alternate - 1;
        task := Task(kind, None);
      } else {
        split := split - 1;
        task := Task(kind, Some(COMPONENT_IDS[splitSeen % |COMPONENT_IDS|]));
        splitSeen := splitSeen + 1;
      }
      Emit(tasks, counts, left, task);
      InterleavedSnoc(tasks, counts, task);
      tasks := tasks + [task];
      index := index + 1;
    }
    Drained(tasks, counts, Counts(pass, fail, split, alternate));
  }

  /** One task of -1 and two of another kind make a total of one, so one requested task is missing. */
  method NegativeCountLosesTask() returns (tasks: seq<Task>)
    ensures |tasks| == 1 && CountOf(AlwaysFail, tasks) == 1 < Counts(-1, 2, 0, 0).Of(AlwaysFail)
  {
    tasks := BuildTasks(Counts(-1, 2, 0, 0));
    assert tasks[..0] == [];
    assert Cycles(Counts(-1, 2, 0, 0), tasks[..0], tasks[0].kind);
    assert tasks[0].kind == AlwaysFail;
  }

  lemma NothingBuilt(counts: Counts)
    ensures Built([], counts, counts) && Interleaved([], counts) && CountOf(Discriminating, []) == 0
  {
  }

  lemma {:induction false} CountsAddUp(tasks: seq<Task>)
    ensures CountOf(AlwaysPass, tasks) + CountOf(AlwaysFail, tasks) + CountOf(Discriminating, tasks)
            + CountOf(Alternating, tasks) == |tasks|
  {
    if tasks != [] {
      CountsAddUp(tasks[..|tasks| - 1]);
    }
  }

  /**
   * When nothing is left in total, each kind has come out as often as requested, a negative count read as zero, exactly
   * if the request does not mix signs.
   */
  lemma {:induction false} Drained(tasks: seq<Task>, counts: Counts, left: Counts)
    requires Built(tasks, counts, left) && left.Total() <= 0 && (left.Total() < 0 ==> tasks == [])
    ensures (forall kind :: CountOf(kind, tasks) == Max(0, counts.Of(kind)))
            <==> (forall kind :: counts.Of(kind) >= 0) || (forall kind :: counts.Of(kind) <= 0)
    ensures forall kind :: counts.Of(kind) <= 0 ==> CountOf(kind, tasks) == 0
  {
    hide CountOf, Owners, RoundRobin, OnlyDiscriminatingOwned;
    CountsAddUp(tasks);
    forall kind
      ensures CountOf(kind, tasks) == counts.Of(kind) - left.Of(kind)
      ensures left.Of(kind) >= 0 || left.Of(kind) == counts.Of(kind)
    {
    }
    SignsDecide(counts, left);
  }

  /** Four requested counts against what is left of each, once nothing is left in total. */
  lemma SignsDecide(counts: Counts, left: Counts)
    requires forall kind :: left.Of(kind) >= 0 || left.Of(kind) == counts.Of(kind)
    requires forall kind :: left.Of(kind) <= counts.Of(kind)
    requires left.Total() <= 0 && (left.Total() < 0 ==> left == counts)
    ensures (forall kind :: counts.Of(kind) - left.Of(kind) == Max(0, counts.Of(kind)))
            <==> (forall kind :: counts.Of(kind) >= 0) || (forall kind :: counts.Of(kind) <= 0)
    ensures forall kind :: counts.Of(kind) <= 0 ==> counts.Of(kind) == left.Of(kind)
  {
    hide *;
    KindByKind(counts);
    KindByKind(left);
    SameSigns(counts);
    Exact(counts, left);
    FourSigns(counts.pass, counts.fail, counts.split, counts.alternate,
              left.pass, left.fail, left.split, left.alternate);
    forall kind | counts.Of(kind) <= 0
      ensures counts.Of(kind) == left.Of(kind)
    {
      match kind
      case AlwaysPass =>
      case AlwaysFail =>
      case Discriminating =>
      case Alternating =>
    }
  }

  lemma KindByKind(counts: Counts)
    ensures counts.Of(AlwaysPass) == counts.pass && counts.Of(AlwaysFail) == counts.fail
    ensures counts.Of(Discriminating) == counts.split && counts.Of(Alternating) == counts.alternate
    ensures counts.Total() == counts.pass + counts.fail + counts.split + counts.alternate
  {
  }

  lemma SameSigns(counts: Counts)
    ensures (forall kind :: counts.Of(kind) >= 0)
            <==> counts.pass >= 0 && counts.fail >= 0 && counts.split >= 0 && counts.alternate >= 0
    ensures (forall kind :: counts.Of(kind) <= 0)
            <==> counts.pass <= 0 && counts.fail <= 0 && counts.split <= 0 && counts.alternate <= 0
  {
    hide *;
    KindByKind(counts);
    forall kind
      ensures counts.pass >= 0 && counts.fail >= 0 && counts.split >= 0 && counts.alternate >= 0
              ==> counts.Of(kind) >= 0
      ensures counts.pass <= 0 && counts.fail <= 0 && counts.split <= 0 && counts.alternate <= 0
              ==> counts.Of(kind) <= 0
    {
      match kind
      case AlwaysPass =>
      case AlwaysFail =>
      case Discriminating =>
      case Alternating =>
    }
  }

  lemma Exact(counts: Counts, left: Counts)
    ensures (forall kind :: counts.Of(kind) - left.Of(kind) == Max(0, counts.Of(kind)))
            <==> counts.pass - left.pass == Max(0, counts.pass) && counts.fail - left.fail == Max(0, counts.fail)
                 && counts.split - left.split == Max(0, counts.split)
                 && counts.alternate - left.alternate == Max(0, counts.alternate)
  {
    hide *;
    KindByKind(counts);
    KindByKind(left);
    if counts.pass - left.pass == Max(0, counts.pass) && counts.fail - left.fail == Max(0, counts.fail)
       && counts.split - left.split == Max(0, counts.split)
       && counts.alternate - left.alternate == Max(0, counts.alternate) {
      forall kind
        ensures counts.Of(kind) - left.Of(kind) == Max(0, counts.Of(kind))
      {
        match kind
        case AlwaysPass =>
        case AlwaysFail =>
        case Discriminating =>
        case Alternating =>
      }
    }
  }

  lemma FourSigns(a: int, b: int, c: int, d: int, p: int, q: int, r: int, s: int)
    requires (p >= 0 || p == a) && (q >= 0 || q == b) && (r >= 0 || r == c) && (s >= 0 || s == d)
    requires p <= a && q <= b && r <= c && s <= d
    requires p + q + r + s <= 0 && (p + q + r + s < 0 ==> p == a && q == b && r == c && s == d)
    ensures a - p == Max(0, a) && b - q == Max(0, b) && c - r == Max(0, c) && d - s == Max(0, d)
            <==> (a >= 0 && b >= 0 && c >= 0 && d >= 0) || (a <= 0 && b <= 0 && c <= 0 && d <= 0)
    ensures (a <= 0 ==> a == p) && (b <= 0 ==> b == q) && (c <= 0 ==> c == r) && (d <= 0 ==> d == s)
  {
  }

  /** As long as the loop runs, some kind is left, so the interleaver never indexes an empty list. */
  lemma SomethingRemains(left: Counts)
    requires left.Total() > 0
    ensures Remaining(left) != []
  {
    if left.pass <= 0 && left.fail <= 0 && left.split <= 0 {
      assert left.Of(Alternating) > 0;
    }
  }

  /** As long as no kind runs out and at least two are left, neighbouring tasks differ in kind. */
  lemma {:induction false} NeighboursDiffer(tasks: seq<Task>, counts: Counts, i: nat)
    requires Interleaved(tasks, counts) && i + 1 < |tasks|
    requires Remaining(LeftAfter(counts, tasks[..i])) == Remaining(LeftAfter(counts, tasks[..i + 1]))
    requires |Remaining(LeftAfter(counts, tasks[..i]))| >= 2
    ensures tasks[i].kind != tasks[i + 1].kind
  {
    assert Cycles(counts, tasks[..i], tasks[i].kind) && Cycles(counts, tasks[..i + 1], tasks[i + 1].kind);
    PickDiffers(LeftAfter(counts, tasks[..i]), i);
  }

  lemma PickDiffers(left: Counts, i: nat)
    requires |Remaining(left)| >= 2
    ensures Pick(Remaining(left), i) != Pick(Remaining(left), i + 1)
  {
    NextResidue(i, |Remaining(left)|);
  }

  lemma NextResidue(i: nat, n: nat)
    requires n >= 2
    ensures i % n != (i + 1) % n
  {
    var q := (i + 1) / n - i / n;
    if q >= 1 {
      assert q * n >= n;
    } else {
      assert q * n <= 0;
    }
  }

  // ------------------------------------------------------------ fair ownership

  function OwnedBy(component: nat, n: nat): nat {
    if n == 0 then 0 else OwnedBy(component, n - 1) + if (n - 1) % COMPONENTS == component then 1 else 0
  }

  lemma {:induction false} OwnedByIs(component: nat, n: nat)
    requires component < COMPONENTS
    ensures OwnedBy(component, n) == n / COMPONENTS + if component < n % COMPONENTS then 1 else 0
  {
    if n != 0 {
      OwnedByIs(component, n - 1);
    }
  }

  lemma {:induction false} OwnedByCounts(component: nat, n: nat)
    requires component < COMPONENTS
    ensures multiset(RoundRobin(n))[Some(COMPONENT_IDS[component])] == OwnedBy(component, n)
  {
    if n != 0 {
      OwnedByCounts(component, n - 1);
      var k := (n - 1) % COMPONENTS;
      assert RoundRobin(n) == RoundRobin(n - 1) + [Some(COMPONENT_IDS[k])];
      DistinctIds(component, k);
    }
  }

  lemma DistinctIds(a: nat, b: nat)
    requires a < COMPONENTS && b < COMPONENTS
    ensures COMPONENT_IDS[a] == COMPONENT_IDS[b] <==> a == b
  {
    assert forall i :: 0 <= i < 8 ==> |COMPONENT_IDS[i]| >= 16;
    assert COMPONENT_IDS[0][6] == 'i' && COMPONENT_IDS[1][6] == 'd';
    assert forall i :: 2 <= i < 8 ==> COMPONENT_IDS[i][6] == 'f' && COMPONENT_IDS[i][15] == "123456"[i - 2];
  }

  /** Any two components own the same number of discriminating tasks, up to one. */
  lemma FairOwnership(a: nat, b: nat, n: nat)
    requires a < COMPONENTS && b < COMPONENTS
    ensures var owned := multiset(RoundRobin(n));
            owned[Some(COMPONENT_IDS[a])] <= owned[Some(COMPONENT_IDS[b])] + 1
  {
    OwnedByCounts(a, n);
    OwnedByCounts(b, n);
    OwnedByIs(a, n);
    OwnedByIs(b, n);
  }
}
