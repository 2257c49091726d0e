/** The generated read-only log of scripts/trajectory-projection-eval.ts, with its filtered and backward reads. */
module TrajectoryStore {
  import opened Optional
  import opened Sequences

  /** `ordinal` is the number in the step's content: the i-th thought says `thought i`. */
  datatype Step = Step(seqNo: nat, kind: string, ordinal: nat)

  datatype ReadQuery = ReadQuery(fromSeq: Option<int>, toSeq: Option<int>, types: Option<seq<string>>,
                                 limit: Option<int>)

  datatype TailQuery = TailQuery(types: Option<seq<string>>, limit: int, beforeSeq: Option<int>, maxScan: Option<int>)

  datatype TailResult = TailResult(steps: seq<Step>, scanned: nat, exhausted: bool)

  const REPLAY_CHUNK: nat := 1024

  function SeqOfIndex(index: nat): nat { 2 * index + 2 }

  /** The argument is the number a step id spells; an id that spells none is not part of the model. */
  function IndexOf(seqNo: int): Option<nat> {
    if seqNo < 2 || seqNo % 2 != 0 then None else Some((seqNo - 2) / 2)
  }

  function At(seqNo: nat): Step {
    if seqNo == 0 then Step(0, "trajectory", 0)
    else if seqNo % 2 == 0 then Step(seqNo, "thought", (seqNo - 2) / 2)
    else Step(seqNo, "run", (seqNo - 1) / 2)
  }

  /** After the opening step, runs and thoughts alternate, each numbered from 0. */
  lemma LogAlternates(i: nat)
    ensures At(2 * i + 1) == Step(2 * i + 1, "run", i) && At(2 * i + 2) == Step(2 * i + 2, "thought", i)
  {
  }

  predicate Selects(types: Option<seq<string>>, step: Step) {
    types.None? || step.kind in types.value
  }

  /** The selected steps of the window [from, upTo), in log order. */
  function Selected(types: Option<seq<string>>, from: nat, upTo: nat): seq<Step>
    decreases upTo
  {
    if upTo <= from then []
    else Selected(types, from, upTo - 1) + if Selects(types, At(upTo - 1)) then [At(upTo - 1)] else []
  }

  /** The limit is checked only after a step has been taken, so any limit below 1 acts as 1. */
  function Limited(all: seq<Step>, limit: Option<int>): (limited: seq<Step>)
    ensures limit.None? || |all| < limit.value || all == [] ==> limited == all
  {
    if limit.None? then all else all[..Min(|all|, Max(1, limit.value))]
  }

  /** A read stays within its limit exactly when the limit is at least 1, or 0 with nothing to read. */
  lemma WithinLimit(all: seq<Step>, limit: int)
    ensures |Limited(all, Some(limit))| <= limit <==> limit >= 1 || (limit == 0 && all == [])
    ensures limit < 1 ==> Limited(all, Some(limit)) == Limited(all, Some(1))
  {
  }

  /** A read that asks for nothing still gets the first step. */
  lemma ZeroLimitReadsOne()
    ensures var store, query := SyntheticStore(0), ReadQuery(None, None, None, Some(0));
            Limited(store.Matches(query), query.limit) == [At(0)]
  {
    var store := SyntheticStore(0);
    assert Selected(None, 0, 0) == [];
    assert Selected(None, 0, 1) == [At(0)];
    assert store.Matches(ReadQuery(None, None, None, Some(0))) == [At(0)];
  }

  lemma IsLimited(taken: seq<Step>, all: seq<Step>, limit: int)
    requires taken <= all && |taken| == Max(1, limit)
    ensures taken == Limited(all, Some(limit))
  {
  }

  /** Where a backward scan that started at `start` and has come down to `cursor` will stop. */
  function ScanEnd(types: Option<seq<string>>, limit: int, maxScan: int, start: nat, cursor: nat): (end: nat)
    requires cursor <= start
    ensures end <= cursor
  {
    if |Selected(types, cursor, start)| < limit && start - cursor < maxScan && cursor > 0
    then ScanEnd(types, limit, maxScan, start, cursor - 1) else cursor
  }

  datatype SyntheticStore = SyntheticStore(narrativeSteps: nat) {

    function StepCount(): nat { 1 + 2 * narrativeSteps }

    /** All matching steps of the window that a query names. */
    function Matches(query: ReadQuery): seq<Step> {
      var from, upTo := Max(0, query.fromSeq.GetOr(0)), Min(StepCount(), query.toSeq.GetOr(StepCount()));
      if upTo <= from then [] else Selected(query.types, from, upTo)
    }

    method Read(query: ReadQuery) returns (out: seq<Step>)
      ensures out == Limited(Matches(query), query.limit)
      ensures query.limit.Some? ==>
                (|out| <= query.limit.value
                 <==> query.limit.value >= 1 || (query.limit.value == 0 && Matches(query) == []))
    {
      hide At, Selects;
      var from, upTo := Max(0, query.fromSeq.GetOr(0)), Min(StepCount(), query.toSeq.GetOr(StepCount()));
      if query.limit.Some? {
        WithinLimit(Matches(query), query.limit.value);
      }
      out := [];
      var seqNo := from;
      while seqNo < upTo
        invariant from <= seqNo && (upTo <= from ==> seqNo == from && out == [])
        invariant from < upTo ==> seqNo <= upTo && out == Selected(query.types, from, seqNo)
        invariant query.limit.Some? ==> |out| == 0 || |out| < query.limit.value
      {
        var step := At(seqNo);
        seqNo := seqNo + 1;
        if Selects(query.types, step) {
          out := out + [step];
          if query.limit.Some? && |out| >= query.limit.value {
            SelectedPrefix(query.types, from, seqNo, upTo);
            IsLimited(out, Selected(query.types, from, upTo), query.limit.value);
            return;
          }
        }
      }
    }

    method TailBackward(query: TailQuery) returns (result: TailResult)
      ensures var start := Min(query.beforeSeq.GetOr(StepCount()), StepCount());
              var maxScan := query.maxScan.GetOr(Max(200, 20 * query.limit));
              if start < 0 then result == TailResult([], 0, false)
              else
                var end := ScanEnd(query.types, query.limit, maxScan, start, start);
                result == TailResult(Selected(query.types, end, start), start - end, end == 0)
    {
      hide Selected, ScanEnd, Reverse, At, Selects;
      var maxScan := query.maxScan.GetOr(Max(200, 20 * query.limit));
      var cursor := Min(query.beforeSeq.GetOr(StepCount()), StepCount());
      ghost var start := cursor;
      var scanned := 0;
      var found := [];
      if start >= 0 {
        NothingSelected(query.types, start);
      }
      while |found| < query.limit && scanned < maxScan && cursor > 0
        invariant scanned == start - cursor && (start < 0 ==> cursor == start) && (start >= 0 ==> cursor >= 0)
        invariant if start < 0 then found == []
                  else Reverse(found) == Selected(query.types, cursor, start)
                       && ScanEnd(query.types, query.limit, maxScan, start, start)
                          == ScanEnd(query.types, query.limit, maxScan, start, cursor)
        decreases cursor
      {
        ReverseLength(found);
        ScanOn(query.types, query.limit, maxScan, start, cursor);
        cursor := cursor - 1;
        scanned := scanned + 1;
        var step := At(cursor);
        SelectedFront(query.types, cursor, start);
        if Selects(query.types, step) {
          ReverseSnoc(found, step);
          found := found + [step];
        }
      }
      ReverseLength(found);
      if start >= 0 {
        ScanOn(query.types, query.limit, maxScan, start, cursor);
      }
      result := TailResult(Reverse(found), scanned, cursor == 0);
    }

    /** The declared baseline: the characters of every thought, read chunk by chunk. */
    method RawReplayChars(lineLength: Step -> nat) returns (chars: nat)
      ensures chars == Total(lineLength, Selected(Some(["thought"]), 0, StepCount()))
    {
      hide At, Selects, Selected, Total, Limited;
      var end := StepCount();
      chars := 0;
      NothingTotal(lineLength);
      var seqNo := 0;
      while seqNo < end
        invariant chars == Total(lineLength, Selected(Some(["thought"]), 0, Min(end, seqNo)))
        decreases end - seqNo
      {
        var next := Min(end, seqNo + REPLAY_CHUNK);
        var steps := Read(ReadQuery(Some(seqNo), Some(next), Some(["thought"]), None));
        Unlimited(Matches(ReadQuery(Some(seqNo), Some(next), Some(["thought"]), None)));
        ghost var before := chars;
        var i := 0;
        while i < |steps|
          invariant 0 <= i <= |steps| && chars == before + Total(lineLength, steps[..i])
        {
          TotalStep(lineLength, steps, i);
          chars := chars + lineLength(steps[i]);
          i := i + 1;
        }
        assert steps[..i] == steps;
        SelectedSplit(Some(["thought"]), 0, seqNo, next);
        TotalSplit(lineLength, Selected(Some(["thought"]), 0, seqNo), steps);
        seqNo := seqNo + REPLAY_CHUNK;
      }
    }
  }

  lemma Unlimited(all: seq<Step>)
    ensures Limited(all, None) == all
  {
  }

  lemma NothingTotal(lineLength: Step -> nat)
    ensures Total(lineLength, Selected(Some(["thought"]), 0, 0)) == 0 == Total(lineLength, [])
  {
  }

  lemma TotalStep(lineLength: Step -> nat, steps: seq<Step>, i: nat)
    requires i < |steps|
    ensures Total(lineLength, steps[..i + 1]) == Total(lineLength, steps[..i]) + lineLength(steps[i])
  {
    assert steps[..i + 1][..i] == steps[..i];
  }

  /** Array.prototype.reverse. */
  function Reverse<T>(s: seq<T>): seq<T> {
    if s == [] then [] else [s[|s| - 1]] + Reverse(s[..|s| - 1])
  }

  lemma ReverseSnoc<T>(s: seq<T>, x: T)
    ensures Reverse(s + [x]) == [x] + Reverse(s)
  {
    assert (s + [x])[..|s|] == s;
  }

  lemma NothingSelected(types: Option<seq<string>>, start: nat)
    ensures Reverse<Step>([]) == Selected(types, start, start) == []
  {
  }

  /** One step of a backward scan, or its end. */
  lemma ScanOn(types: Option<seq<string>>, limit: int, maxScan: int, start: nat, cursor: nat)
    requires cursor <= start
    ensures ScanEnd(types, limit, maxScan, start, cursor)
            == if |Selected(types, cursor, start)| < limit && start - cursor < maxScan && cursor > 0
               then ScanEnd(types, limit, maxScan, start, cursor - 1) else cursor
  {
  }

  lemma {:induction false} ReverseLength<T>(s: seq<T>)
    ensures |Reverse(s)| == |s|
  {
    if s != [] {
      ReverseLength(s[..|s| - 1]);
    }
  }

  function Total(lineLength: Step -> nat, steps: seq<Step>): nat {
    if steps == [] then 0 else Total(lineLength, steps[..|steps| - 1]) + lineLength(steps[|steps| - 1])
  }

  lemma {:induction false} TotalSplit(lineLength: Step -> nat, a: seq<Step>, b: seq<Step>)
    ensures Total(lineLength, a + b) == Total(lineLength, a) + Total(lineLength, b)
  {
    if b == [] {
      assert a + b == a;
    } else {
      assert (a + b)[..|a + b| - 1] == a + b[..|b| - 1];
      TotalSplit(lineLength, a, b[..|b| - 1]);
    }
  }

  // ---------------------------------------------------------- windows compose

  /** Adjacent windows concatenate. */
  lemma {:induction false} SelectedSplit(types: Option<seq<string>>, from: nat, mid: nat, upTo: nat)
    requires from <= mid <= upTo
    ensures Selected(types, from, upTo) == Selected(types, from, mid) + Selected(types, mid, upTo)
    decreases upTo
  {
    if mid != upTo {
      SelectedSplit(types, from, mid, upTo - 1);
    }
  }

  lemma SelectedFront(types: Option<seq<string>>, from: nat, upTo: nat)
    requires from < upTo
    ensures Selected(types, from, upTo)
            == (if Selects(types, At(from)) then [At(from)] else []) + Selected(types, from + 1, upTo)
  {
    SelectedSplit(types, from, from + 1, upTo);
    assert Selected(types, from, from) == [];
  }

  lemma SelectedPrefix(types: Option<seq<string>>, from: nat, mid: nat, upTo: nat)
    requires from <= mid <= upTo
    ensures Selected(types, from, mid) <= Selected(types, from, upTo)
  {
    SelectedSplit(types, from, mid, upTo);
  }

  // -------------------------------------------------- paging back through the log

  /** Backward pages, each starting where the previous one stopped, until one is exhausted. */
  function Pages(types: Option<seq<string>>, limit: int, maxScan: int, before: nat): seq<Step>
    requires limit >= 1 && maxScan >= 1
  {
    var end := ScanEnd(types, limit, maxScan, before, before);
    if end == 0 then Selected(types, end, before)
    else
      PageProgress(types, limit, maxScan, before);
      Pages(types, limit, maxScan, end) + Selected(types, end, before)
  }

  /** A page of a non-empty prefix moves back exactly when it may return and scan something. */
  lemma PageProgress(types: Option<seq<string>>, limit: int, maxScan: int, before: nat)
    requires before > 0
    ensures ScanEnd(types, limit, maxScan, before, before) < before <==> limit >= 1 && maxScan >= 1
  {
    assert Selected(types, before, before) == [];
  }

  /** Walking back page by page reproduces the forward filtered read of the whole log. */
  lemma {:induction false} PagesAreTheLog(types: Option<seq<string>>, limit: int, maxScan: int, before: nat)
    requires limit >= 1 && maxScan >= 1
    ensures Pages(types, limit, maxScan, before) == Selected(types, 0, before)
  {
    var end := ScanEnd(types, limit, maxScan, before, before);
    if end != 0 {
      PageProgress(types, limit, maxScan, before);
      PagesAreTheLog(types, limit, maxScan, end);
      SelectedSplit(types, 0, end, before);
    }
  }

  /** A page never returns more than its limit. */
  lemma {:induction false} PageSize(types: Option<seq<string>>, limit: int, maxScan: int, start: nat, cursor: nat)
    requires limit >= 1 && cursor <= start && |Selected(types, cursor, start)| <= limit
    ensures |Selected(types, ScanEnd(types, limit, maxScan, start, cursor), start)| <= limit
    ensures start - cursor <= maxScan ==> start - ScanEnd(types, limit, maxScan, start, cursor) <= maxScan
    decreases cursor
  {
    if |Selected(types, cursor, start)| < limit && start - cursor < maxScan && cursor > 0 {
      SelectedFront(types, cursor - 1, start);
      PageSize(types, limit, maxScan, start, cursor - 1);
    }
  }

  // -------------------------------------------- filtered index and raw position

  lemma {:induction false} ThoughtsOf(n: nat)
    ensures |Selected(Some(["thought"]), 0, 1 + 2 * n)| == n
    ensures forall i :: 0 <= i < n ==> Selected(Some(["thought"]), 0, 1 + 2 * n)[i] == At(SeqOfIndex(i))
  {
    hide Selected, At, SeqOfIndex;
    if n == 0 {
      NoThoughtYet();
    } else {
      ThoughtsOf(n - 1);
      TwoMore(n - 1);
    }
  }

  lemma NoThoughtYet()
    ensures Selected(Some(["thought"]), 0, 1) == []
  {
    assert "trajectory"[1] == 'r' && "thought"[1] == 'h';
    assert Selected(Some(["thought"]), 0, 0) == [];
  }

  /** One more narrative step adds one thought. */
  lemma TwoMore(n: nat)
    ensures Selected(Some(["thought"]), 0, 1 + 2 * (n + 1))
            == Selected(Some(["thought"]), 0, 1 + 2 * n) + [At(SeqOfIndex(n))]
  {
    var types, m := Some(["thought"]), 1 + 2 * n;
    assert "run"[0] == 'r' && "thought"[0] == 't';
    assert m % 2 == 1 && m + 1 == SeqOfIndex(n);
    assert !Selects(types, At(m)) && Selects(types, At(m + 1));
    hide At, Selects;
    assert Selected(types, 0, m + 1) == Selected(types, 0, m) + [];
  }

  lemma IndexRoundTrip(i: nat)
    ensures At(SeqOfIndex(i)) == Step(SeqOfIndex(i), "thought", i)
    ensures IndexOf(SeqOfIndex(i)) == Some(i)
  {
    assert SeqOfIndex(i) % 2 == 0;
  }

  /** Exactly the thoughts have a filtered index, and it leads back to the same raw position. */
  lemma IndexOfThoughts(seqNo: int)
    ensures IndexOf(seqNo).Some? <==> seqNo >= 0 && At(seqNo).kind == "thought"
    ensures IndexOf(seqNo).Some? ==> SeqOfIndex(IndexOf(seqNo).value) == seqNo
  {
    assert "trajectory"[1] == 'r' && "thought"[1] == 'h' && "run"[0] == 'r' && "thought"[0] == 't';
  }

  /** The i-th thought of the filtered log sits at raw position `SeqOfIndex(i)`, and `IndexOf` inverts it. */
  lemma FilteredIndex(store: SyntheticStore, i: nat)
    requires i < store.narrativeSteps
    ensures var thoughts := Selected(Some(["thought"]), 0, store.StepCount());
            && |thoughts| == store.narrativeSteps
            && thoughts[i] == Step(SeqOfIndex(i), "thought", i)
            && IndexOf(thoughts[i].seqNo) == Some(i)
  {
    hide At, IndexOf, Selects;
    ThoughtsOf(store.narrativeSteps);
    IndexRoundTrip(i);
  }
}
