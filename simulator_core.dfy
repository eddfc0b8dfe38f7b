/** The instrumented runs behind the dashboard: the static Banker's
    algorithm and its discrete-time variant with scheduled arrivals, both
    recording a step log, a comparison counter and an iteration counter. */
module SimulatorCore {
  import opened Vectors
  import opened Banker

  /** `_matrix_copy`: a fresh list of copied rows. Sequences are values,
      so the copy is equal to its source and later updates never reach it. */
  method MatrixCopy(mat: seq<seq<int>>) returns (r: seq<seq<int>>)
    ensures r == mat
  {
    r := [];
    for i := 0 to |mat|
      invariant r == mat[..i]
    {
      var row := mat[i][..];
      r := r + [row];
    }
  }

  /** The "t" tag of a step: "T{k}", "T{k}.exec" or "T{k}.arrival". */
  datatype Label = Snapshot(k: nat) | Exec(k: nat) | Arrival(k: nat)

  /** One entry of the step log: copies of the matrices and of available,
      the executed process (exec steps), the arrivals (arrival steps) and
      the number of comparisons made so far. */
  datatype StepRecord = StepRecord(
    tag: Label,
    allocation: seq<seq<int>>,
    maxMat: seq<seq<int>>,
    need: seq<seq<int>>,
    available: seq<int>,
    executed: Option<nat>,
    arrivals: Option<seq<seq<int>>>,
    comparisonsSoFar: nat)

  /** The metrics without the wall-clock time. */
  datatype Metrics = Metrics(totalComparisons: nat, totalIterations: nat)

  /** The triple both runs return: steps, metrics, safe sequence or None. */
  datatype Outcome = Outcome(steps: seq<StepRecord>, metrics: Metrics, safeSeq: Option<seq<nat>>)

  /** The search state together with the step log and the comparison counter. */
  datatype Trace = Trace(sched: Sched, steps: seq<StepRecord>, comparisons: nat)

  /** A snapshot of the current state under the given tag. */
  function SnapshotOf(tag: Label, alloc: seq<seq<int>>, maxMat: seq<seq<int>>, need: seq<seq<int>>, t: Trace): StepRecord {
    StepRecord(tag, alloc, maxMat, need, t.sched.work, None, None, t.comparisons)
  }

  /** Checking process i in pass k: an unfinished process costs N
      comparisons whatever the outcome; if it fits it is executed and an
      exec step is logged with the new available vector. */
  function CountedVisit(alloc: seq<seq<int>>, maxMat: seq<seq<int>>, need: seq<seq<int>>, k: nat, i: nat, t: Trace): (r: Trace)
    requires Shaped(alloc, need, t.sched) && i < |t.sched.finish|
    ensures Shaped(alloc, need, r.sched) && |r.sched.work| == |t.sched.work|
  {
    var s := t.sched;
    if s.finish[i] then t
    else
      var c := t.comparisons + |s.work|;
      if VecLe(need[i], s.work) then
        var w := VecAdd(s.work, alloc[i]);
        Trace(Sched(w, s.finish[i := true], s.order + [i]),
              t.steps + [StepRecord(Exec(k), alloc, maxMat, need, w, Some(i), None, c)], c)
      else Trace(s, t.steps, c)
  }

  /** The rest of the instrumented pass k from process i on. */
  function CountedPass(alloc: seq<seq<int>>, maxMat: seq<seq<int>>, need: seq<seq<int>>, k: nat, i: nat, t: Trace): (r: Trace)
    requires Shaped(alloc, need, t.sched) && i <= |t.sched.finish|
    ensures Shaped(alloc, need, r.sched) && |r.sched.work| == |t.sched.work|
    decreases |t.sched.finish| - i
  {
    if i == |t.sched.finish| then t
    else CountedPass(alloc, maxMat, need, k, i + 1, CountedVisit(alloc, maxMat, need, k, i, t))
  }

  // ---------------------------------------------------------------------
  // run_standard_with_steps
  // ---------------------------------------------------------------------

  /** The final trace and the value of the iteration counter. */
  datatype Run = Run(trace: Trace, iterations: nat)

  /** Pass k logs a snapshot "T{k}", then checks every process; passes
      repeat while one of them executes somebody. */
  function StandardLoop(alloc: seq<seq<int>>, maxMat: seq<seq<int>>, need: seq<seq<int>>, k: nat, t: Trace): Run
    requires Shaped(alloc, need, t.sched)
    decreases Unfinished(t.sched.finish, 0)
  {
    var t1 := Trace(t.sched, t.steps + [SnapshotOf(Snapshot(k), alloc, maxMat, need, t)], t.comparisons);
    var p := CountedPass(alloc, maxMat, need, k, 0, t1);
    CountedPassSched(alloc, maxMat, need, k, 0, t1);
    PassCounts(alloc, need, 0, t.sched);
    if |p.sched.order| == |t.sched.order| then Run(p, k + 1) else StandardLoop(alloc, maxMat, need, k + 1, p)
  }

  function StandardRun(alloc: seq<seq<int>>, maxMat: seq<seq<int>>, available: seq<int>): Run
    requires WellFormed(alloc, maxMat, available)
  {
    StandardLoop(alloc, maxMat, NeedOf(alloc, maxMat), 0, Trace(Start(available, |alloc|), [], 0))
  }

  /** What run_standard_with_steps returns. */
  function StandardOutcome(alloc: seq<seq<int>>, maxMat: seq<seq<int>>, available: seq<int>): Outcome
    requires WellFormed(alloc, maxMat, available)
  {
    var run := StandardRun(alloc, maxMat, available);
    var f := run.trace;
    Outcome(f.steps, Metrics(f.comparisons, run.iterations),
            if AllFinished(f.sched.finish) then Some(f.sched.order) else None)
  }

  method RunStandardWithSteps(allocation: seq<seq<int>>, maxMat: seq<seq<int>>, available: seq<int>)
    returns (steps: seq<StepRecord>, metrics: Metrics, safeSeqOrNone: Option<seq<nat>>)
    requires WellFormed(allocation, maxMat, available)
    ensures Outcome(steps, metrics, safeSeqOrNone) == StandardOutcome(allocation, maxMat, available)
    ensures safeSeqOrNone == StaticResult(allocation, maxMat, available)
  {
    var alloc := MatrixCopy(allocation);
    var maxm := MatrixCopy(maxMat);
    var avail := available;
    var need := CountNeed(alloc, maxm);
    var m := |alloc|;
    var n := |avail|;
    var finish := seq(m, _ => false);
    var safeSeq: seq<nat> := [];
    steps := [];
    var totalComparisons := 0;
    var iteration := 0;
    var changed := true;
    ghost var t0 := Trace(Start(available, m), [], 0);
    while changed
      invariant Shaped(alloc, need, Sched(avail, finish, safeSeq)) && |avail| == n
      invariant StandardLoop(alloc, maxm, need, 0, t0) ==
        if changed then StandardLoop(alloc, maxm, need, iteration, Trace(Sched(avail, finish, safeSeq), steps, totalComparisons))
        else Run(Trace(Sched(avail, finish, safeSeq), steps, totalComparisons), iteration)
      decreases Unfinished(finish, 0) + (if changed then 1 else 0)
    {
      changed := false;
      iteration := iteration + 1;
      ghost var before := Trace(Sched(avail, finish, safeSeq), steps, totalComparisons);
      var a0 := MatrixCopy(alloc);
      var m0 := MatrixCopy(maxm);
      var n0 := MatrixCopy(need);
      steps := steps + [StepRecord(Snapshot(iteration - 1), a0, m0, n0, avail, None, None, totalComparisons)];
      ghost var t1 := Trace(Sched(avail, finish, safeSeq), steps, totalComparisons);
      var ran;
      avail, finish, safeSeq, steps, totalComparisons, ran :=
        InstrumentedPass(alloc, maxm, need, iteration - 1, avail, finish, safeSeq, steps, totalComparisons);
      if ran {
        changed := true;
      }
      CountedPassSched(alloc, maxm, need, iteration - 1, 0, t1);
      PassCounts(alloc, need, 0, before.sched);
    }
    metrics := Metrics(totalComparisons, iteration);
    if AllFinished(finish) {
      safeSeqOrNone := Some(safeSeq);
    } else {
      safeSeqOrNone := None;
    }
    StandardMatchesStatic(allocation, maxMat, available);
  }

  /** One pass of either instrumented run over `for i in range(M)`: an
      unfinished process costs N counted comparisons with no short-circuit;
      if it fits it releases its allocation into avail, is marked finished,
      appended to the sequence and logged as "T{k}.exec". `ran` is set when
      somebody executed. */
  method InstrumentedPass(alloc: seq<seq<int>>, maxm: seq<seq<int>>, need: seq<seq<int>>, k: nat,
                          avail0: seq<int>, finish0: seq<bool>, safeSeq0: seq<nat>, steps0: seq<StepRecord>, comparisons0: nat)
    returns (avail: seq<int>, finish: seq<bool>, safeSeq: seq<nat>, steps: seq<StepRecord>, totalComparisons: nat, ran: bool)
    requires Shaped(alloc, need, Sched(avail0, finish0, safeSeq0))
    ensures Trace(Sched(avail, finish, safeSeq), steps, totalComparisons) ==
      CountedPass(alloc, maxm, need, k, 0, Trace(Sched(avail0, finish0, safeSeq0), steps0, comparisons0))
    ensures ran <==> |safeSeq| != |safeSeq0|
  {
    avail, finish, safeSeq, steps, totalComparisons, ran := avail0, finish0, safeSeq0, steps0, comparisons0, false;
    ghost var t0 := Trace(Sched(avail0, finish0, safeSeq0), steps0, comparisons0);
    var m := |alloc|;
    var n := |avail|;
    for i := 0 to m
      invariant Shaped(alloc, need, Sched(avail, finish, safeSeq)) && |avail| == n
      invariant CountedPass(alloc, maxm, need, k, 0, t0) ==
        CountedPass(alloc, maxm, need, k, i, Trace(Sched(avail, finish, safeSeq), steps, totalComparisons))
      invariant |safeSeq0| <= |safeSeq|
      invariant ran <==> |safeSeq| != |safeSeq0|
    {
      if !finish[i] {
        var compCount := 0;
        var canRun := true;
        for j := 0 to n
          invariant compCount == j
          invariant canRun <==> forall c :: 0 <= c < j ==> need[i][c] <= avail[c]
        {
          compCount := compCount + 1;
          if need[i][j] > avail[j] {
            canRun := false;
          }
        }
        totalComparisons := totalComparisons + compCount;
        if canRun {
          avail := AddRow(avail, alloc[i]);
          finish := finish[i := true];
          safeSeq := safeSeq + [i];
          ran := true;
          var a1 := MatrixCopy(alloc);
          var m1 := MatrixCopy(maxm);
          var n1 := MatrixCopy(need);
          steps := steps + [StepRecord(Exec(k), a1, m1, n1, avail, Some(i), None, totalComparisons)];
        }
      }
    }
  }

  /** The admission loop `for vec in arrivals`: a zero allocation row, the
      vector as max row and an unfinished flag per arrival. */
  method AppendArrivals(alloc0: seq<seq<int>>, maxm0: seq<seq<int>>, finish0: seq<bool>, arrivals: seq<seq<int>>, n: nat)
    returns (alloc: seq<seq<int>>, maxm: seq<seq<int>>, finish: seq<bool>)
    ensures alloc == alloc0 + seq(|arrivals|, _ => Zeros(n))
    ensures maxm == maxm0 + arrivals
    ensures finish == finish0 + seq(|arrivals|, _ => false)
  {
    alloc, maxm, finish := alloc0, maxm0, finish0;
    for a := 0 to |arrivals|
      invariant alloc == alloc0 + seq(a, _ => Zeros(n))
      invariant maxm == maxm0 + arrivals[..a]
      invariant finish == finish0 + seq(a, _ => false)
    {
      alloc := alloc + [Zeros(n)];
      maxm := maxm + [arrivals[a]];
      finish := finish + [false];
    }
    assert arrivals[..|arrivals|] == arrivals;
  }

  // ---------------------------------------------------------------------
  // The instrumented pass agrees with the plain one
  // ---------------------------------------------------------------------

  /** Instrumentation does not change the search: the instrumented pass
      moves the search state exactly as the plain pass does. */
  lemma {:induction false} CountedPassSched(alloc: seq<seq<int>>, maxMat: seq<seq<int>>, need: seq<seq<int>>, k: nat, i: nat, t: Trace)
    requires Shaped(alloc, need, t.sched) && i <= |t.sched.finish|
    ensures CountedPass(alloc, maxMat, need, k, i, t).sched == PassFrom(alloc, need, i, t.sched)
    decreases |t.sched.finish| - i
  {
    if i < |t.sched.finish| {
      CountedPassSched(alloc, maxMat, need, k, i + 1, CountedVisit(alloc, maxMat, need, k, i, t));
    }
  }

  /** Checking from process i on costs exactly N comparisons per unfinished
      process at index i or above: there is no short-circuit. */
  lemma {:induction false} CountedPassComparisons(alloc: seq<seq<int>>, maxMat: seq<seq<int>>, need: seq<seq<int>>, k: nat, i: nat, t: Trace)
    requires Shaped(alloc, need, t.sched) && i <= |t.sched.finish|
    ensures CountedPass(alloc, maxMat, need, k, i, t).comparisons ==
      t.comparisons + |t.sched.work| * Unfinished(t.sched.finish, i)
    decreases |t.sched.finish| - i
  {
    if i < |t.sched.finish| {
      var v := CountedVisit(alloc, maxMat, need, k, i, t);
      var n := |t.sched.work|;
      var u := Unfinished(t.sched.finish, i + 1);
      CountedPassComparisons(alloc, maxMat, need, k, i + 1, v);
      if v.sched != t.sched {
        UnfinishedAbove(t.sched.finish, i, true, i + 1);
      }
      assert Unfinished(v.sched.finish, i + 1) == u;
      if !t.sched.finish[i] {
        assert v.comparisons == t.comparisons + n;
        MulSucc(n, u);
      }
    }
  }

  /** The instrumented standard run makes the same passes as the plain one. */
  lemma {:induction false} StandardLoopSched(alloc: seq<seq<int>>, maxMat: seq<seq<int>>, need: seq<seq<int>>, k: nat, t: Trace)
    requires Shaped(alloc, need, t.sched)
    ensures StandardLoop(alloc, maxMat, need, k, t).trace.sched == Fixpoint(alloc, need, t.sched)
    ensures StandardLoop(alloc, maxMat, need, k, t).iterations == k + PassCount(alloc, need, t.sched)
    decreases Unfinished(t.sched.finish, 0)
  {
    var t1 := Trace(t.sched, t.steps + [SnapshotOf(Snapshot(k), alloc, maxMat, need, t)], t.comparisons);
    var p := CountedPass(alloc, maxMat, need, k, 0, t1);
    CountedPassSched(alloc, maxMat, need, k, 0, t1);
    PassCounts(alloc, need, 0, t.sched);
    if |p.sched.order| != |t.sched.order| {
      StandardLoopSched(alloc, maxMat, need, k + 1, p);
    }
  }

  /** run_standard_with_steps returns what is_safe_sequence returns, after
      exactly as many passes as is_safe_sequence makes. */
  lemma StandardMatchesStatic(alloc: seq<seq<int>>, maxMat: seq<seq<int>>, available: seq<int>)
    requires WellFormed(alloc, maxMat, available)
    ensures StandardOutcome(alloc, maxMat, available).safeSeq == StaticResult(alloc, maxMat, available)
    ensures StandardOutcome(alloc, maxMat, available).metrics.totalIterations ==
      PassCount(alloc, NeedOf(alloc, maxMat), Start(available, |alloc|))
  {
    StandardLoopSched(alloc, maxMat, NeedOf(alloc, maxMat), 0, Trace(Start(available, |alloc|), [], 0));
  }

  // ---------------------------------------------------------------------
  // The step log
  // ---------------------------------------------------------------------

  /** The executed process of every exec step, in step order. */
  function Executed(steps: seq<StepRecord>): seq<nat>
    decreases |steps|
  {
    if steps == [] then []
    else
      var last := steps[|steps| - 1];
      Executed(steps[..|steps| - 1]) + (if last.executed.Some? then [last.executed.value] else [])
  }

  /** The pass index of every snapshot step, in step order. */
  function SnapshotIndices(steps: seq<StepRecord>): seq<nat>
    decreases |steps|
  {
    if steps == [] then []
    else
      var last := steps[|steps| - 1];
      SnapshotIndices(steps[..|steps| - 1]) + (if last.tag.Snapshot? then [last.tag.k] else [])
  }

  /** The iteration index of every arrival step, in step order. */
  function ArrivalIndices(steps: seq<StepRecord>): seq<nat>
    decreases |steps|
  {
    if steps == [] then []
    else
      var last := steps[|steps| - 1];
      ArrivalIndices(steps[..|steps| - 1]) + (if last.tag.Arrival? then [last.tag.k] else [])
  }

  /** 0, 1, ..., n-1. */
  function Range(n: nat): seq<nat> {
    seq(n, i => i)
  }

  /** Two consecutive steps: the comparison count does not drop; an exec
      step's available is the previous step's plus the executed process's
      allocation row; any other step repeats the previous available. */
  predicate StepLinked(alloc: seq<seq<int>>, prev: StepRecord, cur: StepRecord) {
    && prev.comparisonsSoFar <= cur.comparisonsSoFar
    && |cur.available| == |prev.available|
    && if cur.executed.Some? then
         && cur.executed.value < |alloc|
         && |alloc[cur.executed.value]| == |prev.available|
         && cur.available == VecAdd(prev.available, alloc[cur.executed.value])
       else cur.available == prev.available
  }

  predicate LogLinked(alloc: seq<seq<int>>, steps: seq<StepRecord>) {
    forall q :: 0 < q < |steps| ==> StepLinked(alloc, steps[q - 1], steps[q])
  }

  /** Appending a step linked to the last one keeps the log linked. */
  lemma LinkedAppend(alloc: seq<seq<int>>, steps: seq<StepRecord>, e: StepRecord)
    requires LogLinked(alloc, steps) && (steps != [] ==> StepLinked(alloc, steps[|steps| - 1], e))
    ensures LogLinked(alloc, steps + [e])
  {
    var s := steps + [e];
    forall q | 0 < q < |s| ensures StepLinked(alloc, s[q - 1], s[q]) {
      if q < |steps| {
        assert s[q - 1] == steps[q - 1] && s[q] == steps[q];
      }
    }
  }

  /** The log agrees with the search: its exec steps list the order, and its
      last step shows the current available vector. */
  predicate Logged(alloc: seq<seq<int>>, t: Trace) {
    && Executed(t.steps) == t.sched.order
    && LogLinked(alloc, t.steps)
    && (t.steps != [] ==>
          && t.steps[|t.steps| - 1].available == t.sched.work
          && t.steps[|t.steps| - 1].comparisonsSoFar <= t.comparisons)
  }

  /** Appending a step that carries the current available vector and no
      execution keeps the log consistent. */
  lemma AppendQuietStep(alloc: seq<seq<int>>, t: Trace, e: StepRecord)
    requires Logged(alloc, t)
    requires e.executed.None? && e.available == t.sched.work && t.comparisons <= e.comparisonsSoFar
    ensures Logged(alloc, Trace(t.sched, t.steps + [e], e.comparisonsSoFar))
    ensures Executed(t.steps + [e]) == Executed(t.steps)
  {
    var steps := t.steps + [e];
    assert steps[..|steps| - 1] == t.steps;
    LinkedAppend(alloc, t.steps, e);
  }

  /** Every step an instrumented pass adds is an exec step of that pass. */
  predicate AllExec(steps: seq<StepRecord>, from: nat, k: nat) {
    forall q :: from <= q < |steps| ==> steps[q].tag == Exec(k) && steps[q].executed.Some?
  }

  lemma CountedVisitLogged(alloc: seq<seq<int>>, maxMat: seq<seq<int>>, need: seq<seq<int>>, k: nat, i: nat, t: Trace)
    requires Shaped(alloc, need, t.sched) && i < |t.sched.finish| && Logged(alloc, t)
    ensures var r := CountedVisit(alloc, maxMat, need, k, i, t);
      && Logged(alloc, r)
      && t.comparisons <= r.comparisons
      && |r.steps| - |t.steps| == |r.sched.order| - |t.sched.order| <= 1
      && r.steps[..|t.steps|] == t.steps
      && AllExec(r.steps, |t.steps|, k)
  {
    var r := CountedVisit(alloc, maxMat, need, k, i, t);
    if |r.steps| != |t.steps| {
      assert r.steps[..|r.steps| - 1] == t.steps;
      LinkedAppend(alloc, t.steps, r.steps[|r.steps| - 1]);
    }
  }

  lemma {:induction false} CountedPassLogged(alloc: seq<seq<int>>, maxMat: seq<seq<int>>, need: seq<seq<int>>, k: nat, i: nat, t: Trace)
    requires Shaped(alloc, need, t.sched) && i <= |t.sched.finish| && Logged(alloc, t)
    ensures var r := CountedPass(alloc, maxMat, need, k, i, t);
      && Logged(alloc, r)
      && t.comparisons <= r.comparisons
      && |t.steps| <= |r.steps|
      && |r.steps| - |t.steps| == |r.sched.order| - |t.sched.order|
      && r.steps[..|t.steps|] == t.steps
      && AllExec(r.steps, |t.steps|, k)
    decreases |t.sched.finish| - i
  {
    if i < |t.sched.finish| {
      var v := CountedVisit(alloc, maxMat, need, k, i, t);
      CountedVisitLogged(alloc, maxMat, need, k, i, t);
      CountedPassLogged(alloc, maxMat, need, k, i + 1, v);
      PassCounts(alloc, need, i + 1, v.sched);
      CountedPassSched(alloc, maxMat, need, k, i + 1, v);
      var r := CountedPass(alloc, maxMat, need, k, i, t);
      assert r.steps[..|v.steps|] == v.steps;
      assert r.steps[..|t.steps|] == v.steps[..|t.steps|];
    }
  }

  /** Exec steps appended to a log add no snapshot and no arrival index. */
  lemma {:induction false} ExecAddsNoIndex(steps: seq<StepRecord>, from: nat, k: nat)
    requires from <= |steps| && AllExec(steps, from, k)
    ensures SnapshotIndices(steps) == SnapshotIndices(steps[..from])
    ensures ArrivalIndices(steps) == ArrivalIndices(steps[..from])
    decreases |steps| - from
  {
    if from < |steps| {
      var init := steps[..|steps| - 1];
      assert AllExec(init, from, k);
      ExecAddsNoIndex(init, from, k);
      assert init[..from] == steps[..from];
    } else {
      assert steps[..from] == steps;
    }
  }

  /** With non-negative allocations, available never decreases along a linked log. */
  lemma LinkedAvailableMonotone(alloc: seq<seq<int>>, steps: seq<StepRecord>)
    requires LogLinked(alloc, steps) && NonNegative(alloc)
    ensures forall q :: 0 < q < |steps| ==> VecLe(steps[q - 1].available, steps[q].available)
  {
    forall q | 0 < q < |steps|
      ensures VecLe(steps[q - 1].available, steps[q].available)
    {
      if steps[q].executed.Some? {
        var x := steps[q].executed.value;
        assert forall j :: 0 <= j < |alloc[x]| ==> alloc[x][j] >= 0;
      }
    }
  }

  /** What the standard loop keeps: the log is consistent and each pass has
      logged exactly one snapshot, T0 .. T{k-1}. */
  lemma {:induction false} StandardLoopLogged(alloc: seq<seq<int>>, maxMat: seq<seq<int>>, need: seq<seq<int>>, k: nat, t: Trace)
    requires Shaped(alloc, need, t.sched) && Logged(alloc, t) && SnapshotIndices(t.steps) == Range(k)
    ensures var run := StandardLoop(alloc, maxMat, need, k, t);
      && Logged(alloc, run.trace)
      && SnapshotIndices(run.trace.steps) == Range(run.iterations)
      && run.iterations >= 1 && run.trace.steps != [] && run.trace.steps[|run.trace.steps| - 1].tag == Snapshot(run.iterations - 1)
    decreases Unfinished(t.sched.finish, 0)
  {
    var t1 := Trace(t.sched, t.steps + [SnapshotOf(Snapshot(k), alloc, maxMat, need, t)], t.comparisons);
    var p := CountedPass(alloc, maxMat, need, k, 0, t1);
    StandardIterationLogged(alloc, maxMat, need, k, t);
    CountedPassSched(alloc, maxMat, need, k, 0, t1);
    PassCounts(alloc, need, 0, t.sched);
    if |p.sched.order| != |t.sched.order| {
      StandardLoopLogged(alloc, maxMat, need, k + 1, p);
    }
  }

  /** One pass of the standard loop: snapshot T{k}, then the pass's exec
      steps; a pass that executes nobody leaves the snapshot last. */
  lemma StandardIterationLogged(alloc: seq<seq<int>>, maxMat: seq<seq<int>>, need: seq<seq<int>>, k: nat, t: Trace)
    requires Shaped(alloc, need, t.sched) && Logged(alloc, t) && SnapshotIndices(t.steps) == Range(k)
    ensures var e := SnapshotOf(Snapshot(k), alloc, maxMat, need, t);
      var t1 := Trace(t.sched, t.steps + [e], t.comparisons);
      var p := CountedPass(alloc, maxMat, need, k, 0, t1);
      && Logged(alloc, p)
      && SnapshotIndices(p.steps) == Range(k + 1)
      && (|p.sched.order| == |t.sched.order| ==> p.steps == t1.steps)
  {
    var e := SnapshotOf(Snapshot(k), alloc, maxMat, need, t);
    var t1 := Trace(t.sched, t.steps + [e], t.comparisons);
    AppendQuietStep(alloc, t, e);
    var steps1 := t.steps + [e];
    assert steps1[..|steps1| - 1] == t.steps;
    assert SnapshotIndices(steps1) == Range(k + 1);
    var p := CountedPass(alloc, maxMat, need, k, 0, t1);
    CountedPassLogged(alloc, maxMat, need, k, 0, t1);
    ExecAddsNoIndex(p.steps, |steps1|, k);
    if |p.sched.order| == |t.sched.order| {
      assert p.steps == p.steps[..|steps1|];
    }
  }

  /** The step log of run_standard_with_steps: one snapshot T{k} per pass and
      as many as the iteration counter says; the exec steps list the
      completion order, so the safe sequence when there is one; the last
      step is the snapshot of the final pass, which executes nobody; the
      comparison count never drops along the log and an exec step's
      available is the previous step's plus the executed process's row. */
  lemma StandardStepLog(alloc: seq<seq<int>>, maxMat: seq<seq<int>>, available: seq<int>)
    requires WellFormed(alloc, maxMat, available)
    ensures var o := StandardOutcome(alloc, maxMat, available);
      && SnapshotIndices(o.steps) == Range(o.metrics.totalIterations)
      && o.metrics.totalIterations >= 1 && o.steps != [] && o.steps[|o.steps| - 1].tag == Snapshot(o.metrics.totalIterations - 1)
      && (o.safeSeq.Some? ==> Executed(o.steps) == o.safeSeq.value)
      && LogLinked(alloc, o.steps)
  {
    var t0 := Trace(Start(available, |alloc|), [], 0);
    StandardLoopLogged(alloc, maxMat, NeedOf(alloc, maxMat), 0, t0);
  }

  /** With non-negative allocations, available never decreases along the
      standard run's log. */
  lemma StandardAvailableMonotone(alloc: seq<seq<int>>, maxMat: seq<seq<int>>, available: seq<int>)
    requires WellFormed(alloc, maxMat, available) && NonNegative(alloc)
    ensures var steps := StandardOutcome(alloc, maxMat, available).steps;
      forall q :: 0 < q < |steps| ==> VecLe(steps[q - 1].available, steps[q].available)
  {
    StandardStepLog(alloc, maxMat, available);
    LinkedAvailableMonotone(alloc, StandardOutcome(alloc, maxMat, available).steps);
  }

  /** The number of processes checked over all passes of the plain search:
      every pass checks each process that is unfinished when it starts. */
  function ChecksMade(alloc: seq<seq<int>>, need: seq<seq<int>>, s: Sched): nat
    requires Shaped(alloc, need, s)
    decreases Unfinished(s.finish, 0)
  {
    var p := PassFrom(alloc, need, 0, s);
    PassCounts(alloc, need, 0, s);
    Unfinished(s.finish, 0) + if |p.order| == |s.order| then 0 else ChecksMade(alloc, need, p)
  }

  lemma {:induction false} StandardLoopComparisons(alloc: seq<seq<int>>, maxMat: seq<seq<int>>, need: seq<seq<int>>, k: nat, t: Trace)
    requires Shaped(alloc, need, t.sched)
    ensures StandardLoop(alloc, maxMat, need, k, t).trace.comparisons ==
      t.comparisons + |t.sched.work| * ChecksMade(alloc, need, t.sched)
    decreases Unfinished(t.sched.finish, 0)
  {
    var t1 := Trace(t.sched, t.steps + [SnapshotOf(Snapshot(k), alloc, maxMat, need, t)], t.comparisons);
    var p := CountedPass(alloc, maxMat, need, k, 0, t1);
    var n := |t.sched.work|;
    CountedPassSched(alloc, maxMat, need, k, 0, t1);
    CountedPassComparisons(alloc, maxMat, need, k, 0, t1);
    PassCounts(alloc, need, 0, t.sched);
    if |p.sched.order| != |t.sched.order| {
      StandardLoopComparisons(alloc, maxMat, need, k + 1, p);
      MulAdd(n, Unfinished(t.sched.finish, 0), ChecksMade(alloc, need, p.sched));
    }
  }

  /** total_comparisons is N times the number of processes checked. */
  lemma StandardComparisons(alloc: seq<seq<int>>, maxMat: seq<seq<int>>, available: seq<int>)
    requires WellFormed(alloc, maxMat, available)
    ensures StandardOutcome(alloc, maxMat, available).metrics.totalComparisons ==
      |available| * ChecksMade(alloc, NeedOf(alloc, maxMat), Start(available, |alloc|))
  {
    StandardLoopComparisons(alloc, maxMat, NeedOf(alloc, maxMat), 0, Trace(Start(available, |alloc|), [], 0));
  }

  // ---------------------------------------------------------------------
  // run_dynamic_with_steps
  // ---------------------------------------------------------------------

  /** `arrival_schedule.get(k, [])`: the max vectors arriving at iteration k. */
  function Arrivals(schedule: map<int, seq<seq<int>>>, k: nat): seq<seq<int>> {
    if k in schedule then schedule[k] else []
  }

  /** Every vector scheduled at an iteration index (a key >= 0) has one
      entry per resource type; negative keys are never looked up. */
  predicate ScheduleFits(schedule: map<int, seq<seq<int>>>, n: nat) {
    forall key :: key in schedule && key >= 0 ==> Rows(schedule[key], n)
  }

  /** The schedule keys the loop may still reach from iteration k. */
  function KeysFrom(schedule: map<int, seq<seq<int>>>, k: nat): set<int> {
    set key | key in schedule && k <= key
  }

  function Pending(schedule: map<int, seq<seq<int>>>, k: nat): nat {
    |KeysFrom(schedule, k)|
  }

  lemma PendingStep(schedule: map<int, seq<seq<int>>>, k: nat)
    ensures Pending(schedule, k + 1) <= Pending(schedule, k)
    ensures k in schedule ==> Pending(schedule, k + 1) < Pending(schedule, k)
  {
    var later := KeysFrom(schedule, k + 1);
    var now := KeysFrom(schedule, k);
    if k in schedule {
      assert now == later + {k};
    } else {
      assert now == later;
    }
  }

  /** The state of the dynamic run between iterations. */
  datatype DynState = DynState(alloc: seq<seq<int>>, maxMat: seq<seq<int>>, need: seq<seq<int>>, trace: Trace, iteration: nat)

  /** A state together with the value of loop_stuck. */
  datatype DynEnd = DynEnd(state: DynState, stuck: bool)

  /** At least one process, M x N allocation, max and need, need = max - allocation. */
  predicate DynShaped(st: DynState) {
    && |st.alloc| >= 1
    && Shaped(st.alloc, st.need, st.trace.sched)
    && IsMatrix(st.maxMat, |st.alloc|, |st.trace.sched.work|)
    && st.need == NeedOf(st.alloc, st.maxMat)
  }

  /** Admitting the processes `vecs`: each gets a zero allocation row, its
      vector as max row and an unfinished flag; need is recomputed and one
      arrival step carrying `vecs` is logged. */
  function Admit(st: DynState, vecs: seq<seq<int>>): (r: DynState)
    requires DynShaped(st) && Rows(vecs, |st.trace.sched.work|)
    ensures DynShaped(r) && |r.trace.sched.work| == |st.trace.sched.work|
  {
    var s := st.trace.sched;
    var alloc := st.alloc + seq(|vecs|, _ => Zeros(|s.work|));
    var maxMat := st.maxMat + vecs;
    var need := NeedOf(alloc, maxMat);
    DynState(alloc, maxMat, need,
      Trace(Sched(s.work, s.finish + seq(|vecs|, _ => false), s.order),
            st.trace.steps + [StepRecord(Arrival(st.iteration), alloc, maxMat, need, s.work, None, Some(vecs), st.trace.comparisons)],
            st.trace.comparisons),
      st.iteration)
  }

  /** The state after the admissions of iteration k, if any. */
  function Admitted(schedule: map<int, seq<seq<int>>>, st: DynState): (r: DynState)
    requires DynShaped(st) && ScheduleFits(schedule, |st.trace.sched.work|)
    ensures DynShaped(r) && |r.trace.sched.work| == |st.trace.sched.work|
  {
    var vecs := Arrivals(schedule, st.iteration);
    if vecs != [] then Admit(st, vecs) else st
  }

  /** One iteration: admissions, the snapshot "T{k}", one instrumented pass;
      loop_stuck is then set exactly when the pass executed nobody. */
  function DynIteration(schedule: map<int, seq<seq<int>>>, st: DynState): (r: DynEnd)
    requires DynShaped(st) && ScheduleFits(schedule, |st.trace.sched.work|)
    ensures DynShaped(r.state) && |r.state.trace.sched.work| == |st.trace.sched.work|
    ensures r.state.iteration == st.iteration + 1
  {
    var k := st.iteration;
    var a := Admitted(schedule, st);
    var t1 := Trace(a.trace.sched, a.trace.steps + [SnapshotOf(Snapshot(k), a.alloc, a.maxMat, a.need, a.trace)], a.trace.comparisons);
    var p := CountedPass(a.alloc, a.maxMat, a.need, k, 0, t1);
    DynEnd(DynState(a.alloc, a.maxMat, a.need, p, k + 1), |p.sched.order| == |a.trace.sched.order|)
  }

  /** Either a scheduled key is passed, or the number of unfinished processes
      drops, or the iteration is stuck. */
  lemma DynIterationProgress(schedule: map<int, seq<seq<int>>>, st: DynState)
    requires DynShaped(st) && ScheduleFits(schedule, |st.trace.sched.work|)
    ensures var r := DynIteration(schedule, st);
      || Pending(schedule, r.state.iteration) < Pending(schedule, st.iteration)
      || (&& Pending(schedule, r.state.iteration) == Pending(schedule, st.iteration)
          && Unfinished(r.state.trace.sched.finish, 0) + (if r.stuck then 0 else 1) <= Unfinished(st.trace.sched.finish, 0))
  {
    var k := st.iteration;
    var a := Admitted(schedule, st);
    var t1 := Trace(a.trace.sched, a.trace.steps + [SnapshotOf(Snapshot(k), a.alloc, a.maxMat, a.need, a.trace)], a.trace.comparisons);
    PendingStep(schedule, k);
    CountedPassSched(a.alloc, a.maxMat, a.need, k, 0, t1);
    PassCounts(a.alloc, a.need, 0, a.trace.sched);
  }

  /** The while loop: it runs while some process is unfinished and
      loop_stuck is false; the `all(finish)` break exits exactly when the
      loop condition would. */
  function DynLoop(schedule: map<int, seq<seq<int>>>, st: DynState, stuck: bool): (r: DynEnd)
    requires DynShaped(st) && ScheduleFits(schedule, |st.trace.sched.work|)
    ensures DynShaped(r.state) && |r.state.trace.sched.work| == |st.trace.sched.work|
    decreases Pending(schedule, st.iteration), Unfinished(st.trace.sched.finish, 0) + (if stuck then 0 else 1)
  {
    if AllFinished(st.trace.sched.finish) || stuck then DynEnd(st, stuck)
    else
      var r := DynIteration(schedule, st);
      DynIterationProgress(schedule, st);
      DynLoop(schedule, r.state, r.stuck)
  }

  function DynStart(alloc: seq<seq<int>>, maxMat: seq<seq<int>>, available: seq<int>): (r: DynState)
    requires WellFormed(alloc, maxMat, available)
    ensures DynShaped(r)
  {
    DynState(alloc, maxMat, NeedOf(alloc, maxMat), Trace(Start(available, |alloc|), [], 0), 0)
  }

  function DynamicFinal(alloc: seq<seq<int>>, maxMat: seq<seq<int>>, available: seq<int>, schedule: map<int, seq<seq<int>>>): DynEnd
    requires WellFormed(alloc, maxMat, available) && ScheduleFits(schedule, |available|)
  {
    DynLoop(schedule, DynStart(alloc, maxMat, available), false)
  }

  /** What run_dynamic_with_steps returns: None exactly when loop_stuck is set. */
  function DynamicOutcome(alloc: seq<seq<int>>, maxMat: seq<seq<int>>, available: seq<int>, schedule: map<int, seq<seq<int>>>): Outcome
    requires WellFormed(alloc, maxMat, available) && ScheduleFits(schedule, |available|)
  {
    var f := DynamicFinal(alloc, maxMat, available, schedule);
    var t := f.state.trace;
    Outcome(t.steps, Metrics(t.comparisons, f.state.iteration), if f.stuck then None else Some(t.sched.order))
  }

  /** The body of the `while` loop of run_dynamic_with_steps for iteration k:
      the arrival block, the snapshot "T{k}" and one instrumented pass; the
      returned flag is loop_stuck at the end of the iteration. */
  method DynamicIteration(schedule: map<int, seq<seq<int>>>, alloc0: seq<seq<int>>, maxm0: seq<seq<int>>, need0: seq<seq<int>>,
                          avail0: seq<int>, finish0: seq<bool>, safeSeq0: seq<nat>, steps0: seq<StepRecord>, comparisons0: nat, k: nat)
    returns (alloc: seq<seq<int>>, maxm: seq<seq<int>>, need: seq<seq<int>>, avail: seq<int>, finish: seq<bool>,
             safeSeq: seq<nat>, steps: seq<StepRecord>, totalComparisons: nat, loopStuck: bool)
    requires DynShaped(DynState(alloc0, maxm0, need0, Trace(Sched(avail0, finish0, safeSeq0), steps0, comparisons0), k))
    requires ScheduleFits(schedule, |avail0|)
    ensures DynEnd(DynState(alloc, maxm, need, Trace(Sched(avail, finish, safeSeq), steps, totalComparisons), k + 1), loopStuck) ==
      DynIteration(schedule, DynState(alloc0, maxm0, need0, Trace(Sched(avail0, finish0, safeSeq0), steps0, comparisons0), k))
  {
    var arrived;
    alloc, maxm, need, finish, steps, arrived :=
      AdmitArrivals(schedule, alloc0, maxm0, need0, avail0, finish0, safeSeq0, steps0, comparisons0, k);
    loopStuck := false;
    if arrived {
      loopStuck := true;
    }
    var a0 := MatrixCopy(alloc);
    var m0 := MatrixCopy(maxm);
    var n0 := MatrixCopy(need);
    steps := steps + [StepRecord(Snapshot(k), a0, m0, n0, avail0, None, None, comparisons0)];
    loopStuck := true;
    var ran;
    avail, finish, safeSeq, steps, totalComparisons, ran :=
      InstrumentedPass(alloc, maxm, need, k, avail0, finish, safeSeq0, steps, comparisons0);
    if ran {
      loopStuck := false;
    }
  }

  method RunDynamicWithSteps(allocation: seq<seq<int>>, maxMat: seq<seq<int>>, available: seq<int>, arrivalSchedule: map<int, seq<seq<int>>>)
    returns (steps: seq<StepRecord>, metrics: Metrics, safeSeqOrNone: Option<seq<nat>>)
    requires WellFormed(allocation, maxMat, available) && ScheduleFits(arrivalSchedule, |available|)
    ensures Outcome(steps, metrics, safeSeqOrNone) == DynamicOutcome(allocation, maxMat, available, arrivalSchedule)
  {
    var alloc := MatrixCopy(allocation);
    var maxm := MatrixCopy(maxMat);
    var avail := available;
    var need := CountNeed(alloc, maxm);
    var m := |alloc|;
    var n := |avail|;
    var finish := seq(m, _ => false);
    var safeSeq: seq<nat> := [];
    steps := [];
    var totalComparisons := 0;
    var iteration := 0;
    var loopStuck := false;
    ghost var st0 := DynStart(allocation, maxMat, available);
    while false in finish && !loopStuck
      invariant m == |alloc| && |avail| == n
      invariant DynShaped(DynState(alloc, maxm, need, Trace(Sched(avail, finish, safeSeq), steps, totalComparisons), iteration))
      invariant DynLoop(arrivalSchedule, st0, false) ==
        DynLoop(arrivalSchedule, DynState(alloc, maxm, need, Trace(Sched(avail, finish, safeSeq), steps, totalComparisons), iteration), loopStuck)
      decreases Pending(arrivalSchedule, iteration), Unfinished(finish, 0) + (if loopStuck then 0 else 1)
    {
      ghost var st := DynState(alloc, maxm, need, Trace(Sched(avail, finish, safeSeq), steps, totalComparisons), iteration);
      alloc, maxm, need, avail, finish, safeSeq, steps, totalComparisons, loopStuck :=
        DynamicIteration(arrivalSchedule, alloc, maxm, need, avail, finish, safeSeq, steps, totalComparisons, iteration);
      m := |alloc|;
      DynIterationProgress(arrivalSchedule, st);
      iteration := iteration + 1;
      if AllFinished(finish) {
        break;
      }
    }
    metrics := Metrics(totalComparisons, iteration);
    if loopStuck {
      safeSeqOrNone := None;
    } else {
      safeSeqOrNone := Some(safeSeq);
    }
  }

  /** The arrival block at the head of iteration k: the processes scheduled
      for k are appended and one arrival step is logged; `arrived` says
      whether there were any. */
  method AdmitArrivals(schedule: map<int, seq<seq<int>>>, alloc0: seq<seq<int>>, maxm0: seq<seq<int>>, need0: seq<seq<int>>,
                       avail: seq<int>, finish0: seq<bool>, safeSeq: seq<nat>, steps0: seq<StepRecord>, comparisons: nat, k: nat)
    returns (alloc: seq<seq<int>>, maxm: seq<seq<int>>, need: seq<seq<int>>, finish: seq<bool>, steps: seq<StepRecord>, arrived: bool)
    requires DynShaped(DynState(alloc0, maxm0, need0, Trace(Sched(avail, finish0, safeSeq), steps0, comparisons), k))
    requires ScheduleFits(schedule, |avail|)
    ensures DynState(alloc, maxm, need, Trace(Sched(avail, finish, safeSeq), steps, comparisons), k) ==
      Admitted(schedule, DynState(alloc0, maxm0, need0, Trace(Sched(avail, finish0, safeSeq), steps0, comparisons), k))
    ensures arrived <==> Arrivals(schedule, k) != []
  {
    var n := |avail|;
    alloc, maxm, need, finish, steps := alloc0, maxm0, need0, finish0, steps0;
    var arrivals := if k in schedule then schedule[k] else [];
    arrived := arrivals != [];
    if arrived {
      alloc, maxm, finish := AppendArrivals(alloc, maxm, finish, arrivals, n);
      need := CountNeed(alloc, maxm);
      var a1 := MatrixCopy(alloc);
      var m1 := MatrixCopy(maxm);
      var n1 := MatrixCopy(need);
      steps := steps + [StepRecord(Arrival(k), a1, m1, n1, avail, None, Some(arrivals), comparisons)];
    }
  }

  // ---------------------------------------------------------------------
  // What run_dynamic_with_steps promises
  // ---------------------------------------------------------------------

  /** Admitting processes keeps the search consistent: the new processes are
      unfinished, hold nothing and are not in the sequence. */
  lemma AdmitConsistent(available: seq<int>, st: DynState, vecs: seq<seq<int>>)
    requires DynShaped(st) && Rows(vecs, |st.trace.sched.work|)
    requires Consistent(st.alloc, st.need, available, st.trace.sched)
    ensures var a := Admit(st, vecs); Consistent(a.alloc, a.need, available, a.trace.sched)
  {
    var a := Admit(st, vecs);
    var s := st.trace.sched;
    var n := |s.work|;
    UnfinishedAppend(s.finish, |vecs|, 0);
    SumWhereAppend(st.alloc, a.alloc, s.finish, |vecs|, n);
    assert forall x :: 0 <= x < |st.alloc| ==> a.alloc[x] == st.alloc[x] && a.need[x] == st.need[x];
    ReplayFrame(st.alloc, st.need, a.alloc, a.need, available, s.order);
  }

  lemma DynIterationConsistent(schedule: map<int, seq<seq<int>>>, available: seq<int>, st: DynState)
    requires DynShaped(st) && ScheduleFits(schedule, |st.trace.sched.work|)
    requires Consistent(st.alloc, st.need, available, st.trace.sched)
    ensures var r := DynIteration(schedule, st).state; Consistent(r.alloc, r.need, available, r.trace.sched)
  {
    var k := st.iteration;
    var a := Admitted(schedule, st);
    if Arrivals(schedule, k) != [] {
      AdmitConsistent(available, st, Arrivals(schedule, k));
    }
    var t1 := Trace(a.trace.sched, a.trace.steps + [SnapshotOf(Snapshot(k), a.alloc, a.maxMat, a.need, a.trace)], a.trace.comparisons);
    CountedPassSched(a.alloc, a.maxMat, a.need, k, 0, t1);
    PassConsistent(a.alloc, a.need, available, 0, a.trace.sched);
  }

  lemma {:induction false} DynLoopConsistent(schedule: map<int, seq<seq<int>>>, available: seq<int>, st: DynState, stuck: bool)
    requires DynShaped(st) && ScheduleFits(schedule, |st.trace.sched.work|)
    requires Consistent(st.alloc, st.need, available, st.trace.sched)
    ensures var r := DynLoop(schedule, st, stuck).state; Consistent(r.alloc, r.need, available, r.trace.sched)
    decreases Pending(schedule, st.iteration), Unfinished(st.trace.sched.finish, 0) + (if stuck then 0 else 1)
  {
    if !(AllFinished(st.trace.sched.finish) || stuck) {
      var r := DynIteration(schedule, st);
      DynIterationProgress(schedule, st);
      DynIterationConsistent(schedule, available, st);
      DynLoopConsistent(schedule, available, r.state, r.stuck);
    }
  }

  /** An iteration that starts with an unfinished process and executes
      nobody leaves an unfinished process, arrivals or not. */
  lemma DynIterationStuck(schedule: map<int, seq<seq<int>>>, st: DynState)
    requires DynShaped(st) && ScheduleFits(schedule, |st.trace.sched.work|)
    requires !AllFinished(st.trace.sched.finish)
    ensures var r := DynIteration(schedule, st); r.stuck ==> !AllFinished(r.state.trace.sched.finish)
  {
    var k := st.iteration;
    var a := Admitted(schedule, st);
    var f := st.trace.sched.finish;
    UnfinishedZero(f, 0);
    if Arrivals(schedule, k) != [] {
      UnfinishedAppend(f, |Arrivals(schedule, k)|, 0);
    }
    var t1 := Trace(a.trace.sched, a.trace.steps + [SnapshotOf(Snapshot(k), a.alloc, a.maxMat, a.need, a.trace)], a.trace.comparisons);
    CountedPassSched(a.alloc, a.maxMat, a.need, k, 0, t1);
    PassCounts(a.alloc, a.need, 0, a.trace.sched);
    UnfinishedZero(DynIteration(schedule, st).state.trace.sched.finish, 0);
  }

  lemma {:induction false} DynLoopStuck(schedule: map<int, seq<seq<int>>>, st: DynState, stuck: bool)
    requires DynShaped(st) && ScheduleFits(schedule, |st.trace.sched.work|)
    requires stuck ==> !AllFinished(st.trace.sched.finish)
    ensures var r := DynLoop(schedule, st, stuck); r.stuck <==> !AllFinished(r.state.trace.sched.finish)
    decreases Pending(schedule, st.iteration), Unfinished(st.trace.sched.finish, 0) + (if stuck then 0 else 1)
  {
    if !(AllFinished(st.trace.sched.finish) || stuck) {
      var r := DynIteration(schedule, st);
      DynIterationProgress(schedule, st);
      DynIterationStuck(schedule, st);
      DynLoopStuck(schedule, r.state, r.stuck);
    }
  }

  /** The result of run_dynamic_with_steps is None exactly when some process,
      original or arrived, is unfinished at the end. A returned sequence lists
      every process 0 .. M_final-1 once and replays successfully from
      available over the final matrices; at the end available is the initial
      vector plus the allocations of the finished processes. */
  lemma DynamicResult(alloc: seq<seq<int>>, maxMat: seq<seq<int>>, available: seq<int>, schedule: map<int, seq<seq<int>>>)
    requires WellFormed(alloc, maxMat, available) && ScheduleFits(schedule, |available|)
    ensures var f := DynamicFinal(alloc, maxMat, available, schedule).state;
      var o := DynamicOutcome(alloc, maxMat, available, schedule);
      && (o.safeSeq.None? <==> !AllFinished(f.trace.sched.finish))
      && f.trace.sched.work == VecAdd(available, SumWhere(f.alloc, f.trace.sched.finish, |available|))
      && (o.safeSeq.Some? ==>
            && IsPermutationOfRange(o.safeSeq.value, |f.alloc|)
            && Replay(f.alloc, f.need, available, o.safeSeq.value) == Some(f.trace.sched.work))
  {
    var st0 := DynStart(alloc, maxMat, available);
    StartConsistent(alloc, maxMat, available);
    DynLoopConsistent(schedule, available, st0, false);
    DynLoopStuck(schedule, st0, false);
    var e := DynamicFinal(alloc, maxMat, available, schedule);
    var f := e.state;
    assert DynamicOutcome(alloc, maxMat, available, schedule).safeSeq == if e.stuck then None else Some(f.trace.sched.order);
    if AllFinished(f.trace.sched.finish) {
      ConsistentComplete(f.alloc, f.need, available, f.trace.sched);
    }
  }

  /** The max vectors admitted at iterations 0 .. k-1, in order. */
  function Arrived(schedule: map<int, seq<seq<int>>>, k: nat): seq<seq<int>> {
    if k == 0 then [] else Arrived(schedule, k - 1) + Arrivals(schedule, k - 1)
  }

  /** c zero allocation rows of n entries. */
  function ZeroRows(c: nat, n: nat): seq<seq<int>> {
    seq(c, _ => Zeros(n))
  }

  /** Rows are only ever appended: allocation gains a zero row and max gains
      the arrival vector for each arrival admitted so far. */
  predicate RowsAppended(schedule: map<int, seq<seq<int>>>, alloc0: seq<seq<int>>, maxMat0: seq<seq<int>>, n: nat, st: DynState) {
    && st.alloc == alloc0 + ZeroRows(|Arrived(schedule, st.iteration)|, n)
    && st.maxMat == maxMat0 + Arrived(schedule, st.iteration)
  }

  lemma DynIterationRows(schedule: map<int, seq<seq<int>>>, alloc0: seq<seq<int>>, maxMat0: seq<seq<int>>, st: DynState)
    requires DynShaped(st) && ScheduleFits(schedule, |st.trace.sched.work|)
    requires RowsAppended(schedule, alloc0, maxMat0, |st.trace.sched.work|, st)
    ensures RowsAppended(schedule, alloc0, maxMat0, |st.trace.sched.work|, DynIteration(schedule, st).state)
  {
    var n := |st.trace.sched.work|;
    var k := st.iteration;
    var c := |Arrived(schedule, k)|;
    var d := |Arrivals(schedule, k)|;
    assert ZeroRows(c, n) + ZeroRows(d, n) == ZeroRows(c + d, n);
  }

  lemma {:induction false} DynLoopRows(schedule: map<int, seq<seq<int>>>, alloc0: seq<seq<int>>, maxMat0: seq<seq<int>>, st: DynState, stuck: bool)
    requires DynShaped(st) && ScheduleFits(schedule, |st.trace.sched.work|)
    requires RowsAppended(schedule, alloc0, maxMat0, |st.trace.sched.work|, st)
    ensures RowsAppended(schedule, alloc0, maxMat0, |st.trace.sched.work|, DynLoop(schedule, st, stuck).state)
    decreases Pending(schedule, st.iteration), Unfinished(st.trace.sched.finish, 0) + (if stuck then 0 else 1)
  {
    if !(AllFinished(st.trace.sched.finish) || stuck) {
      var r := DynIteration(schedule, st);
      DynIterationProgress(schedule, st);
      DynIterationRows(schedule, alloc0, maxMat0, st);
      DynLoopRows(schedule, alloc0, maxMat0, r.state, r.stuck);
    }
  }

  /** The caller's rows are kept and only appended to: the final allocation
      is the initial one plus a zero row per admitted arrival, and the final
      max is the initial one plus the vectors scheduled at the iterations the
      loop reached, 0 .. total_iterations-1, in order; keys from
      total_iterations on are never admitted. */
  lemma DynamicRows(alloc: seq<seq<int>>, maxMat: seq<seq<int>>, available: seq<int>, schedule: map<int, seq<seq<int>>>)
    requires WellFormed(alloc, maxMat, available) && ScheduleFits(schedule, |available|)
    ensures var f := DynamicFinal(alloc, maxMat, available, schedule).state;
      && f.alloc == alloc + ZeroRows(|Arrived(schedule, f.iteration)|, |available|)
      && f.maxMat == maxMat + Arrived(schedule, f.iteration)
  {
    var st0 := DynStart(alloc, maxMat, available);
    assert ZeroRows(0, |available|) == [];
    DynLoopRows(schedule, alloc, maxMat, st0, false);
  }

  /** The iterations below k whose schedule entry is non-empty. */
  function ArrivalTimes(schedule: map<int, seq<seq<int>>>, k: nat): seq<nat> {
    if k == 0 then [] else ArrivalTimes(schedule, k - 1) + (if Arrivals(schedule, k - 1) != [] then [k - 1] else [])
  }

  /** Every arrival step carries the vectors scheduled for its iteration and
      is directly followed by that iteration's snapshot. */
  predicate ArrivalsLogged(schedule: map<int, seq<seq<int>>>, steps: seq<StepRecord>) {
    forall q :: 0 <= q < |steps| && steps[q].tag.Arrival? ==>
      && q + 1 < |steps|
      && steps[q + 1].tag == Snapshot(steps[q].tag.k)
      && steps[q].arrivals == Some(Arrivals(schedule, steps[q].tag.k))
  }

  /** What the log of the dynamic run keeps between iterations. */
  predicate DynLogged(schedule: map<int, seq<seq<int>>>, st: DynState) {
    && Logged(st.alloc, st.trace)
    && SnapshotIndices(st.trace.steps) == Range(st.iteration)
    && ArrivalIndices(st.trace.steps) == ArrivalTimes(schedule, st.iteration)
    && ArrivalsLogged(schedule, st.trace.steps)
  }

  /** A log stays linked when processes are appended to the allocation. */
  lemma LinkedExtend(alloc: seq<seq<int>>, alloc': seq<seq<int>>, steps: seq<StepRecord>)
    requires LogLinked(alloc, steps) && |alloc| <= |alloc'| && alloc'[..|alloc|] == alloc
    ensures LogLinked(alloc', steps)
  {
    forall q | 0 < q < |steps| ensures StepLinked(alloc', steps[q - 1], steps[q]) {
      assert StepLinked(alloc, steps[q - 1], steps[q]);
      if steps[q].executed.Some? {
        assert alloc'[steps[q].executed.value] == alloc[steps[q].executed.value];
      }
    }
  }

  /** The admissions of one iteration: at most one quiet arrival step. */
  lemma AdmittedLogged(schedule: map<int, seq<seq<int>>>, st: DynState)
    requires DynShaped(st) && ScheduleFits(schedule, |st.trace.sched.work|) && DynLogged(schedule, st)
    ensures var a := Admitted(schedule, st);
      && Logged(a.alloc, a.trace)
      && a.trace.sched.order == st.trace.sched.order
      && a.trace.steps[..|st.trace.steps|] == st.trace.steps
      && SnapshotIndices(a.trace.steps) == Range(st.iteration)
      && ArrivalIndices(a.trace.steps) == ArrivalTimes(schedule, st.iteration + 1)
      && (Arrivals(schedule, st.iteration) == [] ==> a.trace.steps == st.trace.steps)
      && (Arrivals(schedule, st.iteration) != [] ==>
            && |a.trace.steps| == |st.trace.steps| + 1
            && a.trace.steps[|st.trace.steps|].tag == Arrival(st.iteration)
            && a.trace.steps[|st.trace.steps|].arrivals == Some(Arrivals(schedule, st.iteration)))
  {
    var k := st.iteration;
    var vecs := Arrivals(schedule, k);
    if vecs != [] {
      var a := Admit(st, vecs);
      var t := st.trace;
      LinkedExtend(st.alloc, a.alloc, t.steps);
      var e := a.trace.steps[|t.steps|];
      AppendQuietStep(a.alloc, Trace(a.trace.sched, t.steps, t.comparisons), e);
      assert a.trace.steps[..|a.trace.steps| - 1] == t.steps;
    }
  }

  /** After an iteration's optional arrival step, its snapshot and its exec
      steps, every arrival step is still followed by its snapshot. */
  lemma ArrivalsLoggedStep(schedule: map<int, seq<seq<int>>>, prior: seq<StepRecord>, extra: seq<StepRecord>, e: StepRecord,
                           all: seq<StepRecord>, k: nat)
    requires ArrivalsLogged(schedule, prior)
    requires |extra| <= 1 && forall q :: 0 <= q < |extra| ==> extra[q].tag == Arrival(k) && extra[q].arrivals == Some(Arrivals(schedule, k))
    requires e.tag == Snapshot(k)
    requires |prior + extra + [e]| <= |all| && all[..|prior + extra + [e]|] == prior + extra + [e]
    requires AllExec(all, |prior + extra + [e]|, k)
    ensures ArrivalsLogged(schedule, all)
  {
    var head := prior + extra + [e];
    forall q | 0 <= q < |all| && all[q].tag.Arrival?
      ensures q + 1 < |all| && all[q + 1].tag == Snapshot(all[q].tag.k)
      ensures all[q].arrivals == Some(Arrivals(schedule, all[q].tag.k))
    {
      assert q < |head| - 1;
      assert all[q] == head[q] && all[q + 1] == head[q + 1];
      if q < |prior| {
        assert head[q] == prior[q];
        if q + 1 < |prior| {
          assert head[q + 1] == prior[q + 1];
        }
      } else {
        assert head[q] == extra[q - |prior|] && head[q + 1] == e;
      }
    }
  }

  /** Appending the snapshot "T{k}" adds k to the snapshot indices and no arrival index. */
  lemma SnapshotAppended(steps: seq<StepRecord>, e: StepRecord, k: nat)
    requires e.tag == Snapshot(k) && SnapshotIndices(steps) == Range(k)
    ensures SnapshotIndices(steps + [e]) == Range(k + 1)
    ensures ArrivalIndices(steps + [e]) == ArrivalIndices(steps)
  {
    assert (steps + [e])[..|steps|] == steps;
    assert Range(k) + [k] == Range(k + 1);
  }

  /** The log after the admissions and the snapshot "T{k}" of iteration k. */
  lemma SnapshotLogged(schedule: map<int, seq<seq<int>>>, st: DynState)
    requires DynShaped(st) && ScheduleFits(schedule, |st.trace.sched.work|) && DynLogged(schedule, st)
    ensures var k := st.iteration;
      var a := Admitted(schedule, st);
      var e := SnapshotOf(Snapshot(k), a.alloc, a.maxMat, a.need, a.trace);
      var t1 := Trace(a.trace.sched, a.trace.steps + [e], a.trace.comparisons);
      && Logged(a.alloc, t1)
      && SnapshotIndices(t1.steps) == Range(k + 1)
      && ArrivalIndices(t1.steps) == ArrivalTimes(schedule, k + 1)
      && ArrivalsLogged(schedule, t1.steps)
  {
    var k := st.iteration;
    var a := Admitted(schedule, st);
    AdmittedLogged(schedule, st);
    var e := SnapshotOf(Snapshot(k), a.alloc, a.maxMat, a.need, a.trace);
    var t1 := Trace(a.trace.sched, a.trace.steps + [e], a.trace.comparisons);
    AppendQuietStep(a.alloc, a.trace, e);
    SnapshotAppended(a.trace.steps, e, k);
    SnapshotArrivalsLogged(schedule, st);
  }

  /** After the snapshot, an arrival step of this iteration is followed by it. */
  lemma SnapshotArrivalsLogged(schedule: map<int, seq<seq<int>>>, st: DynState)
    requires DynShaped(st) && ScheduleFits(schedule, |st.trace.sched.work|) && DynLogged(schedule, st)
    ensures var k := st.iteration;
      var a := Admitted(schedule, st);
      var e := SnapshotOf(Snapshot(k), a.alloc, a.maxMat, a.need, a.trace);
      ArrivalsLogged(schedule, a.trace.steps + [e])
  {
    var k := st.iteration;
    var a := Admitted(schedule, st);
    AdmittedLogged(schedule, st);
    var e := SnapshotOf(Snapshot(k), a.alloc, a.maxMat, a.need, a.trace);
    var prior := st.trace.steps;
    var extra := a.trace.steps[|prior|..];
    if Arrivals(schedule, k) == [] {
      assert extra == [];
    } else {
      assert extra == [a.trace.steps[|prior|]];
    }
    assert a.trace.steps == prior + extra;
    var all := a.trace.steps + [e];
    assert all[..|all|] == all;
    ArrivalsLoggedStep(schedule, prior, extra, e, all, k);
  }

  /** Exec steps appended after a log keep every arrival step followed by its snapshot. */
  lemma ExecKeepsArrivalsLogged(schedule: map<int, seq<seq<int>>>, head: seq<StepRecord>, all: seq<StepRecord>, k: nat)
    requires ArrivalsLogged(schedule, head) && |head| <= |all| && all[..|head|] == head && AllExec(all, |head|, k)
    ensures ArrivalsLogged(schedule, all)
  {
    forall q | 0 <= q < |all| && all[q].tag.Arrival?
      ensures q + 1 < |all| && all[q + 1].tag == Snapshot(all[q].tag.k)
      ensures all[q].arrivals == Some(Arrivals(schedule, all[q].tag.k))
    {
      assert q < |head| && all[q] == head[q];
      assert all[q + 1] == head[q + 1];
    }
  }

  lemma DynIterationLogged(schedule: map<int, seq<seq<int>>>, st: DynState)
    requires DynShaped(st) && ScheduleFits(schedule, |st.trace.sched.work|) && DynLogged(schedule, st)
    ensures var r := DynIteration(schedule, st);
      && DynLogged(schedule, r.state)
      && r.state.trace.steps != []
      && (r.stuck <==> r.state.trace.steps[|r.state.trace.steps| - 1].tag == Snapshot(st.iteration))
  {
    var k := st.iteration;
    var a := Admitted(schedule, st);
    var e := SnapshotOf(Snapshot(k), a.alloc, a.maxMat, a.need, a.trace);
    var t1 := Trace(a.trace.sched, a.trace.steps + [e], a.trace.comparisons);
    SnapshotLogged(schedule, st);
    var p := CountedPass(a.alloc, a.maxMat, a.need, k, 0, t1);
    CountedPassSched(a.alloc, a.maxMat, a.need, k, 0, t1);
    CountedPassLogged(a.alloc, a.maxMat, a.need, k, 0, t1);
    ExecAddsNoIndex(p.steps, |t1.steps|, k);
    ExecKeepsArrivalsLogged(schedule, t1.steps, p.steps, k);
    if |p.steps| != |t1.steps| {
      assert p.steps[|p.steps| - 1].tag == Exec(k);
    } else {
      assert p.steps == t1.steps;
    }
  }

  /** The log of the dynamic run between iterations, and loop_stuck shown in it. */
  predicate StuckShown(st: DynState, stuck: bool) {
    stuck <==> (st.iteration >= 1 && st.trace.steps != [] && st.trace.steps[|st.trace.steps| - 1].tag == Snapshot(st.iteration - 1))
  }

  lemma {:induction false} DynLoopLogged(schedule: map<int, seq<seq<int>>>, st: DynState, stuck: bool)
    requires DynShaped(st) && ScheduleFits(schedule, |st.trace.sched.work|) && DynLogged(schedule, st) && StuckShown(st, stuck)
    ensures var r := DynLoop(schedule, st, stuck);
      && DynLogged(schedule, r.state) && StuckShown(r.state, r.stuck)
      && (!(AllFinished(st.trace.sched.finish) || stuck) ==> r.state.iteration > st.iteration)
    decreases Pending(schedule, st.iteration), Unfinished(st.trace.sched.finish, 0) + (if stuck then 0 else 1)
  {
    if !(AllFinished(st.trace.sched.finish) || stuck) {
      var r := DynIteration(schedule, st);
      DynIterationProgress(schedule, st);
      DynIterationLogged(schedule, st);
      DynLoopLogged(schedule, r.state, r.stuck);
    }
  }

  /** The step log of run_dynamic_with_steps: one snapshot T{k} per
      iteration, as many as total_iterations, which is at least one; an
      arrival step exactly at the iterations whose schedule entry is
      non-empty, carrying that entry and followed by the iteration's
      snapshot; the exec steps list the completion order, so the safe
      sequence when there is one; the log is linked over the final
      allocation. The result is None exactly when the last step is the
      snapshot of the last iteration, that is, when its pass executed
      nobody, whether or not processes arrived at that iteration. */
  lemma DynamicStepLog(alloc: seq<seq<int>>, maxMat: seq<seq<int>>, available: seq<int>, schedule: map<int, seq<seq<int>>>)
    requires WellFormed(alloc, maxMat, available) && ScheduleFits(schedule, |available|)
    ensures var f := DynamicFinal(alloc, maxMat, available, schedule).state;
      var o := DynamicOutcome(alloc, maxMat, available, schedule);
      && o.metrics.totalIterations >= 1
      && SnapshotIndices(o.steps) == Range(o.metrics.totalIterations)
      && ArrivalIndices(o.steps) == ArrivalTimes(schedule, o.metrics.totalIterations)
      && ArrivalsLogged(schedule, o.steps)
      && Executed(o.steps) == f.trace.sched.order
      && LogLinked(f.alloc, o.steps)
      && (o.safeSeq.None? <==> o.steps != [] && o.steps[|o.steps| - 1].tag == Snapshot(o.metrics.totalIterations - 1))
  {
    var st0 := DynStart(alloc, maxMat, available);
    assert st0.trace.sched.finish[0] == false;
    DynLoopLogged(schedule, st0, false);
    var e := DynamicFinal(alloc, maxMat, available, schedule);
    assert e == DynLoop(schedule, st0, false);
    assert DynLogged(schedule, e.state) && StuckShown(e.state, e.stuck);
    assert !AllFinished(st0.trace.sched.finish);
    assert e.state.iteration >= 1;
  }

  /** With non-negative allocations, available never decreases along the
      dynamic run's log: arrived processes hold zero rows. */
  lemma DynamicAvailableMonotone(alloc: seq<seq<int>>, maxMat: seq<seq<int>>, available: seq<int>, schedule: map<int, seq<seq<int>>>)
    requires WellFormed(alloc, maxMat, available) && ScheduleFits(schedule, |available|) && NonNegative(alloc)
    ensures var steps := DynamicOutcome(alloc, maxMat, available, schedule).steps;
      forall q :: 0 < q < |steps| ==> VecLe(steps[q - 1].available, steps[q].available)
  {
    var f := DynamicFinal(alloc, maxMat, available, schedule).state;
    DynamicStepLog(alloc, maxMat, available, schedule);
    DynamicRows(alloc, maxMat, available, schedule);
    assert NonNegative(f.alloc);
    LinkedAvailableMonotone(f.alloc, DynamicOutcome(alloc, maxMat, available, schedule).steps);
  }

  /** Without arrivals the dynamic loop makes the passes of the static
      search, except that it stops without the idle pass once everybody is
      finished. */
  lemma {:induction false} DynLoopNoArrivals(st: DynState)
    requires DynShaped(st)
    ensures DynLoop(map[], st, false).state.trace.sched == Fixpoint(st.alloc, st.need, st.trace.sched)
    decreases Unfinished(st.trace.sched.finish, 0)
  {
    var s := st.trace.sched;
    PassCounts(st.alloc, st.need, 0, s);
    if AllFinished(s.finish) {
      PassAllFinished(st.alloc, st.need, 0, s);
    } else {
      var k := st.iteration;
      var t1 := Trace(s, st.trace.steps + [SnapshotOf(Snapshot(k), st.alloc, st.maxMat, st.need, st.trace)], st.trace.comparisons);
      CountedPassSched(st.alloc, st.maxMat, st.need, k, 0, t1);
      var r := DynIteration(map[], st);
      if !r.stuck {
        DynLoopNoArrivals(r.state);
      }
    }
  }

  /** With an empty schedule run_dynamic_with_steps returns what
      is_safe_sequence returns. */
  lemma DynamicWithoutArrivals(alloc: seq<seq<int>>, maxMat: seq<seq<int>>, available: seq<int>)
    requires WellFormed(alloc, maxMat, available)
    ensures DynamicOutcome(alloc, maxMat, available, map[]).safeSeq == StaticResult(alloc, maxMat, available)
  {
    DynLoopNoArrivals(DynStart(alloc, maxMat, available));
    DynamicResult(alloc, maxMat, available, map[]);
  }

  /** A system where an arrival cannot save the run: P0 holds nothing and
      needs one unit, nothing is available, and a process with max [2]
      arrives at iteration 0. */
  const StuckAlloc: seq<seq<int>> := [[0]]
  const StuckMax: seq<seq<int>> := [[1]]
  const StuckAvailable: seq<int> := [0]
  const StuckSchedule: map<int, seq<seq<int>>> := map[0 := [[2]]]

  /** Iteration 0 admits the new process with a zero allocation row and logs the arrival. */
  lemma StuckAdmitted()
    ensures WellFormed(StuckAlloc, StuckMax, StuckAvailable) && ScheduleFits(StuckSchedule, 1)
    ensures var a := Admitted(StuckSchedule, DynStart(StuckAlloc, StuckMax, StuckAvailable));
      && a.alloc == [[0], [0]] && a.maxMat == [[1], [2]] && a.need == [[1], [2]]
      && a.trace.sched == Sched([0], [false, false], []) && a.trace.comparisons == 0
      && |a.trace.steps| == 1 && a.trace.steps[0].tag == Arrival(0) && a.iteration == 0
  {
    var st0 := DynStart(StuckAlloc, StuckMax, StuckAvailable);
    assert st0.trace.sched == Sched([0], [false], []) by {
      assert seq(1, _ => false) == [false];
    }
    assert Arrivals(StuckSchedule, 0) == [[2]];
    assert seq(1, _ => Zeros(1)) == [[0]] by {
      assert Zeros(1) == [0];
    }
    var a := Admitted(StuckSchedule, st0);
    assert a.alloc == [[0], [0]];
    assert a.maxMat == [[1], [2]];
    assert a.need[0] == [1] && a.need[1] == [2];
  }

  /** Neither process fits in [0]: the pass executes nobody and costs one comparison each. */
  lemma StuckPass(steps: seq<StepRecord>)
    ensures CountedPass([[0], [0]], [[1], [2]], [[1], [2]], 0, 0, Trace(Sched([0], [false, false], []), steps, 0)) ==
      Trace(Sched([0], [false, false], []), steps, 2)
  {
    var alloc, need := [[0], [0]], [[1], [2]];
    var s := Sched([0], [false, false], []);
    assert !VecLe(need[0], s.work) by {
      assert need[0][0] > s.work[0];
    }
    assert !VecLe(need[1], s.work) by {
      assert need[1][0] > s.work[0];
    }
    assert CountedVisit(alloc, need, need, 0, 0, Trace(s, steps, 0)) == Trace(s, steps, 1);
    assert CountedVisit(alloc, need, need, 0, 1, Trace(s, steps, 1)) == Trace(s, steps, 2);
    assert CountedPass(alloc, need, need, 0, 2, Trace(s, steps, 2)) == Trace(s, steps, 2);
  }

  /** The arrival does not defer the stuck verdict: on the system above the
      run answers None after that single iteration, and the log is the
      arrival step and the snapshot T0, nothing more. */
  lemma SampleArrivalStuck()
    ensures WellFormed(StuckAlloc, StuckMax, StuckAvailable) && ScheduleFits(StuckSchedule, |StuckAvailable|)
    ensures var o := DynamicOutcome(StuckAlloc, StuckMax, StuckAvailable, StuckSchedule);
      && o.safeSeq == None
      && o.metrics.totalIterations == 1
      && |o.steps| == 2 && o.steps[0].tag == Arrival(0) && o.steps[1].tag == Snapshot(0)
  {
    StuckAdmitted();
    var st0 := DynStart(StuckAlloc, StuckMax, StuckAvailable);
    assert !AllFinished(st0.trace.sched.finish) by {
      assert st0.trace.sched.finish[0] == false;
    }
    var a := Admitted(StuckSchedule, st0);
    var t1 := Trace(a.trace.sched, a.trace.steps + [SnapshotOf(Snapshot(0), a.alloc, a.maxMat, a.need, a.trace)], a.trace.comparisons);
    StuckPass(t1.steps);
    var r := DynIteration(StuckSchedule, st0);
    assert r.stuck && r.state.iteration == 1;
    assert r.state.trace.steps == t1.steps;
    assert DynLoop(StuckSchedule, st0, false) == DynLoop(StuckSchedule, r.state, true);
  }

  lemma MulSucc(n: nat, u: nat)
    ensures n * (u + 1) == n * u + n
  {
  }

  lemma MulAdd(n: nat, a: nat, b: nat)
    ensures n * (a + b) == n * a + n * b
  {
  }
}
