/** dynamic_banker_loop: the uninstrumented dynamic Banker's algorithm. It
    pulls one optional request per iteration from the caller's generator,
    appends arrivals to the caller's lists, releases allocations into the
    caller's available vector in place, and makes one pass per iteration. */
module DynamicBanker {
  import opened Vectors
  import opened Banker
  import opened SimulatorCore

  /** Item k of the generator, read as `next(gen, None)`: None once exhausted. */
  function Pull(items: seq<Option<seq<int>>>, k: nat): Option<seq<int>> {
    if k < |items| then items[k] else None
  }

  /** The caller's request generator: a finite list of optional requests and
      the number of pulls made so far. */
  class ArrivalSource {
    const items: seq<Option<seq<int>>>
    var pulls: nat

    constructor (items: seq<Option<seq<int>>>)
      ensures this.items == items && pulls == 0
    {
      this.items := items;
      pulls := 0;
    }

    /** `next(gen, None)`. */
    method Next() returns (req: Option<seq<int>>)
      modifies this
      ensures req == Pull(items, old(pulls))
      ensures pulls == old(pulls) + 1
    {
      req := Pull(items, pulls);
      pulls := pulls + 1;
    }
  }

  /** A caller-owned list of rows that the loop appends to. */
  class RowList {
    var rows: seq<seq<int>>

    constructor (rows: seq<seq<int>>)
      ensures this.rows == rows
    {
      this.rows := rows;
    }
  }

  /** Every request has one entry per resource type. */
  predicate ItemsFit(items: seq<Option<seq<int>>>, n: nat) {
    forall k :: 0 <= k < |items| && items[k].Some? ==> |items[k].value| == n
  }

  /** The state between iterations: the caller's lists, need, the search
      state (work is the caller's available) and the pulls made. */
  datatype PlainState = PlainState(alloc: seq<seq<int>>, maxMat: seq<seq<int>>, need: seq<seq<int>>, sched: Sched, pulls: nat)

  datatype PlainEnd = PlainEnd(state: PlainState, stuck: bool)

  predicate PlainShaped(st: PlainState) {
    && |st.alloc| >= 1
    && Shaped(st.alloc, st.need, st.sched)
    && IsMatrix(st.maxMat, |st.alloc|, |st.sched.work|)
    && st.need == NeedOf(st.alloc, st.maxMat)
  }

  /** The number of items still to pull. */
  function Remaining(items: seq<Option<seq<int>>>, k: nat): nat {
    if k < |items| then |items| - k else 0
  }

  /** One iteration: pull a request; a request becomes process M with a zero
      allocation row, the request as max row and an unfinished flag; then one
      plain pass, after which loopWillStuck is set exactly when the pass
      finished nobody. */
  function PlainIteration(items: seq<Option<seq<int>>>, st: PlainState): (r: PlainEnd)
    requires PlainShaped(st) && ItemsFit(items, |st.sched.work|)
    ensures PlainShaped(r.state) && |r.state.sched.work| == |st.sched.work| && r.state.pulls == st.pulls + 1
  {
    var s := st.sched;
    var req := Pull(items, st.pulls);
    var a :=
      if req.Some? then
        var alloc := st.alloc + [Zeros(|s.work|)];
        var maxMat := st.maxMat + [req.value];
        PlainState(alloc, maxMat, NeedOf(alloc, maxMat), Sched(s.work, s.finish + [false], s.order), st.pulls + 1)
      else PlainState(st.alloc, st.maxMat, st.need, s, st.pulls + 1);
    var p := PassFrom(a.alloc, a.need, 0, a.sched);
    PlainEnd(PlainState(a.alloc, a.maxMat, a.need, p, a.pulls), |p.order| == |a.sched.order|)
  }

  lemma PlainIterationProgress(items: seq<Option<seq<int>>>, st: PlainState)
    requires PlainShaped(st) && ItemsFit(items, |st.sched.work|)
    ensures var r := PlainIteration(items, st);
      || Remaining(items, r.state.pulls) < Remaining(items, st.pulls)
      || (&& Remaining(items, r.state.pulls) == Remaining(items, st.pulls)
          && Unfinished(r.state.sched.finish, 0) + (if r.stuck then 0 else 1) <= Unfinished(st.sched.finish, 0))
  {
    PassCounts(st.alloc, st.need, 0, st.sched);
  }

  /** The while loop, running while some process is unfinished and
      loopWillStuck is false. */
  function PlainLoop(items: seq<Option<seq<int>>>, st: PlainState, stuck: bool): (r: PlainEnd)
    requires PlainShaped(st) && ItemsFit(items, |st.sched.work|)
    ensures PlainShaped(r.state) && |r.state.sched.work| == |st.sched.work|
    decreases Remaining(items, st.pulls), Unfinished(st.sched.finish, 0) + (if stuck then 0 else 1)
  {
    if AllFinished(st.sched.finish) || stuck then PlainEnd(st, stuck)
    else
      var r := PlainIteration(items, st);
      PlainIterationProgress(items, st);
      PlainLoop(items, r.state, r.stuck)
  }

  function PlainFinal(alloc: seq<seq<int>>, maxMat: seq<seq<int>>, available: seq<int>, items: seq<Option<seq<int>>>, pulls: nat): PlainEnd
    requires WellFormed(alloc, maxMat, available) && ItemsFit(items, |available|)
  {
    PlainLoop(items, PlainState(alloc, maxMat, NeedOf(alloc, maxMat), Start(available, |alloc|), pulls), false)
  }

  /** What dynamic_banker_loop returns. */
  function PlainResult(alloc: seq<seq<int>>, maxMat: seq<seq<int>>, available: seq<int>, items: seq<Option<seq<int>>>, pulls: nat): Option<seq<nat>>
    requires WellFormed(alloc, maxMat, available) && ItemsFit(items, |available|)
  {
    var f := PlainFinal(alloc, maxMat, available, items, pulls);
    if f.stuck then None else Some(f.state.sched.order)
  }

  method DynamicBankerLoop(allocation: RowList, maxMat: RowList, available: array<int>, gen: ArrivalSource)
    returns (r: Option<seq<nat>>)
    requires allocation != maxMat
    requires WellFormed(allocation.rows, maxMat.rows, available[..]) && ItemsFit(gen.items, available.Length)
    modifies allocation, maxMat, available, gen
    ensures var f := PlainFinal(old(allocation.rows), old(maxMat.rows), old(available[..]), gen.items, old(gen.pulls));
      && r == (if f.stuck then None else Some(f.state.sched.order))
      && allocation.rows == f.state.alloc
      && maxMat.rows == f.state.maxMat
      && available[..] == f.state.sched.work
      && gen.pulls == f.state.pulls
  {
    var need := CountNeed(allocation.rows, maxMat.rows);
    var m := |allocation.rows|;
    var n := available.Length;
    var finish := seq(m, _ => false);
    var safeSeq: seq<nat> := [];
    var loopWillStuck := false;
    ghost var st0 := PlainState(allocation.rows, maxMat.rows, need, Start(available[..], m), gen.pulls);
    while false in finish && !loopWillStuck
      invariant m == |allocation.rows| && available.Length == n
      invariant PlainShaped(PlainState(allocation.rows, maxMat.rows, need, Sched(available[..], finish, safeSeq), gen.pulls))
      invariant PlainLoop(gen.items, st0, false) ==
        PlainLoop(gen.items, PlainState(allocation.rows, maxMat.rows, need, Sched(available[..], finish, safeSeq), gen.pulls), loopWillStuck)
      decreases Remaining(gen.items, gen.pulls), Unfinished(finish, 0) + (if loopWillStuck then 0 else 1)
    {
      ghost var st := PlainState(allocation.rows, maxMat.rows, need, Sched(available[..], finish, safeSeq), gen.pulls);
      var req := gen.Next();
      if req.Some? {
        need, finish := AppendProcess(allocation, maxMat, req.value, finish, n);
        m := m + 1;
        loopWillStuck := true;
      }
      ghost var a := PlainState(allocation.rows, maxMat.rows, need, Sched(available[..], finish, safeSeq), gen.pulls);
      assert PlainShaped(a);
      loopWillStuck := true;
      var ran;
      finish, safeSeq, ran := PlainPass(allocation.rows, need, available, finish, safeSeq);
      if ran {
        loopWillStuck := false;
      }
      assert PlainIteration(gen.items, st) ==
        PlainEnd(PlainState(a.alloc, a.maxMat, a.need, Sched(available[..], finish, safeSeq), a.pulls), loopWillStuck);
      PlainIterationProgress(gen.items, st);
    }
    if loopWillStuck {
      return None;
    }
    return Some(safeSeq);
  }

  /** A pulled request becomes a new process: a zero allocation row, the
      request as max row, an unfinished flag, and need recomputed. */
  method AppendProcess(allocation: RowList, maxMat: RowList, req: seq<int>, finish0: seq<bool>, n: nat)
    returns (need: seq<seq<int>>, finish: seq<bool>)
    requires allocation != maxMat && |req| == n
    requires |allocation.rows| >= 1 && |maxMat.rows| == |allocation.rows|
    requires Rows(allocation.rows, n) && Rows(maxMat.rows, n)
    modifies allocation, maxMat
    ensures allocation.rows == old(allocation.rows) + [Zeros(n)]
    ensures maxMat.rows == old(maxMat.rows) + [req]
    ensures need == NeedOf(allocation.rows, maxMat.rows)
    ensures finish == finish0 + [false]
  {
    allocation.rows := allocation.rows + [Zeros(n)];
    maxMat.rows := maxMat.rows + [req];
    need := CountNeed(allocation.rows, maxMat.rows);
    finish := finish0 + [false];
  }

  /** The `for i in range(M)` pass of dynamic_banker_loop: an unfinished
      process whose need fits in the caller's available joins the sequence,
      releases its allocation in place and is marked finished. `ran` is set
      when somebody ran. */
  method PlainPass(alloc: seq<seq<int>>, need: seq<seq<int>>, available: array<int>, finish0: seq<bool>, safeSeq0: seq<nat>)
    returns (finish: seq<bool>, safeSeq: seq<nat>, ran: bool)
    requires Shaped(alloc, need, Sched(available[..], finish0, safeSeq0))
    modifies available
    ensures Sched(available[..], finish, safeSeq) == PassFrom(alloc, need, 0, Sched(old(available[..]), finish0, safeSeq0))
    ensures ran <==> |safeSeq| != |safeSeq0|
  {
    finish, safeSeq, ran := finish0, safeSeq0, false;
    ghost var before := Sched(available[..], finish0, safeSeq0);
    var n := available.Length;
    for i := 0 to |alloc|
      invariant Shaped(alloc, need, Sched(available[..], finish, safeSeq)) && available.Length == n
      invariant PassFrom(alloc, need, 0, before) == PassFrom(alloc, need, i, Sched(available[..], finish, safeSeq))
      invariant |safeSeq0| <= |safeSeq|
      invariant ran <==> |safeSeq| != |safeSeq0|
    {
      if !finish[i] {
        var fits := Fits(need[i], available);
        if fits {
          safeSeq := safeSeq + [i];
          AddRowInPlace(available, alloc[i]);
          finish := finish[i := true];
          ran := true;
        }
      }
    }
  }

  /** `all(need[i][j] <= available[j] for j in range(N))`, which stops at the
      first component that does not fit. */
  method Fits(row: seq<int>, available: array<int>) returns (b: bool)
    requires |row| == available.Length
    ensures b <==> VecLe(row, available[..])
  {
    var j := 0;
    while j < |row| && row[j] <= available[j]
      invariant 0 <= j <= |row|
      invariant forall c :: 0 <= c < j ==> row[c] <= available[c]
    {
      j := j + 1;
    }
    b := j == |row|;
  }

  /** `for j in range(N): available[j] += allocation[i][j]` on the caller's list. */
  method AddRowInPlace(available: array<int>, row: seq<int>)
    requires |row| == available.Length
    modifies available
    ensures available[..] == VecAdd(old(available[..]), row)
  {
    for j := 0 to available.Length
      invariant forall k :: 0 <= k < j ==> available[k] == old(available[k]) + row[k]
      invariant forall k :: j <= k < available.Length ==> available[k] == old(available[k])
    {
      available[j] := available[j] + row[j];
    }
  }

  // ---------------------------------------------------------------------
  // The same loop as the instrumented dynamic run
  // ---------------------------------------------------------------------

  /** The schedule of the instrumented run that matches a generator read
      from pull p0 on: iteration k admits item p0 + k when it is a request. */
  function ScheduleOf(items: seq<Option<seq<int>>>, p0: nat): map<int, seq<seq<int>>> {
    map k | 0 <= k < |items| && PullAt(items, p0, k).Some? :: [PullAt(items, p0, k).value]
  }

  /** Pull p0 + k. */
  function PullAt(items: seq<Option<seq<int>>>, p0: nat, k: nat): Option<seq<int>> {
    Pull(items, p0 + k)
  }

  lemma ScheduleOfArrivals(items: seq<Option<seq<int>>>, p0: nat, k: nat)
    ensures Arrivals(ScheduleOf(items, p0), k) == if Pull(items, p0 + k).Some? then [Pull(items, p0 + k).value] else []
  {
  }

  lemma ScheduleOfFits(items: seq<Option<seq<int>>>, p0: nat, n: nat)
    requires ItemsFit(items, n)
    ensures ScheduleFits(ScheduleOf(items, p0), n)
  {
  }

  /** A plain state and an instrumented state that agree on everything the
      search sees, the plain one having made p0 + k pulls at iteration k. */
  predicate Simulates(p0: nat, ps: PlainState, ds: DynState) {
    && ps.alloc == ds.alloc && ps.maxMat == ds.maxMat && ps.need == ds.need
    && ps.sched == ds.trace.sched
    && ps.pulls == p0 + ds.iteration
  }

  lemma PlainIterationSimulates(items: seq<Option<seq<int>>>, p0: nat, ps: PlainState, ds: DynState)
    requires PlainShaped(ps) && ItemsFit(items, |ps.sched.work|) && DynShaped(ds) && Simulates(p0, ps, ds)
    requires ScheduleFits(ScheduleOf(items, p0), |ps.sched.work|)
    ensures var r := PlainIteration(items, ps);
      var d := DynIteration(ScheduleOf(items, p0), ds);
      Simulates(p0, r.state, d.state) && r.stuck == d.stuck
  {
    var schedule := ScheduleOf(items, p0);
    var k := ds.iteration;
    ScheduleOfArrivals(items, p0, k);
    var a := Admitted(schedule, ds);
    assert seq(1, _ => Zeros(|ps.sched.work|)) == [Zeros(|ps.sched.work|)];
    assert seq(1, _ => false) == [false];
    var t1 := Trace(a.trace.sched, a.trace.steps + [SnapshotOf(Snapshot(k), a.alloc, a.maxMat, a.need, a.trace)], a.trace.comparisons);
    CountedPassSched(a.alloc, a.maxMat, a.need, k, 0, t1);
  }

  lemma {:induction false} PlainLoopSimulates(items: seq<Option<seq<int>>>, p0: nat, ps: PlainState, ds: DynState, stuck: bool)
    requires PlainShaped(ps) && ItemsFit(items, |ps.sched.work|) && DynShaped(ds) && Simulates(p0, ps, ds)
    requires ScheduleFits(ScheduleOf(items, p0), |ps.sched.work|)
    ensures var r := PlainLoop(items, ps, stuck);
      var d := DynLoop(ScheduleOf(items, p0), ds, stuck);
      Simulates(p0, r.state, d.state) && r.stuck == d.stuck
    decreases Remaining(items, ps.pulls), Unfinished(ps.sched.finish, 0) + (if stuck then 0 else 1)
  {
    if !(AllFinished(ps.sched.finish) || stuck) {
      var r := PlainIteration(items, ps);
      var d := DynIteration(ScheduleOf(items, p0), ds);
      PlainIterationProgress(items, ps);
      PlainIterationSimulates(items, p0, ps, ds);
      PlainLoopSimulates(items, p0, r.state, d.state, r.stuck);
    }
  }

  /** dynamic_banker_loop and run_dynamic_with_steps agree: on the schedule
      that admits pull p0 + k at iteration k, the instrumented run returns
      the same result, ends with the same matrices, flags and available
      vector, and its iteration count is the number of pulls made. */
  lemma PlainMatchesInstrumented(alloc: seq<seq<int>>, maxMat: seq<seq<int>>, available: seq<int>, items: seq<Option<seq<int>>>, p0: nat)
    requires WellFormed(alloc, maxMat, available) && ItemsFit(items, |available|)
    ensures ScheduleFits(ScheduleOf(items, p0), |available|)
    ensures var f := PlainFinal(alloc, maxMat, available, items, p0).state;
      var d := DynamicFinal(alloc, maxMat, available, ScheduleOf(items, p0)).state;
      && PlainResult(alloc, maxMat, available, items, p0) == DynamicOutcome(alloc, maxMat, available, ScheduleOf(items, p0)).safeSeq
      && f.alloc == d.alloc && f.maxMat == d.maxMat && f.sched == d.trace.sched
      && f.pulls == p0 + d.iteration
  {
    ScheduleOfFits(items, p0, |available|);
    var ps := PlainState(alloc, maxMat, NeedOf(alloc, maxMat), Start(available, |alloc|), p0);
    PlainLoopSimulates(items, p0, ps, DynStart(alloc, maxMat, available), false);
  }

  // ---------------------------------------------------------------------
  // What dynamic_banker_loop promises
  // ---------------------------------------------------------------------

  /** The requests among pulls p0 .. p0+k-1, in pull order. */
  function Requests(items: seq<Option<seq<int>>>, p0: nat, k: nat): seq<seq<int>> {
    if k == 0 then []
    else Requests(items, p0, k - 1) + (if Pull(items, p0 + k - 1).Some? then [Pull(items, p0 + k - 1).value] else [])
  }

  lemma {:induction false} ArrivedRequests(items: seq<Option<seq<int>>>, p0: nat, k: nat)
    ensures Arrived(ScheduleOf(items, p0), k) == Requests(items, p0, k)
  {
    if k > 0 {
      ArrivedRequests(items, p0, k - 1);
      ScheduleOfArrivals(items, p0, k - 1);
    }
  }

  /** dynamic_banker_loop returns None exactly when some process, original
      or arrived, is unfinished; a returned sequence lists every process
      0 .. M_final-1 once and replays successfully from the initial
      available; the caller's available ends as its initial value plus the
      allocation rows of the finished processes; the caller's allocation and
      max only gained rows: a zero row, resp. the request, per request
      pulled, and every iteration pulled exactly once. */
  lemma PlainLoopResult(alloc: seq<seq<int>>, maxMat: seq<seq<int>>, available: seq<int>, items: seq<Option<seq<int>>>, p0: nat)
    requires WellFormed(alloc, maxMat, available) && ItemsFit(items, |available|)
    ensures var f := PlainFinal(alloc, maxMat, available, items, p0).state;
      var r := PlainResult(alloc, maxMat, available, items, p0);
      && (r.None? <==> !AllFinished(f.sched.finish))
      && (r.Some? ==>
            && IsPermutationOfRange(r.value, |f.alloc|)
            && Replay(f.alloc, f.need, available, r.value) == Some(f.sched.work))
      && f.sched.work == VecAdd(available, SumWhere(f.alloc, f.sched.finish, |available|))
      && p0 <= f.pulls
      && f.alloc == alloc + ZeroRows(|Requests(items, p0, f.pulls - p0)|, |available|)
      && f.maxMat == maxMat + Requests(items, p0, f.pulls - p0)
  {
    PlainMatchesInstrumented(alloc, maxMat, available, items, p0);
    var schedule := ScheduleOf(items, p0);
    DynamicResult(alloc, maxMat, available, schedule);
    DynamicRows(alloc, maxMat, available, schedule);
    ArrivedRequests(items, p0, DynamicFinal(alloc, maxMat, available, schedule).state.iteration);
  }

  /** Without requests dynamic_banker_loop returns what is_safe_sequence returns. */
  lemma PlainWithoutRequests(alloc: seq<seq<int>>, maxMat: seq<seq<int>>, available: seq<int>, items: seq<Option<seq<int>>>, p0: nat)
    requires WellFormed(alloc, maxMat, available) && ItemsFit(items, |available|)
    requires forall k :: p0 <= k < |items| ==> items[k].None?
    ensures PlainResult(alloc, maxMat, available, items, p0) == StaticResult(alloc, maxMat, available)
  {
    PlainMatchesInstrumented(alloc, maxMat, available, items, p0);
    assert ScheduleOf(items, p0) == map[];
    DynamicWithoutArrivals(alloc, maxMat, available);
  }
}
