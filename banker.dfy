/** The static Banker's algorithm: the need matrix and the search for a
    safe completion order by repeated ascending passes over the processes
    until a pass finishes nobody. */
module Banker {
  import opened Vectors

  /** What the code silently relies on: at least one process (the need
      computation reads allocation[0]) and allocation and max are both
      M x N with N = |available|. */
  predicate WellFormed(alloc: seq<seq<int>>, maxMat: seq<seq<int>>, available: seq<int>) {
    |alloc| >= 1 && IsMatrix(alloc, |alloc|, |available|) && IsMatrix(maxMat, |alloc|, |available|)
  }

  /** need = max - allocation, cell by cell. */
  function NeedOf(alloc: seq<seq<int>>, maxMat: seq<seq<int>>): seq<seq<int>>
    requires |maxMat| == |alloc| && forall i :: 0 <= i < |alloc| ==> |maxMat[i]| == |alloc[i]|
  {
    seq(|alloc|, i requires 0 <= i < |alloc| =>
      seq(|alloc[i]|, j requires 0 <= j < |alloc[i]| => maxMat[i][j] - alloc[i][j]))
  }

  /** count_need: fills an M x N matrix (N = |allocation[0]|) with
      max - allocation; nothing checks that the result is non-negative. */
  method CountNeed(alloc: seq<seq<int>>, maxMat: seq<seq<int>>) returns (need: seq<seq<int>>)
    requires |alloc| >= 1 && |maxMat| == |alloc|
    requires Rows(alloc, |alloc[0]|) && Rows(maxMat, |alloc[0]|)
    ensures IsMatrix(need, |alloc|, |alloc[0]|)
    ensures forall i, j :: 0 <= i < |alloc| && 0 <= j < |alloc[0]| ==> need[i][j] == maxMat[i][j] - alloc[i][j]
    ensures need == NeedOf(alloc, maxMat)
  {
    var m := |alloc|;
    var n := |alloc[0]|;
    need := seq(m, _ => Zeros(n));
    for i := 0 to m
      invariant IsMatrix(need, m, n)
      invariant forall r, c :: 0 <= r < i && 0 <= c < n ==> need[r][c] == maxMat[r][c] - alloc[r][c]
    {
      for j := 0 to n
        invariant IsMatrix(need, m, n)
        invariant forall r, c :: 0 <= r < i && 0 <= c < n ==> need[r][c] == maxMat[r][c] - alloc[r][c]
        invariant forall c :: 0 <= c < j ==> need[i][c] == maxMat[i][c] - alloc[i][c]
      {
        need := need[i := need[i][j := maxMat[i][j] - alloc[i][j]]];
      }
    }
    forall i | 0 <= i < m ensures need[i] == NeedOf(alloc, maxMat)[i] {
      assert |alloc[i]| == n;
    }
  }

  /** The search state: the work vector, the finish flags and the
      completion order found so far. */
  datatype Sched = Sched(work: seq<int>, finish: seq<bool>, order: seq<nat>)

  /** One allocation row and one need row of |work| entries per process. */
  predicate Shaped(alloc: seq<seq<int>>, need: seq<seq<int>>, s: Sched) {
    |alloc| == |s.finish| && |need| == |s.finish| && Rows(alloc, |s.work|) && Rows(need, |s.work|)
  }

  /** The state a search starts from: work is a copy of available, nobody finished. */
  function Start(available: seq<int>, m: nat): Sched {
    Sched(available, seq(m, _ => false), [])
  }

  /** Visiting process i: if it is unfinished and its need fits in work, it
      releases its allocation into work, is marked finished and is appended
      to the order. */
  function Visit(alloc: seq<seq<int>>, need: seq<seq<int>>, i: nat, s: Sched): (r: Sched)
    requires Shaped(alloc, need, s) && i < |s.finish|
    ensures Shaped(alloc, need, r) && |r.work| == |s.work|
  {
    if !s.finish[i] && VecLe(need[i], s.work) then
      Sched(VecAdd(s.work, alloc[i]), s.finish[i := true], s.order + [i])
    else s
  }

  /** The rest of one ascending pass, from process i on. */
  function PassFrom(alloc: seq<seq<int>>, need: seq<seq<int>>, i: nat, s: Sched): (r: Sched)
    requires Shaped(alloc, need, s) && i <= |s.finish|
    ensures Shaped(alloc, need, r) && |r.work| == |s.work|
    decreases |s.finish| - i
  {
    if i == |s.finish| then s else PassFrom(alloc, need, i + 1, Visit(alloc, need, i, s))
  }

  /** Passes are repeated while a pass finishes somebody. */
  function Fixpoint(alloc: seq<seq<int>>, need: seq<seq<int>>, s: Sched): Sched
    requires Shaped(alloc, need, s)
    decreases Unfinished(s.finish, 0)
  {
    var p := PassFrom(alloc, need, 0, s);
    PassCounts(alloc, need, 0, s);
    if |p.order| == |s.order| then p else Fixpoint(alloc, need, p)
  }

  /** The number of passes Fixpoint makes, the last one included. */
  function PassCount(alloc: seq<seq<int>>, need: seq<seq<int>>, s: Sched): nat
    requires Shaped(alloc, need, s)
    decreases Unfinished(s.finish, 0)
  {
    var p := PassFrom(alloc, need, 0, s);
    PassCounts(alloc, need, 0, s);
    if |p.order| == |s.order| then 1 else 1 + PassCount(alloc, need, p)
  }

  /** The final search state of is_safe_sequence. */
  function StaticFinal(alloc: seq<seq<int>>, maxMat: seq<seq<int>>, available: seq<int>): Sched
    requires WellFormed(alloc, maxMat, available)
  {
    Fixpoint(alloc, NeedOf(alloc, maxMat), Start(available, |alloc|))
  }

  /** What is_safe_sequence returns: the order if everybody finished, else None. */
  function StaticResult(alloc: seq<seq<int>>, maxMat: seq<seq<int>>, available: seq<int>): Option<seq<nat>>
    requires WellFormed(alloc, maxMat, available)
  {
    var f := StaticFinal(alloc, maxMat, available);
    if AllFinished(f.finish) then Some(f.order) else None
  }

  /** Replays a completion order from `available`: each process must have
      need <= work when its turn comes, then releases its allocation.
      None if some process does not fit. */
  function Replay(alloc: seq<seq<int>>, need: seq<seq<int>>, available: seq<int>, order: seq<nat>): (r: Option<seq<int>>)
    requires Rows(alloc, |available|) && Rows(need, |available|)
    requires forall k :: 0 <= k < |order| ==> order[k] < |alloc| && order[k] < |need|
    ensures r.Some? ==> |r.value| == |available|
    decreases |order|
  {
    if order == [] then Some(available)
    else
      match Replay(alloc, need, available, order[..|order| - 1])
      case None => None
      case Some(w) =>
        var p := order[|order| - 1];
        if VecLe(need[p], w) then Some(VecAdd(w, alloc[p])) else None
  }

  /** A safe sequence: every process exactly once, and the replay never
      runs out of resources. */
  predicate IsSafeOrder(alloc: seq<seq<int>>, need: seq<seq<int>>, available: seq<int>, s: seq<nat>)
    requires Rows(alloc, |available|) && Rows(need, |available|) && |need| == |alloc|
  {
    IsPermutationOfRange(s, |alloc|) && Replay(alloc, need, available, s).Some?
  }

  /** What holds of every state the search passes through, started from `available`. */
  predicate Consistent(alloc: seq<seq<int>>, need: seq<seq<int>>, available: seq<int>, s: Sched) {
    && Shaped(alloc, need, s)
    && |available| == |s.work|
    && (forall k :: 0 <= k < |s.order| ==> s.order[k] < |s.finish| && s.finish[s.order[k]])
    && (forall p :: 0 <= p < |s.finish| && s.finish[p] ==> p in s.order)
    && Distinct(s.order)
    && |s.order| + Unfinished(s.finish, 0) == |s.finish|
    && s.work == VecAdd(available, SumWhere(alloc, s.finish, |s.work|))
    && Replay(alloc, need, available, s.order) == Some(s.work)
  }

  method IsSafeSequence(alloc: seq<seq<int>>, maxMat: seq<seq<int>>, available: seq<int>) returns (r: Option<seq<nat>>)
    requires WellFormed(alloc, maxMat, available)
    ensures r == StaticResult(alloc, maxMat, available)
    ensures r.Some? ==> IsSafeOrder(alloc, NeedOf(alloc, maxMat), available, r.value)
  {
    var need := CountNeed(alloc, maxMat);
    var m := |alloc|;
    var finish := seq(m, _ => false);
    var work := available;
    var safeSeq: seq<nat> := [];
    var changed := true;
    while changed
      invariant Shaped(alloc, need, Sched(work, finish, safeSeq)) && |work| == |available|
      invariant Fixpoint(alloc, need, Start(available, m)) ==
        if changed then Fixpoint(alloc, need, Sched(work, finish, safeSeq)) else Sched(work, finish, safeSeq)
      decreases Unfinished(finish, 0) + (if changed then 1 else 0)
    {
      changed := false;
      ghost var before := Sched(work, finish, safeSeq);
      for i := 0 to m
        invariant Shaped(alloc, need, Sched(work, finish, safeSeq)) && |work| == |available|
        invariant PassFrom(alloc, need, 0, before) == PassFrom(alloc, need, i, Sched(work, finish, safeSeq))
        invariant |before.order| <= |safeSeq|
        invariant changed <==> |safeSeq| != |before.order|
      {
        if !finish[i] {
          if VecLe(need[i], work) {
            work := AddRow(work, alloc[i]);
            finish := finish[i := true];
            safeSeq := safeSeq + [i];
            changed := true;
          }
        }
      }
      PassCounts(alloc, need, 0, before);
    }
    if AllFinished(finish) {
      r := Some(safeSeq);
      StaticResultSafe(alloc, maxMat, available);
    } else {
      r := None;
    }
  }

  /** The loop `for j in range(N): work[j] += row[j]`. */
  method AddRow(work: seq<int>, row: seq<int>) returns (r: seq<int>)
    requires |row| == |work|
    ensures r == VecAdd(work, row)
  {
    r := work;
    for j := 0 to |work|
      invariant |r| == |work|
      invariant forall k :: 0 <= k < j ==> r[k] == work[k] + row[k]
      invariant forall k :: j <= k < |work| ==> r[k] == work[k]
    {
      r := r[j := r[j] + row[j]];
    }
  }

  // ---------------------------------------------------------------------
  // One pass
  // ---------------------------------------------------------------------

  /** A pass only appends to the order and only sets flags, and every
      process it appends was unfinished before. */
  lemma {:induction false} PassCounts(alloc: seq<seq<int>>, need: seq<seq<int>>, i: nat, s: Sched)
    requires Shaped(alloc, need, s) && i <= |s.finish|
    ensures var r := PassFrom(alloc, need, i, s);
      && |r.finish| == |s.finish|
      && |s.order| <= |r.order| && r.order[..|s.order|] == s.order
      && |r.order| - |s.order| + Unfinished(r.finish, 0) == Unfinished(s.finish, 0)
      && (forall k :: 0 <= k < |s.finish| && s.finish[k] ==> r.finish[k])
    decreases |s.finish| - i
  {
    if i < |s.finish| {
      var v := Visit(alloc, need, i, s);
      PassCounts(alloc, need, i + 1, v);
      if v != s {
        UnfinishedMark(s.finish, i, 0);
        var r := PassFrom(alloc, need, i, s);
        assert r.order[..|v.order|] == v.order;
        assert r.order[..|s.order|] == v.order[..|s.order|];
      }
    }
  }

  /** A pass that appends nobody changes nothing, and then every unfinished
      process it looked at did not fit in work. */
  lemma {:induction false} IdlePass(alloc: seq<seq<int>>, need: seq<seq<int>>, i: nat, s: Sched)
    requires Shaped(alloc, need, s) && i <= |s.finish|
    requires |PassFrom(alloc, need, i, s).order| == |s.order|
    ensures PassFrom(alloc, need, i, s) == s
    ensures forall k :: i <= k < |s.finish| && !s.finish[k] ==> !VecLe(need[k], s.work)
    decreases |s.finish| - i
  {
    if i < |s.finish| {
      var v := Visit(alloc, need, i, s);
      PassCounts(alloc, need, i + 1, v);
      assert v == s;
      IdlePass(alloc, need, i + 1, s);
    }
  }

  /** A pass over a system where everybody is finished changes nothing. */
  lemma {:induction false} PassAllFinished(alloc: seq<seq<int>>, need: seq<seq<int>>, i: nat, s: Sched)
    requires Shaped(alloc, need, s) && i <= |s.finish| && AllFinished(s.finish)
    ensures PassFrom(alloc, need, i, s) == s
    decreases |s.finish| - i
  {
    if i < |s.finish| {
      PassAllFinished(alloc, need, i + 1, s);
    }
  }

  /** Within one pass processes are appended in strictly ascending index
      order, each at index i or above. */
  lemma {:induction false} PassAscending(alloc: seq<seq<int>>, need: seq<seq<int>>, i: nat, s: Sched)
    requires Shaped(alloc, need, s) && i <= |s.finish|
    ensures var r := PassFrom(alloc, need, i, s);
      && |s.order| <= |r.order|
      && (forall a :: |s.order| <= a < |r.order| ==> i <= r.order[a] < |s.finish|)
      && (forall a, b :: |s.order| <= a < b < |r.order| ==> r.order[a] < r.order[b])
    decreases |s.finish| - i
  {
    if i < |s.finish| {
      var v := Visit(alloc, need, i, s);
      PassAscending(alloc, need, i + 1, v);
      PassCounts(alloc, need, i + 1, v);
    }
  }

  /** Visiting a process keeps the search consistent. */
  lemma VisitConsistent(alloc: seq<seq<int>>, need: seq<seq<int>>, available: seq<int>, i: nat, s: Sched)
    requires Consistent(alloc, need, available, s) && i < |s.finish|
    ensures Consistent(alloc, need, available, Visit(alloc, need, i, s))
  {
    var v := Visit(alloc, need, i, s);
    if v != s {
      var n := |s.work|;
      assert i !in s.order;
      UnfinishedMark(s.finish, i, 0);
      SumWhereMark(alloc, s.finish, i, n);
      VecAddAssoc(available, SumWhere(alloc, s.finish, n), alloc[i]);
      assert v.order[..|v.order| - 1] == s.order;
    }
  }

  lemma {:induction false} PassConsistent(alloc: seq<seq<int>>, need: seq<seq<int>>, available: seq<int>, i: nat, s: Sched)
    requires Consistent(alloc, need, available, s) && i <= |s.finish|
    ensures Consistent(alloc, need, available, PassFrom(alloc, need, i, s))
    decreases |s.finish| - i
  {
    if i < |s.finish| {
      VisitConsistent(alloc, need, available, i, s);
      PassConsistent(alloc, need, available, i + 1, Visit(alloc, need, i, s));
    }
  }

  // ---------------------------------------------------------------------
  // The fixed point
  // ---------------------------------------------------------------------

  lemma {:induction false} FixpointConsistent(alloc: seq<seq<int>>, need: seq<seq<int>>, available: seq<int>, s: Sched)
    requires Consistent(alloc, need, available, s)
    ensures Consistent(alloc, need, available, Fixpoint(alloc, need, s))
    decreases Unfinished(s.finish, 0)
  {
    var p := PassFrom(alloc, need, 0, s);
    PassConsistent(alloc, need, available, 0, s);
    PassCounts(alloc, need, 0, s);
    if |p.order| != |s.order| {
      FixpointConsistent(alloc, need, available, p);
    }
  }

  /** When the passes stop, no unfinished process fits in work. */
  lemma {:induction false} FixpointStable(alloc: seq<seq<int>>, need: seq<seq<int>>, s: Sched)
    requires Shaped(alloc, need, s)
    ensures var f := Fixpoint(alloc, need, s);
      && |f.finish| == |s.finish| && |f.work| == |s.work|
      && forall k :: 0 <= k < |f.finish| && !f.finish[k] ==> !VecLe(need[k], f.work)
    decreases Unfinished(s.finish, 0)
  {
    var p := PassFrom(alloc, need, 0, s);
    PassCounts(alloc, need, 0, s);
    if |p.order| == |s.order| {
      IdlePass(alloc, need, 0, s);
    } else {
      FixpointStable(alloc, need, p);
    }
  }

  /** At most one pass more than there are unfinished processes. */
  lemma {:induction false} PassCountBound(alloc: seq<seq<int>>, need: seq<seq<int>>, s: Sched)
    requires Shaped(alloc, need, s)
    ensures 1 <= PassCount(alloc, need, s) <= Unfinished(s.finish, 0) + 1
    decreases Unfinished(s.finish, 0)
  {
    var p := PassFrom(alloc, need, 0, s);
    PassCounts(alloc, need, 0, s);
    if |p.order| != |s.order| {
      PassCountBound(alloc, need, p);
    }
  }

  /** The search starts consistent: work is available, nobody is finished
      and the empty order replays to available. */
  lemma StartConsistent(alloc: seq<seq<int>>, maxMat: seq<seq<int>>, available: seq<int>)
    requires WellFormed(alloc, maxMat, available)
    ensures Consistent(alloc, NeedOf(alloc, maxMat), available, Start(available, |alloc|))
  {
    var s := Start(available, |alloc|);
    var n := |available|;
    var need := NeedOf(alloc, maxMat);
    assert Rows(need, n);
    AllFalseCount(s.finish, 0);
    SumWhereAppend(alloc, alloc, [], |alloc|, n);
    assert [] + seq(|alloc|, _ => false) == s.finish;
    assert SumWhere(alloc, s.finish, n) == Zeros(n);
    VecAddZeros(available);
    assert Replay(alloc, need, available, []) == Some(available);
  }

  // ---------------------------------------------------------------------
  // What is_safe_sequence promises
  // ---------------------------------------------------------------------

  /** is_safe_sequence makes between 1 and M+1 passes. */
  lemma StaticPassBound(alloc: seq<seq<int>>, maxMat: seq<seq<int>>, available: seq<int>)
    requires WellFormed(alloc, maxMat, available)
    ensures 1 <= PassCount(alloc, NeedOf(alloc, maxMat), Start(available, |alloc|)) <= |alloc| + 1
  {
    var s := Start(available, |alloc|);
    AllFalseCount(s.finish, 0);
    PassCountBound(alloc, NeedOf(alloc, maxMat), s);
  }

  /** At exit work is available plus the allocations of the finished
      processes, and no unfinished process fits in it. */
  lemma StaticFinalIsFixedPoint(alloc: seq<seq<int>>, maxMat: seq<seq<int>>, available: seq<int>)
    requires WellFormed(alloc, maxMat, available)
    ensures var f := StaticFinal(alloc, maxMat, available);
      && |f.finish| == |alloc|
      && f.work == VecAdd(available, SumWhere(alloc, f.finish, |available|))
      && forall i :: 0 <= i < |alloc| && !f.finish[i] ==> !VecLe(NeedOf(alloc, maxMat)[i], f.work)
  {
    StartConsistent(alloc, maxMat, available);
    FixpointConsistent(alloc, NeedOf(alloc, maxMat), available, Start(available, |alloc|));
    FixpointStable(alloc, NeedOf(alloc, maxMat), Start(available, |alloc|));
  }

  /** A consistent state in which everybody is finished holds a complete
      order whose replay ends at the current work. */
  lemma ConsistentComplete(alloc: seq<seq<int>>, need: seq<seq<int>>, available: seq<int>, s: Sched)
    requires Consistent(alloc, need, available, s) && AllFinished(s.finish)
    ensures IsPermutationOfRange(s.order, |alloc|)
    ensures Replay(alloc, need, available, s.order) == Some(s.work)
  {
    UnfinishedZero(s.finish, 0);
  }

  /** A returned sequence is a permutation of 0..M-1 whose replay succeeds
      and ends with work = available + the column totals of allocation. */
  lemma StaticResultSafe(alloc: seq<seq<int>>, maxMat: seq<seq<int>>, available: seq<int>)
    requires WellFormed(alloc, maxMat, available)
    ensures var r := StaticResult(alloc, maxMat, available);
      r.Some? ==>
        && IsPermutationOfRange(r.value, |alloc|)
        && Replay(alloc, NeedOf(alloc, maxMat), available, r.value) == Some(VecAdd(available, ColumnTotals(alloc, |available|)))
  {
    var need := NeedOf(alloc, maxMat);
    var f := StaticFinal(alloc, maxMat, available);
    StartConsistent(alloc, maxMat, available);
    FixpointConsistent(alloc, need, available, Start(available, |alloc|));
    if AllFinished(f.finish) {
      ConsistentComplete(alloc, need, available, f);
      SumWhereAll(alloc, f.finish, |available|);
    }
  }

  /** A replay only reads the rows of the processes it replays. */
  lemma {:induction false} ReplayFrame(alloc: seq<seq<int>>, need: seq<seq<int>>, alloc': seq<seq<int>>, need': seq<seq<int>>,
                                       available: seq<int>, order: seq<nat>)
    requires Rows(alloc, |available|) && Rows(need, |available|) && Rows(alloc', |available|) && Rows(need', |available|)
    requires forall k :: 0 <= k < |order| ==> order[k] < |alloc| && order[k] < |need| && order[k] < |alloc'| && order[k] < |need'|
    requires forall k :: 0 <= k < |order| ==> alloc[order[k]] == alloc'[order[k]] && need[order[k]] == need'[order[k]]
    ensures Replay(alloc, need, available, order) == Replay(alloc', need', available, order)
    decreases |order|
  {
    if order != [] {
      ReplayFrame(alloc, need, alloc', need', available, order[..|order| - 1]);
    }
  }

  /** The flags of the processes that occur in s. */
  function Marks(s: seq<nat>, m: nat): seq<bool> {
    seq(m, p => p in s)
  }

  /** A successful replay of distinct processes ends at available plus their rows. */
  lemma {:induction false} ReplayMarks(alloc: seq<seq<int>>, need: seq<seq<int>>, available: seq<int>, s: seq<nat>)
    requires Rows(alloc, |available|) && Rows(need, |available|) && |need| == |alloc|
    requires (forall k :: 0 <= k < |s| ==> s[k] < |alloc|) && Distinct(s)
    requires Replay(alloc, need, available, s).Some?
    ensures Replay(alloc, need, available, s).value == VecAdd(available, SumWhere(alloc, Marks(s, |alloc|), |available|))
    decreases |s|
  {
    var n := |available|;
    var m := |alloc|;
    if s == [] {
      SumWhereAppend(alloc, alloc, [], m, n);
      assert [] + seq(m, _ => false) == Marks(s, m);
      VecAddZeros(available);
    } else {
      var t := s[..|s| - 1];
      var x := s[|s| - 1];
      ReplayMarks(alloc, need, available, t);
      assert x !in t;
      assert Marks(s, m) == Marks(t, m)[x := true];
      SumWhereMark(alloc, Marks(t, m), x, n);
      VecAddAssoc(available, SumWhere(alloc, Marks(t, m), n), alloc[x]);
    }
  }

  /** Every prefix of a successful replay succeeds, and the next process fits. */
  lemma {:induction false} ReplayPrefix(alloc: seq<seq<int>>, need: seq<seq<int>>, available: seq<int>, s: seq<nat>, k: nat)
    requires Rows(alloc, |available|) && Rows(need, |available|)
    requires forall q :: 0 <= q < |s| ==> s[q] < |alloc| && s[q] < |need|
    requires Replay(alloc, need, available, s).Some? && k < |s|
    ensures Replay(alloc, need, available, s[..k]).Some?
    ensures VecLe(need[s[k]], Replay(alloc, need, available, s[..k]).value)
    decreases |s|
  {
    var t := s[..|s| - 1];
    if k < |s| - 1 {
      ReplayPrefix(alloc, need, available, t, k);
      assert t[..k] == s[..k];
    }
  }

  /** Against a fixed point, every process of a safe sequence is finished,
      one prefix at a time: the prefix's release never exceeds what the
      finished processes released. */
  lemma {:induction false} SafeOrderFinished(alloc: seq<seq<int>>, need: seq<seq<int>>, available: seq<int>, f: Sched, s: seq<nat>, k: nat)
    requires NonNegative(alloc) && Consistent(alloc, need, available, f)
    requires forall q :: 0 <= q < |f.finish| && !f.finish[q] ==> !VecLe(need[q], f.work)
    requires IsSafeOrder(alloc, need, available, s) && k <= |s|
    ensures forall q :: 0 <= q < k ==> f.finish[s[q]]
    decreases k
  {
    if k > 0 {
      SafeOrderFinished(alloc, need, available, f, s, k - 1);
      SafeOrderStep(alloc, need, available, f, s, k - 1);
    }
  }

  /** If the processes before position k of a safe sequence are finished at
      a fixed point, the one at position k is finished too. */
  lemma SafeOrderStep(alloc: seq<seq<int>>, need: seq<seq<int>>, available: seq<int>, f: Sched, s: seq<nat>, k: nat)
    requires NonNegative(alloc) && Consistent(alloc, need, available, f)
    requires forall q :: 0 <= q < |f.finish| && !f.finish[q] ==> !VecLe(need[q], f.work)
    requires IsSafeOrder(alloc, need, available, s) && k < |s|
    requires forall q :: 0 <= q < k ==> f.finish[s[q]]
    ensures f.finish[s[k]]
  {
    var n := |available|;
    var m := |alloc|;
    var pre := s[..k];
    ReplayPrefix(alloc, need, available, s, k);
    assert forall a :: 0 <= a < k ==> pre[a] == s[a];
    assert Distinct(pre);
    ReplayMarks(alloc, need, available, pre);
    var marks := Marks(pre, m);
    forall q | 0 <= q < m && marks[q]
      ensures f.finish[q]
    {
      var a :| 0 <= a < k && pre[a] == q;
    }
    SumWhereMonotone(alloc, marks, f.finish, n);
    var w := Replay(alloc, need, available, pre).value;
    assert VecLe(w, f.work);
    assert VecLe(need[s[k]], f.work);
  }

  /** The Banker's theorem for this search: with non-negative allocations it
      returns a sequence exactly when some safe sequence exists. */
  lemma StaticDecidesSafety(alloc: seq<seq<int>>, maxMat: seq<seq<int>>, available: seq<int>)
    requires WellFormed(alloc, maxMat, available) && NonNegative(alloc)
    ensures StaticResult(alloc, maxMat, available).Some? <==>
      exists s :: IsSafeOrder(alloc, NeedOf(alloc, maxMat), available, s)
  {
    var need := NeedOf(alloc, maxMat);
    var f := StaticFinal(alloc, maxMat, available);
    StaticResultSafe(alloc, maxMat, available);
    if AllFinished(f.finish) {
      assert IsSafeOrder(alloc, need, available, f.order);
    }
    if r :| IsSafeOrder(alloc, need, available, r) {
      StartConsistent(alloc, maxMat, available);
      FixpointConsistent(alloc, need, available, Start(available, |alloc|));
      StaticFinalIsFixedPoint(alloc, maxMat, available);
      SafeOrderFinished(alloc, need, available, f, r, |r|);
      forall p | 0 <= p < |f.finish| ensures f.finish[p] {
        assert p in r;
      }
      assert AllFinished(f.finish);
    }
  }

  /** The sample system of the dashboard: four processes, three resource types. */
  const SampleAlloc: seq<seq<int>> := [[0, 1, 0], [2, 0, 0], [3, 0, 2], [2, 1, 1]]
  const SampleMax: seq<seq<int>> := [[7, 5, 3], [3, 2, 2], [9, 0, 2], [2, 2, 2]]
  const SampleAvailable: seq<int> := [3, 3, 2]
  const SampleNeed: seq<seq<int>> := [[7, 4, 3], [1, 2, 2], [6, 0, 0], [0, 1, 1]]

  lemma SampleNeedValue()
    ensures NeedOf(SampleAlloc, SampleMax) == SampleNeed
  {
    var need := NeedOf(SampleAlloc, SampleMax);
    assert need[0] == SampleNeed[0] && need[1] == SampleNeed[1];
    assert need[2] == SampleNeed[2] && need[3] == SampleNeed[3];
  }

  /** The search starts from available with nobody finished. */
  lemma SampleStart()
    ensures Start(SampleAvailable, 4) == Sched([3, 3, 2], [false, false, false, false], [])
  {
    assert seq(4, _ => false) == [false, false, false, false];
  }

  /** First pass, process 0: its need [7, 4, 3] does not fit in [3, 3, 2]. */
  lemma SampleFirstPassSkip()
    ensures PassFrom(SampleAlloc, SampleNeed, 0, Sched([3, 3, 2], [false, false, false, false], [])) ==
      PassFrom(SampleAlloc, SampleNeed, 1, Sched([3, 3, 2], [false, false, false, false], []))
  {
    var s0 := Sched([3, 3, 2], [false, false, false, false], []);
    assert !VecLe(SampleNeed[0], s0.work) by {
      assert SampleNeed[0][0] > s0.work[0];
    }
  }

  /** First pass, process 1: its need [1, 2, 2] fits, so it finishes. */
  lemma SampleFirstPassTake()
    ensures PassFrom(SampleAlloc, SampleNeed, 1, Sched([3, 3, 2], [false, false, false, false], [])) ==
      PassFrom(SampleAlloc, SampleNeed, 2, Sched([5, 3, 2], [false, true, false, false], [1]))
  {
    assert VecLe(SampleNeed[1], [3, 3, 2]);
    assert VecAdd([3, 3, 2], SampleAlloc[1]) == [5, 3, 2];
    assert [false, false, false, false][1 := true] == [false, true, false, false];
    assert Visit(SampleAlloc, SampleNeed, 1, Sched([3, 3, 2], [false, false, false, false], [])) ==
      Sched([5, 3, 2], [false, true, false, false], [1]);
  }

  /** First pass, processes 2 and 3: P2 does not fit, P3 does. */
  lemma SampleFirstPassTail()
    ensures PassFrom(SampleAlloc, SampleNeed, 2, Sched([5, 3, 2], [false, true, false, false], [1])) ==
      Sched([7, 4, 3], [false, true, false, true], [1, 3])
  {
    var a1 := Sched([5, 3, 2], [false, true, false, false], [1]);
    assert !VecLe(SampleNeed[2], a1.work) by {
      assert SampleNeed[2][0] > a1.work[0];
    }
    assert VecAdd([5, 3, 2], [2, 1, 1]) == [7, 4, 3];
  }

  /** First pass: P1 and then P3 finish. */
  lemma SampleFirstPass()
    ensures PassFrom(SampleAlloc, SampleNeed, 0, Start(SampleAvailable, 4)) ==
      Sched([7, 4, 3], [false, true, false, true], [1, 3])
  {
    SampleStart();
    SampleFirstPassSkip();
    SampleFirstPassTake();
    SampleFirstPassTail();
  }

  /** Second pass, processes 0 and 1: P0 now fits, P1 is finished. */
  lemma SampleSecondPassHead()
    ensures PassFrom(SampleAlloc, SampleNeed, 0, Sched([7, 4, 3], [false, true, false, true], [1, 3])) ==
      PassFrom(SampleAlloc, SampleNeed, 2, Sched([7, 5, 3], [true, true, false, true], [1, 3, 0]))
  {
    assert VecAdd([7, 4, 3], [0, 1, 0]) == [7, 5, 3];
  }

  /** Second pass, processes 2 and 3: P2 fits, P3 is finished. */
  lemma SampleSecondPassTail()
    ensures PassFrom(SampleAlloc, SampleNeed, 2, Sched([7, 5, 3], [true, true, false, true], [1, 3, 0])) ==
      Sched([10, 5, 5], [true, true, true, true], [1, 3, 0, 2])
  {
    assert VecAdd([7, 5, 3], [3, 0, 2]) == [10, 5, 5];
  }

  /** Second pass: P0 and then P2 finish. */
  lemma SampleSecondPass()
    ensures PassFrom(SampleAlloc, SampleNeed, 0, Sched([7, 4, 3], [false, true, false, true], [1, 3])) ==
      Sched([10, 5, 5], [true, true, true, true], [1, 3, 0, 2])
  {
    SampleSecondPassHead();
    SampleSecondPassTail();
  }

  /** Third pass: everybody is finished, so nothing changes. */
  lemma SampleThirdPass()
    ensures PassFrom(SampleAlloc, SampleNeed, 0, Sched([10, 5, 5], [true, true, true, true], [1, 3, 0, 2])) ==
      Sched([10, 5, 5], [true, true, true, true], [1, 3, 0, 2])
  {
    PassAllFinished(SampleAlloc, SampleNeed, 0, Sched([10, 5, 5], [true, true, true, true], [1, 3, 0, 2]));
  }

  /** The passes from the start: the third pass finishes nobody. */
  lemma SampleFixpoint()
    ensures Fixpoint(SampleAlloc, SampleNeed, Start(SampleAvailable, 4)) == Sched([10, 5, 5], [true, true, true, true], [1, 3, 0, 2])
    ensures PassCount(SampleAlloc, SampleNeed, Start(SampleAvailable, 4)) == 3
  {
    SampleFirstPass();
    SampleSecondPass();
    SampleThirdPass();
    var s1 := Sched([7, 4, 3], [false, true, false, true], [1, 3]);
    var s2 := Sched([10, 5, 5], [true, true, true, true], [1, 3, 0, 2]);
    assert Fixpoint(SampleAlloc, SampleNeed, s2) == s2;
    assert PassCount(SampleAlloc, SampleNeed, s2) == 1;
    assert Fixpoint(SampleAlloc, SampleNeed, s1) == s2;
    assert PassCount(SampleAlloc, SampleNeed, s1) == 2;
  }

  /** The sample's final state is the fixed point reached from the start. */
  lemma SampleFinal()
    ensures WellFormed(SampleAlloc, SampleMax, SampleAvailable)
    ensures StaticFinal(SampleAlloc, SampleMax, SampleAvailable) == Fixpoint(SampleAlloc, SampleNeed, Start(SampleAvailable, 4))
  {
    SampleNeedValue();
  }

  /** On the sample system is_safe_sequence returns [1, 3, 0, 2] after three passes. */
  lemma SampleSafeSequence()
    ensures StaticResult(SampleAlloc, SampleMax, SampleAvailable) == Some([1, 3, 0, 2])
    ensures PassCount(SampleAlloc, SampleNeed, Start(SampleAvailable, 4)) == 3
  {
    SampleFinal();
    SampleFixpoint();
    var f := Sched([10, 5, 5], [true, true, true, true], [1, 3, 0, 2]);
    assert AllFinished(f.finish);
  }
}
