/** Resource vectors, matrices and per-process flags shared by every
    variant of the Banker's algorithm, with the arithmetic facts the
    safety proofs rest on. */
module Vectors {

  datatype Option<+T> = None | Some(value: T)

  /** Every row of m has exactly n entries. */
  predicate Rows(m: seq<seq<int>>, n: nat) {
    forall i :: 0 <= i < |m| ==> |m[i]| == n
  }

  /** m is a rowCount x n matrix. */
  predicate IsMatrix(m: seq<seq<int>>, rowCount: nat, n: nat) {
    |m| == rowCount && Rows(m, n)
  }

  /** No entry of m is negative. */
  predicate NonNegative(m: seq<seq<int>>) {
    forall i, j :: 0 <= i < |m| && 0 <= j < |m[i]| ==> m[i][j] >= 0
  }

  /** a <= b in every component: the check `all(a[j] <= b[j] for j in range(N))`. */
  predicate VecLe(a: seq<int>, b: seq<int>) {
    |a| == |b| && forall j :: 0 <= j < |a| ==> a[j] <= b[j]
  }

  /** Componentwise sum, the effect of `for j in range(N): a[j] += b[j]`. */
  function VecAdd(a: seq<int>, b: seq<int>): seq<int>
    requires |a| == |b|
  {
    seq(|a|, j requires 0 <= j < |a| => a[j] + b[j])
  }

  /** The row `[0] * n`. */
  function Zeros(n: nat): seq<int> {
    seq(n, _ => 0)
  }

  /** No two positions of s hold the same value. */
  predicate Distinct(s: seq<nat>) {
    forall a, b :: 0 <= a < b < |s| ==> s[a] != s[b]
  }

  /** s lists every index 0 .. m-1 exactly once. */
  predicate IsPermutationOfRange(s: seq<nat>, m: nat) {
    && |s| == m
    && (forall k :: 0 <= k < |s| ==> s[k] < m)
    && Distinct(s)
    && (forall p :: 0 <= p < m ==> p in s)
  }

  /** Python's `all(finish)`. */
  predicate AllFinished(f: seq<bool>) {
    forall i :: 0 <= i < |f| ==> f[i]
  }

  /** The number of false flags at positions from .. |f|-1. */
  function Unfinished(f: seq<bool>, from: nat): nat
    decreases |f| - from
  {
    if from >= |f| then 0 else (if f[from] then 0 else 1) + Unfinished(f, from + 1)
  }

  /** The sum of the rows alloc[i] whose flag f[i] is set. */
  function SumWhere(alloc: seq<seq<int>>, f: seq<bool>, n: nat): (r: seq<int>)
    requires |f| <= |alloc| && Rows(alloc, n)
    ensures |r| == n
    decreases |f|
  {
    if f == [] then Zeros(n)
    else
      var rest := SumWhere(alloc, f[..|f| - 1], n);
      if f[|f| - 1] then VecAdd(rest, alloc[|f| - 1]) else rest
  }

  /** The column totals of alloc: sum over all of its rows. */
  function ColumnTotals(alloc: seq<seq<int>>, n: nat): (r: seq<int>)
    requires Rows(alloc, n)
    ensures |r| == n
    decreases |alloc|
  {
    if alloc == [] then Zeros(n)
    else VecAdd(ColumnTotals(alloc[..|alloc| - 1], n), alloc[|alloc| - 1])
  }

  lemma VecAddAssoc(a: seq<int>, b: seq<int>, c: seq<int>)
    requires |a| == |b| == |c|
    ensures VecAdd(VecAdd(a, b), c) == VecAdd(a, VecAdd(b, c))
  {
  }

  lemma VecAddZeros(a: seq<int>)
    ensures VecAdd(Zeros(|a|), a) == a && VecAdd(a, Zeros(|a|)) == a
  {
  }

  /** Marking an unfinished process finished lowers the count by one. */
  lemma {:induction false} UnfinishedMark(f: seq<bool>, i: nat, from: nat)
    requires from <= i < |f| && !f[i]
    ensures Unfinished(f[i := true], from) + 1 == Unfinished(f, from)
    decreases |f| - from
  {
    if from < i {
      UnfinishedMark(f, i, from + 1);
    } else {
      UnfinishedAbove(f, i, true, from + 1);
    }
  }

  /** Changing a flag below `from` does not change the count from `from` on. */
  lemma {:induction false} UnfinishedAbove(f: seq<bool>, i: nat, b: bool, from: nat)
    requires i < from && i < |f|
    ensures Unfinished(f[i := b], from) == Unfinished(f, from)
    decreases |f| - from
  {
    if from < |f| {
      UnfinishedAbove(f, i, b, from + 1);
    }
  }

  /** Appending unfinished processes adds one to the count for each of them. */
  lemma {:induction false} UnfinishedAppend(f: seq<bool>, k: nat, from: nat)
    requires from <= |f|
    ensures Unfinished(f + seq(k, _ => false), from) == Unfinished(f, from) + k
    decreases |f| + k - from
  {
    var g := f + seq(k, _ => false);
    if from < |f| {
      UnfinishedAppend(f, k, from + 1);
    } else if k > 0 {
      UnfinishedAppend(f, k - 1, from);
      AllFalseCount(seq(k, _ => false), 0);
      TailCount(f, g, from);
      AllFalseCount(g[|f|..], 0);
    }
  }

  /** A run of all-false flags counts in full. */
  lemma {:induction false} AllFalseCount(f: seq<bool>, from: nat)
    requires from <= |f| && forall i :: 0 <= i < |f| ==> !f[i]
    ensures Unfinished(f, from) == |f| - from
    decreases |f| - from
  {
    if from < |f| {
      AllFalseCount(f, from + 1);
    }
  }

  /** The count over g from |f| on, for g extending f, is the count over g's suffix. */
  lemma {:induction false} TailCount(f: seq<bool>, g: seq<bool>, from: nat)
    requires |f| <= from <= |g|
    ensures Unfinished(g, from) == Unfinished(g[|f|..], from - |f|)
    decreases |g| - from
  {
    if from < |g| {
      TailCount(f, g, from + 1);
    }
  }

  /** No process is unfinished exactly when all of them are finished. */
  lemma {:induction false} UnfinishedZero(f: seq<bool>, from: nat)
    requires from <= |f|
    ensures Unfinished(f, from) == 0 <==> forall i :: from <= i < |f| ==> f[i]
    decreases |f| - from
  {
    if from < |f| {
      UnfinishedZero(f, from + 1);
    }
  }

  /** Finishing process i adds its row to the sum of finished rows. */
  lemma {:induction false} SumWhereMark(alloc: seq<seq<int>>, f: seq<bool>, i: nat, n: nat)
    requires |f| <= |alloc| && Rows(alloc, n) && i < |f| && !f[i]
    ensures SumWhere(alloc, f[i := true], n) == VecAdd(SumWhere(alloc, f, n), alloc[i])
    decreases |f|
  {
    var g := f[i := true];
    var last := |f| - 1;
    assert g[..last] == if i == last then f[..last] else f[..last][i := true];
    if i < last {
      SumWhereMark(alloc, f[..last], i, n);
      var rest := SumWhere(alloc, f[..last], n);
      if f[last] {
        VecAddAssoc(rest, alloc[last], alloc[i]);
        VecAddAssoc(rest, alloc[i], alloc[last]);
        assert VecAdd(alloc[last], alloc[i]) == VecAdd(alloc[i], alloc[last]);
      }
    }
  }

  /** The sum of finished rows only reads the rows below |f|. */
  lemma {:induction false} SumWhereFrame(alloc: seq<seq<int>>, alloc': seq<seq<int>>, f: seq<bool>, n: nat)
    requires |f| <= |alloc| && |f| <= |alloc'| && Rows(alloc, n) && Rows(alloc', n)
    requires forall i :: 0 <= i < |f| ==> alloc[i] == alloc'[i]
    ensures SumWhere(alloc, f, n) == SumWhere(alloc', f, n)
    decreases |f|
  {
    if f != [] {
      SumWhereFrame(alloc, alloc', f[..|f| - 1], n);
    }
  }

  /** Appending unfinished processes does not change the sum of finished rows. */
  lemma {:induction false} SumWhereAppend(alloc: seq<seq<int>>, alloc': seq<seq<int>>, f: seq<bool>, k: nat, n: nat)
    requires |f| <= |alloc| && |f| + k <= |alloc'| && Rows(alloc, n) && Rows(alloc', n)
    requires forall i :: 0 <= i < |f| ==> alloc[i] == alloc'[i]
    ensures SumWhere(alloc', f + seq(k, _ => false), n) == SumWhere(alloc, f, n)
    decreases k
  {
    var g := f + seq(k, _ => false);
    if k == 0 {
      assert g == f;
      SumWhereFrame(alloc, alloc', f, n);
    } else {
      assert g[..|g| - 1] == f + seq(k - 1, _ => false);
      SumWhereAppend(alloc, alloc', f, k - 1, n);
    }
  }

  /** When every process is finished, the sum of finished rows is the column total. */
  lemma {:induction false} SumWhereAll(alloc: seq<seq<int>>, f: seq<bool>, n: nat)
    requires |f| == |alloc| && Rows(alloc, n) && AllFinished(f)
    ensures SumWhere(alloc, f, n) == ColumnTotals(alloc, n)
    decreases |f|
  {
    if f != [] {
      var last := |f| - 1;
      SumWhereAll(alloc[..last], f[..last], n);
      SumWhereFrame(alloc, alloc[..last], f[..last], n);
    }
  }

  /** With non-negative rows, a larger set of finished processes has a larger sum. */
  lemma {:induction false} SumWhereMonotone(alloc: seq<seq<int>>, f: seq<bool>, g: seq<bool>, n: nat)
    requires |f| == |g| <= |alloc| && Rows(alloc, n) && NonNegative(alloc)
    requires forall i :: 0 <= i < |f| && f[i] ==> g[i]
    ensures VecLe(SumWhere(alloc, f, n), SumWhere(alloc, g, n))
    decreases |f|
  {
    if f != [] {
      var last := |f| - 1;
      SumWhereMonotone(alloc, f[..last], g[..last], n);
    }
  }
}
