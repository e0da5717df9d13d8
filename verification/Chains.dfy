/** The happens-before order of a run, defined by chains of dependent
    transitions, and the proof that the clock vectors compute it. */
module Chains {
  import opened ClockVectors
  import opened Programs

  /** Some chain i = k0 < k1 < ... < km = j of pairwise dependent transitions. */
  ghost predicate Chain<O(!new), T(!new)>(P: Program<O, T>, run: seq<T>, i: nat, j: nat)
    requires j < |run|
    decreases j
  {
    i == j || exists k: nat :: k < j && P.dep(run[k], run[j]) && Chain(P, run, i, k)
  }

  lemma {:induction false} ChainIsOrdered<O(!new), T(!new)>(P: Program<O, T>, run: seq<T>, i: nat, j: nat)
    requires j < |run| && Chain(P, run, i, j)
    ensures i <= j
    decreases j
  {
    if i != j {
      var k: nat :| k < j && P.dep(run[k], run[j]) && Chain(P, run, i, k);
      ChainIsOrdered(P, run, i, k);
    }
  }

  lemma {:induction false} ChainExtends<O(!new), T(!new)>(P: Program<O, T>, run: seq<T>, more: seq<T>, i: nat, j: nat)
    requires j < |run|
    ensures Chain(P, run + more, i, j) == Chain(P, run, i, j)
    decreases j
  {
    forall k: nat | k < j
      ensures Chain(P, run + more, i, k) == Chain(P, run, i, k)
    {
      ChainExtends(P, run, more, i, k);
    }
    assert forall k: nat | k <= j :: (run + more)[k] == run[k];
  }

  lemma {:induction false} ChainIsTransitive<O(!new), T(!new)>(P: Program<O, T>, run: seq<T>, i: nat, j: nat, k: nat)
    requires k < |run| && j <= k && Chain(P, run, i, j) && Chain(P, run, j, k)
    ensures Chain(P, run, i, k)
    decreases k
  {
    if j != k {
      var l: nat :| l < k && P.dep(run[l], run[k]) && Chain(P, run, j, l);
      ChainIsOrdered(P, run, j, l);
      ChainIsTransitive(P, run, i, j, l);
    }
  }

  /** The greatest of the clock vectors of the transitions of run that depend
      on t; clocks[i] belongs to run[i]. */
  ghost function MaxClock<O(!new), T(!new)>(P: Program<O, T>, run: seq<T>, clocks: seq<ClockVector>, t: T): ClockVector
    requires |run| <= |clocks|
  {
    if run == [] then map[]
    else
      var n := |run| - 1;
      var before := MaxClock(P, run[..n], clocks, t);
      if P.dep(run[n], t) then Join(clocks[n], before) else before
  }

  /** The clock vector of t when it is run next: the maximum, with the
      running thread's own component set to the index of t. */
  ghost function NextClock<O(!new), T(!new)>(P: Program<O, T>, run: seq<T>, clocks: seq<ClockVector>, t: T): ClockVector
    requires |run| <= |clocks|
  {
    MaxClock(P, run, clocks, t)[P.tid(t) := |run|]
  }

  /** Every transition of the run was given its clock when it was run. */
  ghost predicate Clocked<O(!new), T(!new)>(P: Program<O, T>, run: seq<T>, clocks: seq<ClockVector>) {
    |clocks| == |run| && forall j | 0 <= j < |run| :: clocks[j] == NextClock(P, run[..j], clocks, run[j])
  }

  lemma {:induction false} MaxClockOfPrefix<O(!new), T(!new)>(P: Program<O, T>, run: seq<T>, a: seq<ClockVector>, b: seq<ClockVector>, t: T)
    requires |run| <= |a| && |run| <= |b| && a[..|run|] == b[..|run|]
    ensures MaxClock(P, run, a, t) == MaxClock(P, run, b, t)
  {
    if run != [] {
      var n := |run| - 1;
      assert a[..n] == a[..|run|][..n] == b[..|run|][..n] == b[..n];
      assert a[n] == a[..|run|][n] == b[..|run|][n] == b[n];
      MaxClockOfPrefix(P, run[..n], a, b, t);
    }
  }

  /** Running t next keeps the record of clocks. */
  lemma ClockedExtends<O(!new), T(!new)>(P: Program<O, T>, run: seq<T>, clocks: seq<ClockVector>, t: T)
    requires Clocked(P, run, clocks)
    ensures Clocked(P, run + [t], clocks + [NextClock(P, run, clocks, t)])
  {
    var run', clocks' := run + [t], clocks + [NextClock(P, run, clocks, t)];
    forall j | 0 <= j < |run'|
      ensures clocks'[j] == NextClock(P, run'[..j], clocks', run'[j])
    {
      assert run'[..j] == run[..j];
      MaxClockOfPrefix(P, run[..j], clocks, clocks', run'[j]);
      if j == |run| {
        assert run[..j] == run;
      }
    }
  }

  /** So does dropping the last transitions. */
  lemma ClockedPrefix<O(!new), T(!new)>(P: Program<O, T>, run: seq<T>, clocks: seq<ClockVector>, k: nat)
    requires Clocked(P, run, clocks) && k <= |run|
    ensures Clocked(P, run[..k], clocks[..k])
  {
    forall j | 0 <= j < k
      ensures clocks[..k][j] == NextClock(P, run[..k][..j], clocks[..k], run[..k][j])
    {
      assert run[..k][..j] == run[..j];
      MaxClockOfPrefix(P, run[..j], clocks, clocks[..k], run[j]);
    }
  }

  /** The maximum bounds every dependent clock, and each component comes from
      one of them (or is a missing, hence zero, component). */
  lemma {:induction false} MaxClockIsMaximum<O(!new), T(!new)>(P: Program<O, T>, run: seq<T>, clocks: seq<ClockVector>, t: T, p: Tid)
    requires |run| <= |clocks|
    ensures forall k | 0 <= k < |run| && P.dep(run[k], t) :: ValueFor(clocks[k], p) <= ValueFor(MaxClock(P, run, clocks, t), p)
    ensures ValueFor(MaxClock(P, run, clocks, t), p) == 0
            || exists k :: 0 <= k < |run| && P.dep(run[k], t) && ValueFor(clocks[k], p) == ValueFor(MaxClock(P, run, clocks, t), p)
  {
    if run != [] {
      var n := |run| - 1;
      var before := MaxClock(P, run[..n], clocks, t);
      MaxClockIsMaximum(P, run[..n], clocks, t, p);
      JoinIsLeastUpperBound(clocks[n], before, before);
      assert forall k | 0 <= k < n :: run[..n][k] == run[k];
    }
  }

  /** The test of the engine: does run[i] happen before run[j], by clocks. */
  ghost predicate HappensBefore<O(!new), T(!new)>(P: Program<O, T>, run: seq<T>, clocks: seq<ClockVector>, i: nat, j: nat)
    requires i < |run| && j < |clocks|
  {
    i <= ValueFor(clocks[j], P.tid(run[i]))
  }

  /** Clock vectors are exact: apart from index 0, which a missing component
      always admits, happens-before by clocks is the existence of a chain. */
  lemma {:induction false} ClocksAreExact<O(!new), T(!new)>(P: Program<O, T>, run: seq<T>, clocks: seq<ClockVector>, i: nat, j: nat)
    requires P.LawfulRelation() && Clocked(P, run, clocks)
    requires i < |run| && j < |run|
    ensures HappensBefore(P, run, clocks, i, j) <==> i == 0 || Chain(P, run, i, j)
    decreases j
  {
    hide MaxClock, LastRun, PrecedesThread;
    var p := P.tid(run[i]);
    var top := MaxClock(P, run[..j], clocks, run[j]);
    assert clocks[j] == top[P.tid(run[j]) := j];
    MaxClockIsMaximum(P, run[..j], clocks, run[j], p);
    if i != 0 && HappensBefore(P, run, clocks, i, j) && i != j {
      if p == P.tid(run[j]) {
        assert i < j && P.dep(run[i], run[j]) && Chain(P, run, i, i);
      } else {
        var k: nat :| k < j && P.dep(run[..j][k], run[j]) && ValueFor(clocks[k], p) == ValueFor(top, p);
        ClocksAreExact(P, run, clocks, i, k);
      }
    }
    if Chain(P, run, i, j) {
      ChainIsOrdered(P, run, i, j);
      if i != j {
        var k: nat :| k < j && P.dep(run[k], run[j]) && Chain(P, run, i, k);
        ClocksAreExact(P, run, clocks, i, k);
        assert run[..j][k] == run[k];
      }
    }
  }

  /** A nonzero component is the index of a transition of that thread, chained
      to the transition that carries the vector. */
  lemma {:induction false} ClockValueIsARun<O(!new), T(!new)>(P: Program<O, T>, run: seq<T>, clocks: seq<ClockVector>, j: nat, p: Tid)
    requires Clocked(P, run, clocks) && j < |run|
    ensures var v := ValueFor(clocks[j], p);
            v == 0 || (v <= j && P.tid(run[v]) == p && Chain(P, run, v, j))
    decreases j
  {
    hide MaxClock;
    var v := ValueFor(clocks[j], p);
    var top := MaxClock(P, run[..j], clocks, run[j]);
    assert clocks[j] == top[P.tid(run[j]) := j];
    MaxClockIsMaximum(P, run[..j], clocks, run[j], p);
    if v != 0 && p != P.tid(run[j]) {
      var k: nat :| k < j && P.dep(run[..j][k], run[j]) && ValueFor(clocks[k], p) == v;
      ClockValueIsARun(P, run, clocks, k, p);
    }
  }

  /** The greatest index below k at which p ran, or -1. */
  ghost function LastRun<O(!new), T(!new)>(P: Program<O, T>, run: seq<T>, p: Tid): (j: int)
    ensures -1 <= j < |run|
    ensures j >= 0 ==> P.tid(run[j]) == p
    ensures forall i | j < i < |run| :: P.tid(run[i]) != p
  {
    if run == [] then -1
    else if P.tid(run[|run| - 1]) == p then |run| - 1
    else
      var j := LastRun(P, run[..|run| - 1], p);
      assert forall i | 0 <= i < |run| - 1 :: run[..|run| - 1][i] == run[i];
      j
  }

  lemma LastRunAfter<O(!new), T(!new)>(P: Program<O, T>, run: seq<T>, t: T, p: Tid)
    ensures LastRun(P, run + [t], p) == if P.tid(t) == p then |run| else LastRun(P, run, p)
  {
    assert (run + [t])[..|run|] == run;
  }

  /** run[i] happens before the pending transition of p: it is chained to
      something p already ran. (Index 0 happens before everything.) */
  ghost predicate PrecedesThread<O(!new), T(!new)>(P: Program<O, T>, run: seq<T>, i: nat, p: Tid) {
    i == 0 || (LastRun(P, run, p) >= 0 && Chain(P, run, i, LastRun(P, run, p)))
  }
}
