/** The search misses nothing: every execution of the traced program is covered
    by one the search performs, up to the order of independent steps. */
module Completeness {
  import opened ClockVectors
  import opened Programs
  import opened Chains
  import opened Machines
  import opened Obligations
  import opened Rewinding
  import opened Sleeping
  import opened Searches
  import opened Executions
  import opened Histories
  import opened Conclusions
  import Transitions

  // ----- what a covering run has to show --------------------------------

  /** What is asked of a run that covers w: nothing more, or also that it takes
      nothing else that conflicts with t, which thread r is left about to do. */
  datatype Goal<T> = Whole | Toward(r: Tid, t: T)

  ghost predicate Conflicts<O(!new), T(!new)>(P: Program<O, T>, x: T, goal: Goal<T>) {
    goal.Toward? && P.dep(x, goal.t) && P.coen(x, goal.t)
  }

  /** kept marks the steps of g that lead to a step of r. */
  ghost predicate Keeps<O(!new), T(!new)>(P: Program<O, T>, g: seq<T>, kept: seq<bool>, r: Tid, i: nat)
    requires i < |g| == |kept|
  {
    P.tid(g[i]) == r || exists j: nat :: i < j < |g| && kept[j] && P.dep(g[i], g[j])
  }

  /** The steps that lead to r are those of w, and the others do not conflict
      with t. */
  ghost predicate Realizes<O(!new), T(!new)>(P: Program<O, T>, g: seq<T>, kept: seq<bool>, w: seq<T>, r: Tid, t: T) {
    && |kept| == |g|
    && (forall i: nat | i < |g| :: kept[i] <==> Keeps(P, g, kept, r, i))
    && (forall i: nat | i < |g| && kept[i] :: g[i] in w)
    && (forall y | y in w :: KeptIn(g, kept, y))
    && (forall i: nat | i < |g| && !kept[i] :: !(P.dep(g[i], t) && P.coen(g[i], t)))
  }

  ghost predicate KeptIn<T(!new)>(g: seq<T>, kept: seq<bool>, y: T)
    requires |kept| == |g|
  {
    exists i: nat :: i < |g| && kept[i] && g[i] == y
  }

  lemma KeptMeans<O(!new), T(!new)>(P: Program<O, T>, g: seq<T>, kept: seq<bool>, w: seq<T>, r: Tid, t: T, i: nat)
    requires Realizes(P, g, kept, w, r, t) && i < |g|
    ensures |kept| == |g|
    ensures P.tid(g[i]) == r ==> kept[i]
    ensures kept[i] ==> g[i] in w
    ensures !kept[i] ==> !(P.dep(g[i], t) && P.coen(g[i], t))
  {
    assert kept[i] <==> Keeps(P, g, kept, r, i);
  }

  lemma KeptByStep<O(!new), T(!new)>(P: Program<O, T>, g: seq<T>, kept: seq<bool>, w: seq<T>, r: Tid, t: T, i: nat, j: nat)
    requires Realizes(P, g, kept, w, r, t) && i < j < |g| && kept[j] && P.dep(g[i], g[j])
    ensures kept[i]
  {
    assert kept[i] <==> Keeps(P, g, kept, r, i);
  }

  lemma KeptLeads<O(!new), T(!new)>(P: Program<O, T>, g: seq<T>, kept: seq<bool>, w: seq<T>, r: Tid, t: T, i: nat) returns (j: nat)
    requires Realizes(P, g, kept, w, r, t) && i < |g| && kept[i] && P.tid(g[i]) != r
    ensures i < j < |g| && |kept| == |g| && kept[j] && P.dep(g[i], g[j])
  {
    assert Keeps(P, g, kept, r, i);
    j :| i < j < |g| && kept[j] && P.dep(g[i], g[j]);
  }

  lemma KeptInShifts<T(!new)>(x: T, g: seq<T>, b: bool, kept: seq<bool>, y: T)
    requires |kept| == |g| && KeptIn(g, kept, y)
    ensures KeptIn([x] + g, [b] + kept, y)
  {
    var l: nat :| l < |g| && kept[l] && g[l] == y;
    assert ([b] + kept)[l + 1] && ([x] + g)[l + 1] == y;
  }

  lemma InitialIsKept<O(!new), T(!new)>(P: Program<O, T>, g: seq<T>, kept: seq<bool>, w: seq<T>, r: Tid, i: nat)
    requires P.LawfulRelation() && IsCone(P, w, r) && i < |w| && |kept| == |g|
    requires forall y | y in Drop(w, i) :: KeptIn(g, kept, y)
    ensures Keeps(P, [w[i]] + g, [true] + kept, r, 0)
  {
    if i < |w| - 1 {
      assert LeadsOn(P, w, i);
      var j: nat :| i < j < |w| && P.dep(w[i], w[j]);
      assert Drop(w, i)[j - 1] == w[j];
      assert KeptIn(g, kept, w[j]);
      var l: nat :| l < |g| && kept[l] && g[l] == w[j];
      assert ([true] + kept)[l + 1] && ([w[i]] + g)[l + 1] == w[j];
    }
  }

  lemma RealizesInitial<O(!new), T(!new)>(P: Program<O, T>, g: seq<T>, kept: seq<bool>, w: seq<T>, r: Tid, t: T, i: nat)
    requires P.LawfulRelation() && IsCone(P, w, r) && i < |w| && Realizes(P, g, kept, Drop(w, i), r, t)
    ensures Realizes(P, [w[i]] + g, [true] + kept, w, r, t)
  {
    hide Keeps, KeptIn, IsCone, Program.LawfulRelation;
    var x, g', kept' := w[i], [w[i]] + g, [true] + kept;
    KeepsShifts(P, x, g, true, kept, r);
    InitialIsKept(P, g, kept, w, r, i);
    forall l: nat | l < |g'|
      ensures kept'[l] <==> Keeps(P, g', kept', r, l)
      ensures kept'[l] ==> g'[l] in w
      ensures !kept'[l] ==> !(P.dep(g'[l], t) && P.coen(g'[l], t))
    {
      if l > 0 {
        assert g'[l] == g[l - 1] && kept'[l] == kept[l - 1];
        assert kept[l - 1] <==> Keeps(P, g, kept, r, l - 1);
        assert Keeps(P, g', kept', r, (l - 1) + 1) <==> Keeps(P, g, kept, r, l - 1);
      }
    }
    forall y | y in w
      ensures KeptIn(g', kept', y)
    {
      if y == x {
        FirstIsKeptIn(x, g, kept);
      } else {
        var j :| 0 <= j < |w| && w[j] == y;
        assert Drop(w, i)[if j < i then j else j - 1] == y;
        KeptInShifts(x, g, true, kept, y);
      }
    }
  }

  lemma FirstIsKeptIn<T(!new)>(x: T, g: seq<T>, kept: seq<bool>)
    requires |kept| == |g|
    ensures KeptIn([x] + g, [true] + kept, x)
  {
    assert ([true] + kept)[0] && ([x] + g)[0] == x;
  }

  lemma KeepsShifts<O(!new), T(!new)>(P: Program<O, T>, x: T, g: seq<T>, b: bool, kept: seq<bool>, r: Tid)
    requires |kept| == |g|
    ensures forall i: nat | i < |g| :: Keeps(P, [x] + g, [b] + kept, r, i + 1) <==> Keeps(P, g, kept, r, i)
  {
    var g', kept' := [x] + g, [b] + kept;
    forall i: nat | i < |g|
      ensures Keeps(P, g', kept', r, i + 1) <==> Keeps(P, g, kept, r, i)
    {
      if P.tid(g[i]) != r {
        if Keeps(P, g, kept, r, i) {
          var j: nat :| i < j < |g| && kept[j] && P.dep(g[i], g[j]);
          assert kept'[j + 1] && P.dep(g'[i + 1], g'[j + 1]);
        }
        if Keeps(P, g', kept', r, i + 1) {
          var j: nat :| i + 1 < j < |g'| && kept'[j] && P.dep(g'[i + 1], g'[j]);
          assert kept[j - 1] && P.dep(g[i], g[j - 1]);
        }
      }
    }
  }

  lemma OtherIsNotKept<O(!new), T(!new)>(P: Program<O, T>, x: T, g: seq<T>, kept: seq<bool>, w: seq<T>, r: Tid)
    requires P.LawfulRelation() && |kept| == |g| && Independent(P, x, w) && P.tid(x) != r
    requires forall i: nat | i < |g| && kept[i] :: g[i] in w
    ensures !Keeps(P, [x] + g, [false] + kept, r, 0)
  {
    var g', kept' := [x] + g, [false] + kept;
    forall j: nat | 0 < j < |g'| && kept'[j]
      ensures !P.dep(g'[0], g'[j])
    {
      assert kept[j - 1] && g[j - 1] in w;
    }
  }

  lemma RealizesOther<O(!new), T(!new)>(P: Program<O, T>, x: T, g: seq<T>, kept: seq<bool>, w: seq<T>, r: Tid, t: T)
    requires P.LawfulRelation() && Realizes(P, g, kept, w, r, t) && Independent(P, x, w) && P.tid(x) != r
    requires !(P.dep(x, t) && P.coen(x, t))
    ensures Realizes(P, [x] + g, [false] + kept, w, r, t)
  {
    hide KeptIn, Keeps;
    var g', kept' := [x] + g, [false] + kept;
    KeepsShifts(P, x, g, false, kept, r);
    OtherIsNotKept(P, x, g, kept, w, r);
    forall l: nat | l < |g'|
      ensures kept'[l] <==> Keeps(P, g', kept', r, l)
      ensures kept'[l] ==> g'[l] in w
      ensures !kept'[l] ==> !(P.dep(g'[l], t) && P.coen(g'[l], t))
    {
      if l > 0 {
        assert g'[l] == g[l - 1] && kept'[l] == kept[l - 1];
        assert kept[l - 1] <==> Keeps(P, g, kept, r, l - 1);
        assert Keeps(P, g', kept', r, (l - 1) + 1) <==> Keeps(P, g, kept, r, l - 1);
      }
    }
    forall y | y in w
      ensures KeptIn(g', kept', y)
    {
      KeptInShifts(x, g, false, kept, y);
    }
  }

  // ----- the steps kept are the ones ordered before r -------------------

  lemma ChainLast<O(!new), T(!new)>(P: Program<O, T>, run: seq<T>, i: nat, j: nat) returns (l: nat)
    requires j < |run| && Chain(P, run, i, j) && i != j
    ensures i <= l < j && P.dep(run[l], run[j]) && Chain(P, run, i, l)
  {
    l :| l < j && P.dep(run[l], run[j]) && Chain(P, run, i, l);
    ChainIsOrdered(P, run, i, l);
  }

  lemma ChainOfStep<O(!new), T(!new)>(P: Program<O, T>, run: seq<T>, i: nat, j: nat)
    requires i <= j < |run| && (i == j || P.dep(run[i], run[j]))
    ensures Chain(P, run, i, j)
  {
    assert Chain(P, run, i, i);
  }

  /** In v followed by g, what is chained to a kept step is kept. */
  lemma {:induction false} ChainedIsKept<O(!new), T(!new)>(P: Program<O, T>, v: seq<T>, g: seq<T>, kept: seq<bool>, w: seq<T>, r: Tid, t: T, i: nat, j: nat)
    requires Realizes(P, g, kept, w, r, t) && i < |g| && j < |g| && Chain(P, v + g, |v| + i, |v| + j) && kept[j]
    ensures kept[i]
    decreases j
  {
    hide Realizes, Chain;
    KeptMeans(P, g, kept, w, r, t, i);
    if i != j {
      var l := ChainLast(P, v + g, |v| + i, |v| + j);
      assert (v + g)[l] == g[l - |v|] && (v + g)[|v| + j] == g[j];
      KeptByStep(P, g, kept, w, r, t, l - |v|, j);
      assert |v| + (l - |v|) == l;
      ChainedIsKept(P, v, g, kept, w, r, t, i, l - |v|);
    }
  }

  /** And a kept step is chained to the last step of r. */
  lemma {:induction false} KeptIsChained<O(!new), T(!new)>(P: Program<O, T>, v: seq<T>, g: seq<T>, kept: seq<bool>, w: seq<T>, r: Tid, t: T, i: nat)
    requires P.LawfulRelation() && Realizes(P, g, kept, w, r, t) && i < |g| && kept[i]
    ensures LastRun(P, v + g, r) >= |v| + i && Chain(P, v + g, |v| + i, LastRun(P, v + g, r))
    decreases |g| - i
  {
    hide LastRun, Realizes, Chain;
    KeptMeans(P, g, kept, w, r, t, i);
    var run, last := v + g, LastRun(P, v + g, r);
    assert run[|v| + i] == g[i];
    if P.tid(g[i]) == r {
      ChainOfStep(P, run, |v| + i, last);
    } else {
      var j := KeptLeads(P, g, kept, w, r, t, i);
      KeptIsChained(P, v, g, kept, w, r, t, j);
      assert run[|v| + j] == g[j];
      ChainOfStep(P, run, |v| + i, |v| + j);
      ChainIsTransitive(P, run, |v| + i, |v| + j, last);
    }
  }

  /** A step before g that is independent of w is chained to no kept step. */
  lemma {:induction false} NotChained<O(!new), T(!new)>(P: Program<O, T>, u: seq<T>, x: T, g: seq<T>, kept: seq<bool>, w: seq<T>, r: Tid, t: T, j: nat)
    requires P.LawfulRelation() && Realizes(P, g, kept, w, r, t) && Independent(P, x, w) && j < |g| && kept[j]
    ensures !Chain(P, u + [x] + g, |u|, |u| + 1 + j)
    decreases j
  {
    hide Realizes, Chain;
    KeptMeans(P, g, kept, w, r, t, j);
    var run, k := u + [x] + g, |u|;
    if Chain(P, run, k, k + 1 + j) {
      var l := ChainLast(P, run, k, k + 1 + j);
      assert run[k + 1 + j] == g[j];
      assert run[k] == x && !P.dep(g[j], x) && !P.dep(x, g[j]);
      if l != k {
        var i := l - k - 1;
        assert run[l] == g[i] && k + 1 + i == l;
        KeptByStep(P, g, kept, w, r, t, i, j);
        NotChained(P, u, x, g, kept, w, r, t, i);
      }
    }
  }

  /** x is not ordered before what r is about to do. */
  lemma NotBeforeThread<O(!new), T(!new)>(P: Program<O, T>, u: seq<T>, x: T, g: seq<T>, kept: seq<bool>, w: seq<T>, r: Tid, t: T)
    requires P.LawfulRelation() && Realizes(P, g, kept, w, r, t) && Independent(P, x, w) && u != [] && P.tid(x) != r
    ensures !PrecedesThread(P, u + [x] + g, |u|, r)
  {
    hide LastRun, Realizes, Chain;
    var run, k := u + [x] + g, |u|;
    var last := LastRun(P, run, r);
    if last >= 0 && Chain(P, run, k, last) {
      ChainIsOrdered(P, run, k, last);
      assert run[k] == x;
      var i := last - k - 1;
      assert run[last] == g[i] && k + 1 + i == last;
      KeptMeans(P, g, kept, w, r, t, i);
      NotChained(P, u, x, g, kept, w, r, t, i);
    }
  }

  /** So x is the last step in conflict with t. */
  lemma LastConflictOfRealized<O(!new), T(!new)>(P: Program<O, T>, u: seq<T>, x: T, g: seq<T>, kept: seq<bool>, w: seq<T>, r: Tid, t: T)
    requires P.LawfulRelation() && Realizes(P, g, kept, w, r, t) && Independent(P, x, w)
    requires u != [] && P.tid(x) != r && P.dep(x, t) && P.coen(x, t)
    ensures IsLastConflict(P, u + [x] + g, |u|, r, t)
  {
    hide LastRun, Realizes, Chain;
    var run, k := u + [x] + g, |u|;
    assert run == (u + [x]) + g && run[k] == x;
    NotBeforeThread(P, u, x, g, kept, w, r, t);
    forall i: nat | k < i < |run|
      ensures !Conflict(P, run, i, r, t)
    {
      var j := i - k - 1;
      assert run[i] == g[j] && |u + [x]| + j == i;
      KeptMeans(P, g, kept, w, r, t, j);
      if kept[j] {
        KeptIsChained(P, u + [x], g, kept, w, r, t, j);
      }
    }
  }

  /** Whoever could be scheduled instead of x to reach t is r or a thread of w. */
  lemma InitialsOfRealized<O(!new), T(!new)>(P: Program<O, T>, u: seq<T>, x: T, g: seq<T>, kept: seq<bool>, w: seq<T>, r: Tid, t: T, item: Item, q: Tid)
    requires P.LawfulRelation() && Realizes(P, g, kept, w, r, t) && u != [] && P.tid(x) != r
    requires q in Initials(P, u + [x] + g, item, |u|, r)
    ensures q == r || exists y :: y in w && P.tid(y) == q
  {
    hide LastRun, Realizes, Chain;
    var v, run, k := u + [x], u + [x] + g, |u|;
    assert run == v + g && run[k] == x;
    if q != r {
      var j: nat :| k < j < |run| && P.tid(run[j]) == q && PrecedesThread(P, run, j, r);
      var last := LastRun(P, run, r);
      ChainIsOrdered(P, run, j, last);
      var a, b := j - k - 1, last - k - 1;
      assert run[j] == g[a] && run[last] == g[b] && |v| + a == j && |v| + b == last;
      KeptMeans(P, g, kept, w, r, t, b);
      KeptMeans(P, g, kept, w, r, t, a);
      ChainedIsKept(P, v, g, kept, w, r, t, a, b);
      assert g[a] in w && P.tid(g[a]) == q;
    }
  }

  // ----- what the search owes at a conflict -----------------------------

  lemma ConflictIsKnown<O(!new), T(!new)>(W: World<O, T>, m: Machine<O, T>, x: T, r: Tid)
    requires W.Lawful() && Shape(W.program, m) && W.program.dep(x, W.pending(m.trans, r)) && W.program.coen(x, W.pending(m.trans, r))
    ensures r < |m.next|
  {
    hide World.Exec, World.After;
    assert [] + m.trans == m.trans;
    if r >= |m.next| {
      PendingKept(W, [], m.trans, r);
      assert false;
    }
  }

  lemma LivesOn<O, T>(moves: seq<Move<O, T>>, ms: seq<Machine<O, T>>, n: nat, c: nat, m: nat)
    requires |ms| == |moves| + 1 && n < |ms| && n <= c < |ms| && Lives(moves, ms, n, c) && Lives(moves, ms, c, m)
    requires |ms[n].trans| <= |ms[c].trans|
    ensures Lives(moves, ms, n, m)
  {
  }

  lemma WhatIsOwed<O(!new), T(!new)>(P: Program<O, T>, m: Machine<O, T>, r: Tid, k: nat)
    requires Owing(P, m) && r < |m.next| && k < |m.trans| && IsLastConflict(P, m.trans, k, r, m.next[r])
    ensures |m.items| == |m.trans| + 1 && Met(Initials(P, m.trans, m.items[k], k, r), m.items[k])
  {
    hide IsLastConflict, Initials, Met;
    assert m.trans[..|m.trans|] == m.trans;
    assert NextAt(P, m, |m.trans|, r) == m.next[r];
    assert Obligation(P, m.trans[..|m.trans|], m.items, r, NextAt(P, m, |m.trans|, r));
  }

  /** Where the step x taken from a state conflicts with what r is left about
      to do, r, or a thread that leads to it, or every awake thread, is run
      from that state too. */
  lemma Reversal<O(!new), T(!new)>(W: World<O, T>, objects: seq<O>, moves: seq<Move<O, T>>, ms: seq<Machine<O, T>>,
                                   n: nat, c: nat, m: nat, g: seq<T>, kept: seq<bool>, w: seq<T>, r: Tid, t: T, f: Tid) returns (c': nat, q: Tid)
    requires FullSearch(W, objects, moves, ms) && n < |ms| && |ms| == |moves| + 1 && ms[n].trans != [] && |ms[n].items| == |ms[n].trans| + 1
    requires ChildOf(moves, ms, n, c) && ms[c].trans != [] && c <= m && Lives(moves, ms, c, m) && ms[m].trans == ms[c].trans + g
    requires Realizes(W.program, g, kept, w, r, t) && W.pending(ms[m].trans, r) == t && Independent(W.program, StepTo(ms, c), w)
    requires W.program.dep(StepTo(ms, c), t) && W.program.coen(StepTo(ms, c), t) && W.program.tid(StepTo(ms, c)) != r
    requires W.CanRun(ms[n].trans, f) && f !in ms[n].items[|ms[n].trans|].sleep
    ensures WentTo(W.program, moves, ms, n, c', q)
    ensures q == f || q == r || exists y :: y in w && W.program.tid(y) == q
  {
    hide Core, Sound, Owing, World.Exec, World.After, Diligent, LawfulRewind, LawfulCalls, Realizes, Initials, IsLastConflict, WentTo, World.Lawful, IsSearch;
    var P, k, x := W.program, |ms[n].trans|, StepTo(ms, c);
    WorldIsLawful(W);
    ChildFacts(W, objects, moves, ms, n, c);
    SearchFacts(W, objects, moves, ms, m);
    CoreHasShape(P, ms[m]);
    LivesOn(moves, ms, n, c, m);
    LifeFacts(W, objects, moves, ms, n, m);
    ConflictIsKnown(W, ms[m], x, r);
    LastConflictOfRealized(P, ms[n].trans, x, g, kept, w, r, t);
    WhatIsOwed(P, ms[m], r, k);
    var item := ms[m].items[k];
    var E := Initials(P, ms[m].trans, item, k, r);
    if E == {} {
      q := f;
      if f in item.sleep {
        var c0: nat :| c0 <= m && WentTo(P, moves, ms, n, c0, f);
        c' := c0;
      } else {
        assert f in item.enabled - item.sleep;
        c' := BacktrackIsRun(W, objects, moves, ms, n, m, f);
      }
    } else {
      assert E * item.backtrack != {};
      q :| q in E * item.backtrack;
      InitialsOfRealized(P, ms[n].trans, x, g, kept, w, r, t, item, q);
      c' := BacktrackIsRun(W, objects, moves, ms, n, m, q);
    }
  }

  lemma WorldIsLawful<O(!new), T(!new)>(W: World<O, T>)
    requires W.Lawful()
    ensures W.program.LawfulRelation() && W.Deterministic()
  {
  }

  // ----- covering an execution from a state -----------------------------

  /** No thread that can start w is asleep where the search enters state n. */
  ghost predicate Awake<O(!new), T(!new)>(P: Program<O, T>, ms: seq<Machine<O, T>>, n: nat, w: seq<T>) {
    && n < |ms| && |ms[n].items| == |ms[n].trans| + 1
    && forall q | Initial(P, w, q) :: q !in ms[n].items[|ms[n].trans|].sleep
  }

  ghost predicate GoalFits<O(!new), T(!new)>(W: World<O, T>, u: seq<T>, w: seq<T>, goal: Goal<T>) {
    goal.Toward? ==> IsCone(W.program, w, goal.r) && W.pending(u + w, goal.r) == goal.t
  }

  /** While state n lives, the search performs g from it, and g covers w. */
  ghost predicate Reached<O(!new), T(!new)>(W: World<O, T>, moves: seq<Move<O, T>>, ms: seq<Machine<O, T>>, n: nat, w: seq<T>, goal: Goal<T>,
                                            m: nat, g: seq<T>, kept: seq<bool>)
    requires |ms| == |moves| + 1 && n < |ms|
  {
    && Lives(moves, ms, n, m) && ms[m].trans == ms[n].trans + g && Covered(W.program, w, g)
    && (goal.Toward? ==> Realizes(W.program, g, kept, w, goal.r, goal.t) && W.pending(ms[m].trans, goal.r) == goal.t)
  }

  /** A thread that can start w was run from n, and that led to c. */
  ghost predicate InitialChild<O(!new), T(!new)>(P: Program<O, T>, moves: seq<Move<O, T>>, ms: seq<Machine<O, T>>, n: nat, w: seq<T>, c: nat)
    requires |ms| == |moves| + 1 && n < |ms|
  {
    exists q :: WentTo(P, moves, ms, n, c, q) && Initial(P, w, q)
  }

  lemma {:induction false} Earliest<O(!new), T(!new)>(P: Program<O, T>, moves: seq<Move<O, T>>, ms: seq<Machine<O, T>>, n: nat, w: seq<T>, c: nat) returns (c': nat)
    requires |ms| == |moves| + 1 && n < |ms| && InitialChild(P, moves, ms, n, w, c)
    ensures InitialChild(P, moves, ms, n, w, c') && forall c0: nat | c0 < c' :: !InitialChild(P, moves, ms, n, w, c0)
    decreases c
  {
    if c0: nat :| c0 < c && InitialChild(P, moves, ms, n, w, c0) {
      c' := Earliest(P, moves, ms, n, w, c0);
    } else {
      c' := c;
    }
  }

  /** The first step of w that depends on x. */
  ghost function FirstDep<O(!new), T(!new)>(P: Program<O, T>, w: seq<T>, x: T): (j: nat)
    ensures j <= |w| && (j < |w| ==> P.dep(w[j], x)) && forall i | 0 <= i < j :: !P.dep(w[i], x)
  {
    if w == [] || P.dep(w[0], x) then 0 else 1 + FirstDep(P, w[1..], x)
  }

  lemma AwakeAfterInitial<O(!new), T(!new)>(W: World<O, T>, objects: seq<O>, moves: seq<Move<O, T>>, ms: seq<Machine<O, T>>, n: nat, w: seq<T>, c: nat, i: nat)
    requires FullSearch(W, objects, moves, ms) && n < |ms| && |ms| == |moves| + 1 && W.Exec(ms[n].trans + w) && Awake(W.program, ms, n, w)
    requires ChildOf(moves, ms, n, c) && ms[c].trans != [] && i < |w| && w[i] == StepTo(ms, c) && FirstAt(W.program, w, i)
    requires forall c0: nat | c0 < c :: !InitialChild(W.program, moves, ms, n, w, c0)
    ensures Awake(W.program, ms, c, Drop(w, i))
  {
    hide World.Exec, World.After, Diligent, LawfulRewind, LawfulCalls, WentTo, World.Lawful, IsSearch;
    var P, u, x, rest := W.program, ms[n].trans, StepTo(ms, c), Drop(w, i);
    WorldIsLawful(W);
    ChildFacts(W, objects, moves, ms, n, c);
    TakeInitial(W, u, w, i);
    forall q | Initial(P, rest, q)
      ensures q !in ms[c].items[|ms[c].trans|].sleep
    {
      var j: nat :| j < |rest| && P.tid(rest[j]) == q && FirstAt(P, rest, j);
      InitialIsPending(W, u + [x], rest, j);
      assert u + [x] + rest == (u + [x]) + rest;
      if q in ms[c].items[|ms[c].trans|].sleep {
        assert q != P.tid(x);
        assert W.pending(u + [x], q) == W.pending(u, q);
        InitialOfRest(P, w, i, q, j);
        if q !in ms[n].items[|u|].sleep {
          var c0: nat :| c0 < c && WentTo(P, moves, ms, n, c0, q);
          RanBeforeIsNoInitial(P, moves, ms, n, w, c0, q);
        }
        assert false;
      }
    }
  }

  lemma RanBeforeIsNoInitial<O(!new), T(!new)>(P: Program<O, T>, moves: seq<Move<O, T>>, ms: seq<Machine<O, T>>, n: nat, w: seq<T>, c0: nat, q: Tid)
    requires |ms| == |moves| + 1 && n < |ms| && WentTo(P, moves, ms, n, c0, q) && !InitialChild(P, moves, ms, n, w, c0)
    ensures !Initial(P, w, q)
  {
  }

  lemma NoInitialIsNotFirst<O(!new), T(!new)>(P: Program<O, T>, w: seq<T>, i: nat)
    requires i < |w| && !Initial(P, w, P.tid(w[i]))
    ensures !FirstAt(P, w, i)
  {
  }

  lemma InitialIsPending<O(!new), T(!new)>(W: World<O, T>, u: seq<T>, w: seq<T>, i: nat)
    requires W.Lawful() && W.Exec(u + w) && i < |w| && FirstAt(W.program, w, i)
    ensures w[i] == W.pending(u, W.program.tid(w[i])) && W.CanRun(u, W.program.tid(w[i]))
  {
    hide World.Exec, World.After, World.Lawful;
    TakeInitial(W, u, w, i);
  }

  lemma AwakeAfterOther<O(!new), T(!new)>(W: World<O, T>, objects: seq<O>, moves: seq<Move<O, T>>, ms: seq<Machine<O, T>>, n: nat, w: seq<T>, c: nat, v: seq<T>)
    requires FullSearch(W, objects, moves, ms) && n < |ms| && |ms| == |moves| + 1 && Awake(W.program, ms, n, w)
    requires ChildOf(moves, ms, n, c)
    requires forall c0: nat :: !InitialChild(W.program, moves, ms, n, w, c0)
    requires forall q | Initial(W.program, v, q) :: Initial(W.program, w, q)
    ensures Awake(W.program, ms, c, v)
  {
    hide Diligent, LawfulRewind, LawfulCalls, WentTo, World.Lawful, IsSearch, Initial;
    ChildFacts(W, objects, moves, ms, n, c);
    forall q | Initial(W.program, v, q)
      ensures q !in ms[c].items[|ms[c].trans|].sleep
    {
      if q in ms[c].items[|ms[c].trans|].sleep {
        var c0: nat :| c0 < c && WentTo(W.program, moves, ms, n, c0, q);
        RanBeforeIsNoInitial(W.program, moves, ms, n, w, c0, q);
        assert false;
      }
    }
  }

  lemma ReachedByInitial<O(!new), T(!new)>(W: World<O, T>, moves: seq<Move<O, T>>, ms: seq<Machine<O, T>>, n: nat, w: seq<T>, goal: Goal<T>,
                                           c: nat, i: nat, m: nat, g: seq<T>, kept: seq<bool>)
    requires W.program.LawfulRelation() && |ms| == |moves| + 1 && n < |ms| && ChildOf(moves, ms, n, c)
    requires ms[c].trans != [] && ms[c].trans == ms[n].trans + [StepTo(ms, c)] && i < |w| && w[i] == StepTo(ms, c) && FirstAt(W.program, w, i)
    requires (goal.Toward? ==> IsCone(W.program, w, goal.r)) && Reached(W, moves, ms, c, Drop(w, i), goal, m, g, kept)
    ensures Reached(W, moves, ms, n, w, goal, m, [w[i]] + g, [true] + kept)
  {
    hide Realizes, IsCone;
    var g' := [w[i]] + g;
    LivesOn(moves, ms, n, c, m);
    assert ms[m].trans == ms[n].trans + g';
    assert g'[1..] == g;
    assert TakesInitial(W.program, w, g');
    if goal.Toward? {
      RealizesInitial(W.program, g, kept, w, goal.r, goal.t, i);
    }
  }

  lemma ReachedByOther<O(!new), T(!new)>(W: World<O, T>, moves: seq<Move<O, T>>, ms: seq<Machine<O, T>>, n: nat, w: seq<T>, goal: Goal<T>,
                                         c: nat, m: nat, g: seq<T>, kept: seq<bool>)
    requires W.program.LawfulRelation() && |ms| == |moves| + 1 && n < |ms| && ChildOf(moves, ms, n, c) && w != []
    requires ms[c].trans != [] && ms[c].trans == ms[n].trans + [StepTo(ms, c)] && Independent(W.program, StepTo(ms, c), w)
    requires goal.Toward? ==> W.program.tid(StepTo(ms, c)) != goal.r && !Conflicts(W.program, StepTo(ms, c), goal)
    requires Reached(W, moves, ms, c, w, goal, m, g, kept)
    ensures Reached(W, moves, ms, n, w, goal, m, [StepTo(ms, c)] + g, [false] + kept)
  {
    hide Realizes;
    var x, g' := StepTo(ms, c), [StepTo(ms, c)] + g;
    LivesOn(moves, ms, n, c, m);
    assert ms[m].trans == ms[n].trans + g';
    assert g'[0] == x && g'[1..] == g;
    if goal.Toward? {
      RealizesOther(W.program, x, g, kept, w, goal.r, goal.t);
    }
  }

  // ----- the covering theorem -------------------------------------------

  /** Whatever can be executed from a state, without starting with a thread
      that is asleep there, is covered while the state lives. */
  lemma {:induction false} Reach<O(!new), T(!new)>(W: World<O, T>, objects: seq<O>, moves: seq<Move<O, T>>, ms: seq<Machine<O, T>>, n: nat, w: seq<T>, goal: Goal<T>)
      returns (m: nat, g: seq<T>, kept: seq<bool>)
    requires FullSearch(W, objects, moves, ms) && n < |ms| && |ms| == |moves| + 1 && Awake(W.program, ms, n, w)
    requires W.Exec(ms[n].trans + w) && GoalFits(W, ms[n].trans, w, goal)
    ensures Reached(W, moves, ms, n, w, goal, m, g, kept)
    decreases |ms| - n, 2, 0
  {
    hide World.Exec, World.After, Diligent, LawfulRewind, LawfulCalls, World.Lawful, IsSearch, Mirrors;
    var u := ms[n].trans;
    if w == [] {
      m, g, kept := n, [], [];
      assert u + w == u;
    } else {
      StartsAwake(W, ms, n, w);
      var c := AwakeMeansChild(W, objects, moves, ms, n, W.program.tid(w[0]));
      ChildFacts(W, objects, moves, ms, n, c);
      m, g, kept := Pursue(W, objects, moves, ms, n, w, goal, c);
    }
  }

  lemma StartsAwake<O(!new), T(!new)>(W: World<O, T>, ms: seq<Machine<O, T>>, n: nat, w: seq<T>)
    requires W.Lawful() && n < |ms| && w != [] && W.Exec(ms[n].trans + w) && Awake(W.program, ms, n, w)
    ensures var f := W.program.tid(w[0]);
            Initial(W.program, w, f) && W.CanRun(ms[n].trans, f) && f !in ms[n].items[|ms[n].trans|].sleep
  {
    hide World.Exec, World.After, World.Lawful;
    assert FirstAt(W.program, w, 0);
    TakeInitial(W, ms[n].trans, w, 0);
  }

  /** From a state with a step to c: take a step that starts w, if the search
      ever does; or the step to c, if it disturbs nothing; or else a step owed
      because of it, which disturbs w earlier. */
  lemma {:induction false} Pursue<O(!new), T(!new)>(W: World<O, T>, objects: seq<O>, moves: seq<Move<O, T>>, ms: seq<Machine<O, T>>, n: nat, w: seq<T>, goal: Goal<T>, c: nat)
      returns (m: nat, g: seq<T>, kept: seq<bool>)
    requires FullSearch(W, objects, moves, ms) && n < |ms| && |ms| == |moves| + 1 && Awake(W.program, ms, n, w)
    requires W.Exec(ms[n].trans + w) && GoalFits(W, ms[n].trans, w, goal) && w != []
    requires ChildOf(moves, ms, n, c) && ms[c].trans != []
    ensures Reached(W, moves, ms, n, w, goal, m, g, kept)
    decreases |ms| - n, 1, FirstDep(W.program, w, StepTo(ms, c))
  {
    hide World.Exec, World.After, Diligent, LawfulRewind, LawfulCalls, World.Lawful, IsSearch, WentTo, Mirrors, Covered, Realizes, Awake;
    var P, u, x := W.program, ms[n].trans, StepTo(ms, c);
    WorldIsLawful(W);
    ChildFacts(W, objects, moves, ms, n, c);
    if c0: nat :| InitialChild(P, moves, ms, n, w, c0) {
      m, g, kept := PursueInitial(W, objects, moves, ms, n, w, goal, c0);
    } else if Independent(P, x, w) && !Conflicts(P, x, goal) {
      GoalAfterOther(W, u, w, goal, P.tid(x));
      AwakeAfterOther(W, objects, moves, ms, n, w, c, w);
      m, g, kept := Reach(W, objects, moves, ms, c, w, goal);
      ReachedByOther(W, moves, ms, n, w, goal, c, m, g, kept);
      g, kept := [x] + g, [false] + kept;
    } else {
      var c' := PursueConflict(W, objects, moves, ms, n, w, goal, c);
      m, g, kept := Pursue(W, objects, moves, ms, n, w, goal, c');
    }
  }

  lemma GoalAfterOther<O(!new), T(!new)>(W: World<O, T>, u: seq<T>, w: seq<T>, goal: Goal<T>, p: Tid)
    requires W.Lawful() && W.Exec(u + w) && W.CanRun(u, p) && Independent(W.program, W.pending(u, p), w) && w != [] && GoalFits(W, u, w, goal)
    ensures W.Exec((u + [W.pending(u, p)]) + w) && GoalFits(W, u + [W.pending(u, p)], w, goal)
    ensures goal.Toward? ==> W.program.tid(W.pending(u, p)) != goal.r
  {
    hide World.Exec, World.After;
    var x := W.pending(u, p);
    TakeFirst(W, u, w, p);
    if goal.Toward? {
      assert !W.program.dep(w[|w| - 1], x);
    }
  }

  lemma PursueInitial<O(!new), T(!new)>(W: World<O, T>, objects: seq<O>, moves: seq<Move<O, T>>, ms: seq<Machine<O, T>>, n: nat, w: seq<T>, goal: Goal<T>, c0: nat)
      returns (m: nat, g: seq<T>, kept: seq<bool>)
    requires FullSearch(W, objects, moves, ms) && n < |ms| && |ms| == |moves| + 1 && Awake(W.program, ms, n, w)
    requires W.Exec(ms[n].trans + w) && GoalFits(W, ms[n].trans, w, goal) && w != []
    requires InitialChild(W.program, moves, ms, n, w, c0)
    ensures Reached(W, moves, ms, n, w, goal, m, g, kept)
    decreases |ms| - n, 0, 0
  {
    hide World.Exec, World.After, Diligent, LawfulRewind, LawfulCalls, World.Lawful, IsSearch, Mirrors, Covered, Realizes, Awake, IsCone, FirstAt;
    var P, u := W.program, ms[n].trans;
    WorldIsLawful(W);
    var c := Earliest(P, moves, ms, n, w, c0);
    var q :| WentTo(P, moves, ms, n, c, q) && Initial(P, w, q);
    var i: nat :| i < |w| && P.tid(w[i]) == q && FirstAt(P, w, i);
    ChildFacts(W, objects, moves, ms, n, c);
    TakeInitial(W, u, w, i);
    assert w[i] == StepTo(ms, c);
    AwakeAfterInitial(W, objects, moves, ms, n, w, c, i);
    assert u + [w[i]] + Drop(w, i) == ms[c].trans + Drop(w, i);
    if goal.Toward? {
      ConeOfRest(P, w, goal.r, i);
    }
    m, g, kept := Reach(W, objects, moves, ms, c, Drop(w, i), goal);
    ReachedByInitial(W, moves, ms, n, w, goal, c, i, m, g, kept);
    g, kept := [w[i]] + g, [true] + kept;
  }

  /** Where p disturbs w: the thread r and step t it conflicts with, and what
      comes before. */
  lemma ConflictPoint<O(!new), T(!new)>(W: World<O, T>, u: seq<T>, w: seq<T>, goal: Goal<T>, p: Tid) returns (r: Tid, t: T, a: seq<T>, i: nat)
    requires W.Lawful() && W.Exec(u + w) && GoalFits(W, u, w, goal) && w != [] && W.CanRun(u, p) && !Initial(W.program, w, p)
    requires !(Independent(W.program, W.pending(u, p), w) && !Conflicts(W.program, W.pending(u, p), goal))
    ensures a <= w && W.Exec(u + a) && Independent(W.program, W.pending(u, p), a) && W.pending(u + a, r) == t
    ensures W.program.dep(W.pending(u, p), t) && W.program.coen(W.pending(u, p), t) && r != p
    ensures i < |w| && i <= FirstDep(W.program, w, W.pending(u, p)) && |a| <= FirstDep(W.program, w, W.pending(u, p)) && W.program.tid(w[i]) == r
  {
    hide World.Exec, World.After;
    var P, x := W.program, W.pending(u, p);
    var pos: nat := FirstDep(P, w, x);
    if pos < |w| {
      r, t, a, i := P.tid(w[pos]), w[pos], w[..pos], pos;
      assert (u + w)[..|u| + pos] == u + a && (u + w)[|u| + pos] == t;
      ExecPrefix(W, u + w, |u| + pos);
      if r == p {
        FirstIsPending(W, u, w, pos);
        NoInitialIsNotFirst(P, w, pos);
        assert false;
      }
      Persists(W, u, a, p);
      ReadyTogether(W, u + a, p, r);
    } else {
      r, t, a, i := goal.r, goal.t, w, |w| - 1;
      assert !P.dep(w[|w| - 1], x);
    }
  }

  lemma ReadyTogether<O(!new), T(!new)>(W: World<O, T>, v: seq<T>, p: Tid, r: Tid)
    requires W.Lawful() && W.Exec(v) && W.CanRun(v, p) && W.CanRun(v, r) && p != r
    ensures W.program.coen(W.pending(v, p), W.pending(v, r))
  {
    hide World.Exec, World.After;
    assert W.program.Ready(W.After(v), W.pending(v, p)) && W.program.Ready(W.After(v), W.pending(v, r));
  }

  lemma InitialOfPrefix<O(!new), T(!new)>(P: Program<O, T>, a: seq<T>, w: seq<T>, q: Tid)
    requires a <= w && Initial(P, a, q)
    ensures Initial(P, w, q)
  {
    var i: nat :| i < |a| && P.tid(a[i]) == q && FirstAt(P, a, i);
    assert a[..i] == w[..i] && a[i] == w[i];
    assert FirstAt(P, w, i);
  }

  /** A thread of w that cannot start it depends on something before its first
      step. */
  lemma EarlierDep<O(!new), T(!new)>(W: World<O, T>, u: seq<T>, w: seq<T>, q: Tid, i: nat)
    requires W.Lawful() && W.Exec(u + w) && i < |w| && W.program.tid(w[i]) == q && !Initial(W.program, w, q)
    ensures FirstDep(W.program, w, W.pending(u, q)) < i
    decreases i
  {
    hide World.Exec, World.After;
    if j :| 0 <= j < i && W.program.tid(w[j]) == q {
      EarlierDep(W, u, w, q, j);
    } else {
      FirstIsPending(W, u, w, i);
      assert !FirstAt(W.program, w, i);
    }
  }

  lemma RootHasOneThread<O(!new), T(!new)>(W: World<O, T>, m: Machine<O, T>, p: Tid)
    requires Shape(W.program, m) && Mirrors(W, m) && m.trans == [] && W.CanRun([], p)
    ensures p == 0
  {
  }

  /** Where the step to c disturbs w, the search owes a step that disturbs it
      earlier. */
  lemma PursueConflict<O(!new), T(!new)>(W: World<O, T>, objects: seq<O>, moves: seq<Move<O, T>>, ms: seq<Machine<O, T>>, n: nat, w: seq<T>, goal: Goal<T>, c: nat)
      returns (c': nat)
    requires FullSearch(W, objects, moves, ms) && n < |ms| && |ms| == |moves| + 1 && Awake(W.program, ms, n, w)
    requires W.Exec(ms[n].trans + w) && GoalFits(W, ms[n].trans, w, goal) && w != []
    requires ChildOf(moves, ms, n, c) && ms[c].trans != []
    requires forall c0: nat :: !InitialChild(W.program, moves, ms, n, w, c0)
    requires !(Independent(W.program, StepTo(ms, c), w) && !Conflicts(W.program, StepTo(ms, c), goal))
    ensures ChildOf(moves, ms, n, c') && ms[c'].trans != []
    ensures FirstDep(W.program, w, StepTo(ms, c')) < FirstDep(W.program, w, StepTo(ms, c))
    decreases |ms| - n, 0, 0
  {
    hide World.Exec, World.After, Diligent, LawfulRewind, LawfulCalls, World.Lawful, IsSearch, Mirrors, Covered, Realizes, Awake, IsCone, FirstAt, Initial, WentTo, FirstDep, Core, Sound, Owing;
    var P, u, x := W.program, ms[n].trans, StepTo(ms, c);
    var p := P.tid(x);
    WorldIsLawful(W);
    SearchFacts(W, objects, moves, ms, n);
    CoreHasShape(P, ms[n]);
    ChildFacts(W, objects, moves, ms, n, c);
    StartsAwake(W, ms, n, w);
    var f := P.tid(w[0]);
    assert !Initial(P, w, p) by { assert !InitialChild(P, moves, ms, n, w, c); }
    if u == [] {
      RootHasOneThread(W, ms[n], p);
      RootHasOneThread(W, ms[n], f);
      assert false;
    }
    var r, t, a, i := ConflictPoint(W, u, w, goal, p);
    var k := ConeOfPart(W, u, a, r);
    IndependentPart(P, x, a, k);
    TakeFirst(W, u, k, p);
    forall q | Initial(P, k, q)
      ensures Initial(P, w, q)
    {
      InitialOfPrefix(P, a, w, q);
    }
    AwakeAfterOther(W, objects, moves, ms, n, w, c, k);
    assert ms[c].trans + k == u + [x] + k;
    var m, g, kept := Reach(W, objects, moves, ms, c, k, Toward(r, t));
    var q;
    c', q := Reversal(W, objects, moves, ms, n, c, m, g, kept, k, r, t, f);
    assert !Initial(P, w, q) by { assert !InitialChild(P, moves, ms, n, w, c'); }
    IsChild(P, moves, ms, n, c', q);
    ChildFacts(W, objects, moves, ms, n, c');
    if q == r {
      EarlierDep(W, u, w, q, i);
    } else {
      var y :| y in k && P.tid(y) == q;
      var j :| 0 <= j < |a| && a[j] == y;
      EarlierDep(W, u, w, q, j);
    }
  }

  lemma IsChild<O(!new), T(!new)>(P: Program<O, T>, moves: seq<Move<O, T>>, ms: seq<Machine<O, T>>, n: nat, c: nat, q: Tid)
    requires |ms| == |moves| + 1 && n < |ms| && WentTo(P, moves, ms, n, c, q)
    ensures ChildOf(moves, ms, n, c) && ms[c].trans != [] && P.tid(StepTo(ms, c)) == q
  {
  }

  lemma ConeOfPart<O(!new), T(!new)>(W: World<O, T>, u: seq<T>, a: seq<T>, r: Tid) returns (k: seq<T>)
    requires W.Lawful() && W.Exec(u + a)
    ensures ConeOf(W, u, a, r, k)
  {
    hide World.Exec, World.After, World.Lawful;
    assert u + a + [] == u + a && a + [] == a;
    k := ConeExists(W, u, a, [], r);
  }

  lemma IndependentPart<O(!new), T(!new)>(P: Program<O, T>, x: T, a: seq<T>, k: seq<T>)
    requires Independent(P, x, a) && forall y | y in k :: y in a
    ensures Independent(P, x, k)
  {
    forall i | 0 <= i < |k|
      ensures !P.dep(k[i], x)
    {
      assert k[i] in a;
    }
  }

  /** The stack held, at some moment of the search, a run that covers w. */
  ghost predicate Performed<O(!new), T(!new)>(P: Program<O, T>, ms: seq<Machine<O, T>>, w: seq<T>) {
    exists m: nat :: m < |ms| && Covered(P, w, ms[m].trans)
  }

  /** The search performs every execution, up to the order of independent
      steps, and possibly among others independent of it. */
  lemma EveryExecutionIsCovered<O(!new), T(!new)>(W: World<O, T>, objects: seq<O>, moves: seq<Move<O, T>>, ms: seq<Machine<O, T>>, w: seq<T>)
    requires FullSearch(W, objects, moves, ms) && W.Exec(w)
    ensures Performed(W.program, ms, w)
  {
    hide World.Exec, World.After, Diligent, LawfulRewind, LawfulCalls, World.Lawful, Mirrors, Covered;
    assert ms[0] == Start(W.program, objects) && ms[0].trans + w == w;
    var m, g, kept := Reach(W, objects, moves, ms, 0, w, Whole);
    assert ms[m].trans == g;
  }

  /** At some moment the stack held exactly the steps of w, in an order its
      trace allows, with the objects and pending transitions w leads to. */
  ghost predicate Visited<O(!new), T(!new)>(W: World<O, T>, ms: seq<Machine<O, T>>, w: seq<T>, m: nat) {
    && m < |ms| && SameTrace(W.program, w, ms[m].trans) && W.After(ms[m].trans) == W.After(w)
    && forall p :: W.pending(ms[m].trans, p) == W.pending(w, p)
  }

  /** So it visits the end of every execution that cannot go on: no deadlock
      is missed. */
  lemma EveryEndIsVisited<O(!new), T(!new)>(W: World<O, T>, objects: seq<O>, moves: seq<Move<O, T>>, ms: seq<Machine<O, T>>, w: seq<T>)
    requires FullSearch(W, objects, moves, ms) && W.Exec(w) && Maximal(W, w)
    ensures exists m: nat :: Visited(W, ms, w, m)
  {
    hide World.Exec, World.After, Diligent, LawfulRewind, LawfulCalls, World.Lawful, Mirrors, Covered, SameTrace, IsSearch, Core, Sound, Owing;
    EveryExecutionIsCovered(W, objects, moves, ms, w);
    var m: nat :| m < |ms| && Covered(W.program, w, ms[m].trans);
    SearchFacts(W, objects, moves, ms, m);
    assert [] + w == w && [] + ms[m].trans == ms[m].trans;
    CoveredMaximal(W, [], w, ms[m].trans);
    assert Visited(W, ms, w, m);
  }

  // ----- searches cut short by no limit ---------------------------------

  /** No branch was ended by a limit on transitions. */
  ghost predicate Unlimited<O(!new), T(!new)>(moves: seq<Move<O, T>>, ms: seq<Machine<O, T>>, limit: int, maxDepth: nat)
    requires |ms| == |moves| + 1
  {
    forall n: nat | n <= |moves| && EndsBranch(moves, n) ::
      |ms[n].trans| - 1 < limit && forall q: Tid | q < |ms[n].depth| :: ms[n].depth[q] < maxDepth
  }

  lemma ThoroughIsDiligent<O(!new), T(!new)>(P: Program<O, T>, moves: seq<Move<O, T>>, ms: seq<Machine<O, T>>, limit: int, maxDepth: nat)
    requires |ms| == |moves| + 1 && Thorough(P, moves, ms, limit, maxDepth) && EndedAt(P, ms[|moves|], limit, maxDepth)
    requires NothingToBacktrackOn(ms[|moves|]) && Unlimited(moves, ms, limit, maxDepth)
    ensures Diligent(P, moves, ms)
  {
    forall n: nat | n <= |moves| && EndsBranch(moves, n)
      ensures AllAsleep(P, ms[n])
    {
      assert EndedAt(P, ms[n], limit, maxDepth);
    }
    forall n: nat, l: nat | n < |moves| && moves[n].Branch? && moves[n].k < l < |ms[n].items|
      ensures ms[n].items[l].backtrack == {}
    {
      assert DeepestIs(ms[n], moves[n].k);
    }
  }

  // ----- mutexes, threads and global variables --------------------------

  lemma DiamondIsLawful(home: Transitions.Home)
    requires Transitions.Injective(home)
    ensures LawfulDiamond(Transitions.TheProgram(home))
  {
    hide Transitions.Apply, Transitions.Enabled, Transitions.Dependent, Transitions.Proper;
    var P := Transitions.TheProgram(home);
    forall s, a: Transitions.Transition, b: Transitions.Transition | !P.dep(a, b) && P.Ready(s, a) && P.Ready(s, b)
      ensures P.enabled(P.apply(s, a), b)
    {
      Transitions.ProperCallsAreIndependent(home, s, a, b);
    }
  }

  lemma CoenabledIsLawful(home: Transitions.Home)
    ensures LawfulCoenabled(Transitions.TheProgram(home))
  {
    var P := Transitions.TheProgram(home);
    forall s, a: Transitions.Transition, b: Transitions.Transition | P.tid(a) != P.tid(b) && P.Ready(s, a) && P.Ready(s, b)
      ensures P.coen(a, b)
    {
    }
  }

  lemma ProgramWorldIsLawful(home: Transitions.Home, W: World<Transitions.Object, Transitions.Transition>)
    requires Transitions.Injective(home) && W.program == Transitions.TheProgram(home) && W.Deterministic()
    ensures W.Lawful() && W.program.LawfulStore() && W.program.LawfulUndo() && LawfulRewind(W.program) && LawfulCalls(W.program)
  {
    hide World.Deterministic, LawfulDiamond, LawfulCoenabled, LawfulRewind, LawfulCalls, Program.LawfulExchange, Program.LawfulStore, Program.LawfulUndo;
    Transitions.RelationIsLawful(home);
    Transitions.ExchangeIsLawful(home);
    DiamondIsLawful(home);
    CoenabledIsLawful(home);
    Transitions.StoreIsLawful(home);
    Transitions.UndoIsLawful(home);
    Transitions.RewindIsLawful(home);
    CallsAreLawful(home);
  }

  lemma CallsAreLawful(home: Transitions.Home)
    ensures LawfulCalls(Transitions.TheProgram(home))
  {
    var P := Transitions.TheProgram(home);
    forall s: seq<Transitions.Object>, e: seq<Transitions.Object>, t: Transitions.Transition | P.fits(|s|, t)
      ensures P.proper(s + e, t) == P.proper(s, t)
    {
    }
  }

  /** The end of every execution of a deterministic program of mutexes, threads
      and global variables, whose calls are well defined, is visited by any
      search of it that is run to its end. */
  lemma ProgramMissesNothing(home: Transitions.Home, W: World<Transitions.Object, Transitions.Transition>, objects: seq<Transitions.Object>,
                             moves: seq<Move<Transitions.Object, Transitions.Transition>>, ms: seq<Machine<Transitions.Object, Transitions.Transition>>,
                             w: seq<Transitions.Transition>)
    requires Transitions.Injective(home) && W.program == Transitions.TheProgram(home) && W.Deterministic()
    requires IsSearch(W.program, objects, moves, ms) && Diligent(W.program, moves, ms)
    requires forall n: nat | n < |ms| :: Mirrors(W, ms[n])
    requires W.Exec(w) && Maximal(W, w)
    ensures exists m: nat :: Visited(W, ms, w, m)
  {
    hide World.Deterministic, World.Lawful, World.Exec, Diligent, Mirrors, Visited, IsSearch, Maximal, LawfulRewind, LawfulCalls, Program.LawfulStore, Program.LawfulUndo, Tracked;
    ProgramWorldIsLawful(home, W);
    MirroredIsFollowed(W, objects, moves, ms);
    EveryEndIsVisited(W, objects, moves, ms, w);
  }

  // ----- the hypotheses can be met --------------------------------------

  const HOME: Transitions.Home := (p: Tid) => p

  /** A program whose main thread starts and is done. */
  ghost function LoneWorld(): World<Transitions.Object, Transitions.Transition> {
    World(
      Transitions.TheProgram(HOME),
      [Transitions.Thread(Transitions.Alive)],
      (run: seq<Transitions.Transition>, p: Tid) =>
        Transitions.Transition(p, if exists i :: 0 <= i < |run| && run[i].tid == p then Transitions.ThreadFinish else Transitions.ThreadStart))
  }

  lemma LoneWorldIsDeterministic()
    ensures LoneWorld().Deterministic()
  {
    hide World.Exec;
    var W := LoneWorld();
    forall run, x, q | W.program.tid(x) != q
      ensures W.pending(run + [x], q) == W.pending(run, q)
    {
      assert forall i | 0 <= i < |run| :: (run + [x])[i] == run[i];
    }
    forall u, x, y, v, p | !W.program.dep(x, y) && W.Exec(u + [x] + [y] + v)
      ensures W.pending(u + [x] + [y] + v, p) == W.pending(u + [y] + [x] + v, p)
    {
      SameThreads(u, x, y, v, p);
      SameThreads(u, y, x, v, p);
    }
    forall run, p | W.CanRun(run, p)
      ensures W.program.proper(W.After(run), W.pending(run, p))
    {
    }
  }

  lemma SameThreads(u: seq<Transitions.Transition>, x: Transitions.Transition, y: Transitions.Transition, v: seq<Transitions.Transition>, p: Tid)
    ensures (exists i :: 0 <= i < |u + [x] + [y] + v| && (u + [x] + [y] + v)[i].tid == p)
            ==> exists i :: 0 <= i < |u + [y] + [x] + v| && (u + [y] + [x] + v)[i].tid == p
  {
    var a, b := u + [x] + [y] + v, u + [y] + [x] + v;
    if i :| 0 <= i < |a| && a[i].tid == p {
      var n := |u|;
      var j := if i == n then n + 1 else if i == n + 1 then n else i;
      assert b[j] == a[i];
    }
  }

  lemma LoneUpdate<O(!new), T(!new)>(P: Program<O, T>, s: Machine<O, T>)
    requires Shape(P, s) && |s.trans| == 1 && |s.next| == 1 && P.tid(s.trans[0]) == 0
    ensures Updated(P, s, s)
  {
    var none: seq<Tid> := [];
    assert Lists(none, Others(P, s)) && ProcessedAll(P, s, 0, none, s.items[0], s.items[0]);
  }

  /** Its search is one step long. */
  lemma LoneSearchIsFull() returns (moves: seq<Move<Transitions.Object, Transitions.Transition>>, ms: seq<Machine<Transitions.Object, Transitions.Transition>>)
    ensures |moves| == 1 && FullSearch(LoneWorld(), LoneWorld().objects, moves, ms)
  {
    hide World.Deterministic, World.Lawful, Program.LawfulStore, Program.LawfulUndo, LawfulRewind, LawfulCalls, Updated, Transitions.Dependent, NextClock, ItemClocks;
    var W := LoneWorld();
    var P, finish := W.program, Transitions.Transition(0, Transitions.ThreadFinish);
    var reply := Reply(finish, [], 0);
    var m := Start(P, W.objects);
    var m' := Simulate(P, m, 0, reply);
    LoneWorldIsDeterministic();
    ProgramWorldIsLawful(HOME, W);
    LoneMoves(m, m', reply);
    LoneMirrors(m, m', reply);
    moves, ms := [Run(0, reply)], [m, m'];
    assert P.LawfulRelation() by { Transitions.RelationIsLawful(HOME); }
    assert Makes(P, ms[0], moves[0], ms[1]);
    forall n: nat | n < |ms|
      ensures Mirrors(W, ms[n])
    {
      assert ms[n] == if n == 0 then m else m';
    }
  }

  lemma LoneMoves(m: Machine<Transitions.Object, Transitions.Transition>, m': Machine<Transitions.Object, Transitions.Transition>,
                  reply: Reply<Transitions.Object, Transitions.Transition>)
    requires reply == Reply(Transitions.Transition(0, Transitions.ThreadFinish), [], 0)
    requires m == Start(LoneWorld().program, LoneWorld().objects) && m' == Simulate(LoneWorld().program, m, 0, reply)
    ensures Makes(LoneWorld().program, m, Run(0, reply), m')
    ensures AllAsleep(LoneWorld().program, m') && NothingToBacktrackOn(m')
  {
    hide NextClock, ItemClocks, Updated, Transitions.Dependent;
    LoneUpdate(LoneWorld().program, m');
    assert m'.next == [reply.next] + [];
  }

  lemma LoneMirrors(m: Machine<Transitions.Object, Transitions.Transition>, m': Machine<Transitions.Object, Transitions.Transition>,
                    reply: Reply<Transitions.Object, Transitions.Transition>)
    requires reply == Reply(Transitions.Transition(0, Transitions.ThreadFinish), [], 0)
    requires m == Start(LoneWorld().program, LoneWorld().objects) && m' == Simulate(LoneWorld().program, m, 0, reply)
    ensures Mirrors(LoneWorld(), m) && Mirrors(LoneWorld(), m')
  {
    hide NextClock, ItemClocks, Transitions.Dependent;
    var W := LoneWorld();
    assert m'.trans == [] + [Transitions.Transition(0, Transitions.ThreadStart)];
    assert m'.trans[..0] == [];
    assert W.After(m'.trans) == W.objects;
    assert m'.trans[0].tid == 0;
  }
}
