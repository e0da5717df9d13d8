/** The backtrack obligations of dynamic partial order reduction, stated by
    chains of dependent transitions, and the proof that the update, which
    rescans the stack for the last runner only, keeps them for every thread
    and every prefix of the stack. */
module Obligations {
  import opened ClockVectors
  import opened Programs
  import opened Chains
  import opened Machines

  // ----- what is owed ---------------------------------------------------

  /** nx, pending for thread p after run, conflicts with run[i]: dependent,
      co-enabled, and not ordered after it. */
  ghost predicate Conflict<O(!new), T(!new)>(P: Program<O, T>, run: seq<T>, i: nat, p: Tid, nx: T)
    requires i < |run|
  {
    P.dep(run[i], nx) && P.coen(run[i], nx) && !PrecedesThread(P, run, i, p)
  }

  ghost predicate IsLastConflict<O(!new), T(!new)>(P: Program<O, T>, run: seq<T>, i: nat, p: Tid, nx: T)
    requires i < |run|
  {
    Conflict(P, run, i, p, nx) && forall k: nat | i < k < |run| :: !Conflict(P, run, k, p, nx)
  }

  /** q ran after index i, before something p has already run. */
  ghost predicate Race<O(!new), T(!new)>(P: Program<O, T>, run: seq<T>, i: nat, q: Tid, p: Tid) {
    exists j: nat :: i < j < |run| && P.tid(run[j]) == q && PrecedesThread(P, run, j, p)
  }

  /** The awake enabled threads that can lead to nx before run[i]. */
  ghost function Initials<O(!new), T(!new)>(P: Program<O, T>, run: seq<T>, item: Item, i: nat, p: Tid): set<Tid> {
    set q | q in item.enabled && q !in item.sleep && (q == p || Race(P, run, i, q, p))
  }

  ghost predicate Met(E: set<Tid>, item: Item) {
    if E == {} then item.enabled - item.sleep <= item.backtrack else E * item.backtrack != {}
  }

  /** The obligation of thread p, pending nx, after run. */
  ghost predicate Obligation<O(!new), T(!new)>(P: Program<O, T>, run: seq<T>, items: seq<Item>, p: Tid, nx: T)
    requires |run| <= |items|
  {
    forall i: nat | i < |run| && IsLastConflict(P, run, i, p, nx) :: Met(Initials(P, run, items[i], i, p), items[i])
  }

  /** Every known thread's obligation, at the top and at every state below. */
  ghost predicate AllOwed<O(!new), T(!new)>(P: Program<O, T>, m: Machine<O, T>)
    requires Shape(P, m)
  {
    forall k: nat, p: Tid | k <= |m.trans| && p < |m.next| ::
      Obligation(P, m.trans[..k], m.items, p, NextAt(P, m, k, p))
  }

  // ----- what the clock vectors say -------------------------------------

  ghost predicate StartsFirst<O(!new), T(!new)>(P: Program<O, T>, m: Machine<O, T>) {
    forall p: Tid | p < |m.next| :: NextAt(P, m, 0, p) == P.start(p)
  }

  /** The thread, if it has run, carries the clock vector of its last
      transition. */
  ghost predicate ClockExact<O(!new), T(!new)>(P: Program<O, T>, m: Machine<O, T>, p: Tid)
    requires Shape(P, m) && p < |m.next|
  {
    LastRun(P, m.trans, p) >= 0 ==> m.threadClock[p] == m.items[LastRun(P, m.trans, p) + 1].clock
  }

  ghost predicate ThreadClocksExact<O(!new), T(!new)>(P: Program<O, T>, m: Machine<O, T>)
    requires Shape(P, m)
  {
    forall p: Tid | p < |m.next| :: ClockExact(P, m, p)
  }

  ghost predicate AllReversible<O(!new), T(!new)>(P: Program<O, T>, run: seq<T>, from: nat, to: nat)
    requires to <= |run|
  {
    forall i: nat | from <= i < to :: P.reversible(run[i])
  }

  /** The clock vector of p knows nothing, of other threads, from state b on,
      nor from any state that undoing can reach from b without undoing p. */
  ghost predicate QuietFrom<O(!new), T(!new)>(P: Program<O, T>, m: Machine<O, T>, p: Tid, b: nat)
    requires Shape(P, m) && p < |m.next|
  {
    && LastRun(P, m.trans, p) < b && 1 <= b <= |m.trans|
    && forall j: nat, q: Tid | LastRun(P, m.trans, p) < j <= b && AllReversible(P, m.trans, j, b) && q != p ::
         ValueFor(m.threadClock[p], q) < j
  }

  /** The clock vector of p serves for tests against transitions from index n
      on: it is exact, or p's pending transition conflicts with nothing, or the
      vector knows of no other thread's transition there. */
  ghost predicate SafeFrom<O(!new), T(!new)>(P: Program<O, T>, m: Machine<O, T>, p: Tid, n: nat)
    requires Shape(P, m) && p < |m.next|
  {
    ClockExact(P, m, p) || P.Calm(m.next[p]) || exists b: nat :: b <= n && QuietFrom(P, m, p, b)
  }

  ghost predicate ThreadsSafe<O(!new), T(!new)>(P: Program<O, T>, m: Machine<O, T>)
    requires Shape(P, m)
  {
    forall p: Tid | p < |m.next| :: SafeFrom(P, m, p, |m.trans|)
  }

  ghost predicate ItemsClocked<O(!new), T(!new)>(P: Program<O, T>, m: Machine<O, T>)
    requires Shape(P, m)
  {
    Clocked(P, m.trans, ItemClocks(m.items))
  }

  lemma {:induction false} NextAtSkips<O(!new), T(!new)>(P: Program<O, T>, m: Machine<O, T>, k: nat, l: nat, p: Tid)
    requires k <= l <= |m.trans| && p < |m.next|
    requires forall i | k <= i < l :: P.tid(m.trans[i]) != p
    ensures NextAt(P, m, k, p) == NextAt(P, m, l, p)
    decreases l - k
  {
    if k < l {
      NextAtSkips(P, m, k + 1, l, p);
    }
  }

  /** A thread with no transition on the stack is about to start, and a start
      conflicts with nothing. */
  lemma UnstartedHasNoConflict<O(!new), T(!new)>(P: Program<O, T>, m: Machine<O, T>, p: Tid)
    requires P.LawfulRelation() && Shape(P, m) && StartsFirst(P, m) && p < |m.next|
    requires LastRun(P, m.trans, p) < 0
    ensures m.next[p] == P.start(p)
    ensures forall i: nat | i < |m.trans| :: !ShouldProcess(P, m, i, p) && !Conflict(P, m.trans, i, p, m.next[p])
  {
    NextAtSkips(P, m, 0, |m.trans|, p);
  }

  lemma ThreadClockMeaning<O(!new), T(!new)>(P: Program<O, T>, m: Machine<O, T>, i: nat, p: Tid)
    requires P.LawfulRelation() && Shape(P, m) && ItemsClocked(P, m)
    requires i < |m.trans| && p < |m.next| && ClockExact(P, m, p) && LastRun(P, m.trans, p) >= 0
    ensures BeforeThread(P, m, i, p) <==> PrecedesThread(P, m.trans, i, p)
  {
    var clocks, j := ItemClocks(m.items), LastRun(P, m.trans, p);
    assert m.threadClock[p] == clocks[j];
    ClocksAreExact(P, m.trans, clocks, i, j);
  }

  /** The tests the engine makes with clock vectors are the tests on chains. */
  lemma ClockTestsAreChainTests<O(!new), T(!new)>(P: Program<O, T>, m: Machine<O, T>, i: nat, p: Tid, item: Item)
    requires P.LawfulRelation() && Shape(P, m) && ItemsClocked(P, m) && StartsFirst(P, m)
    requires i < |m.trans| && p < |m.next| && ClockExact(P, m, p)
    ensures ShouldProcess(P, m, i, p) <==> Conflict(P, m.trans, i, p, m.next[p])
    ensures ShouldProcess(P, m, i, p) ==> Candidates(P, m, item, i, p) == Initials(P, m.trans, item, i, p)
  {
    if LastRun(P, m.trans, p) < 0 {
      UnstartedHasNoConflict(P, m, p);
    } else {
      forall j: nat | j < |m.trans|
        ensures BeforeThread(P, m, j, p) <==> PrecedesThread(P, m.trans, j, p)
      {
        ThreadClockMeaning(P, m, j, p);
      }
      forall q
        ensures RacesAfter(P, m, i, q, p) <==> Race(P, m.trans, i, q, p)
      {
      }
    }
  }

  /** A thread that did not run makes the right test against the top
      transition even with a clock vector left over from an undone run. */
  lemma TopTestIsChainTest<O(!new), T(!new)>(P: Program<O, T>, m: Machine<O, T>, p: Tid, item: Item)
    requires P.LawfulRelation() && Shape(P, m) && ItemsClocked(P, m) && StartsFirst(P, m) && m.trans != []
    requires p < |m.next| && p != P.tid(m.trans[|m.trans| - 1]) && SafeFrom(P, m, p, |m.trans| - 1)
    ensures var n := |m.trans| - 1;
            && (ShouldProcess(P, m, n, p) <==> Conflict(P, m.trans, n, p, m.next[p]))
            && (ShouldProcess(P, m, n, p) ==> Candidates(P, m, item, n, p) == Initials(P, m.trans, item, n, p))
  {
    hide Clocked;
    var n := |m.trans| - 1;
    if ClockExact(P, m, p) {
      ClockTestsAreChainTests(P, m, n, p, item);
    } else if !P.Calm(m.next[p]) {
      var b: nat :| b <= n && QuietFrom(P, m, p, b);
      assert AllReversible(P, m.trans, b, b);
      assert !BeforeThread(P, m, n, p);
      if LastRun(P, m.trans, p) >= 0 && Chain(P, m.trans, n, LastRun(P, m.trans, p)) {
        ChainIsOrdered(P, m.trans, n, LastRun(P, m.trans, p));
      }
      assert !PrecedesThread(P, m.trans, n, p);
      assert Candidates(P, m, item, n, p) == Initials(P, m.trans, item, n, p);
    }
  }

  // ----- a step leaves the earlier states alone -------------------------

  lemma {:induction false} NextAtAfterStep<O(!new), T(!new)>(P: Program<O, T>, m: Machine<O, T>, r: Tid, reply: Reply<O, T>, k: nat, p: Tid)
    requires Shape(P, m) && r < |m.next| && k <= |m.trans| && p < |m.next|
    ensures NextAt(P, Simulate(P, m, r, reply), k, p) == NextAt(P, m, k, p)
    decreases |m.trans| - k
  {
    var m' := Simulate(P, m, r, reply);
    if k < |m.trans| {
      NextAtAfterStep(P, m, r, reply, k + 1, p);
    } else {
      assert m'.trans[k] == m.next[r];
      if p != r {
        assert NextAt(P, m', k + 1, p) == m'.next[p] == m.next[p];
      }
    }
  }

  lemma {:induction false} NextAtOfNewThread<O(!new), T(!new)>(P: Program<O, T>, m: Machine<O, T>, r: Tid, reply: Reply<O, T>, k: nat, p: Tid)
    requires Shape(P, m) && r < |m.next| && k <= |m.trans| + 1
    requires |m.next| <= p < |m.next| + reply.newThreads
    ensures NextAt(P, Simulate(P, m, r, reply), k, p) == P.start(p)
  {
    var m' := Simulate(P, m, r, reply);
    assert forall i: nat | i < |m'.trans| :: P.tid(m'.trans[i]) < |m.next|;
    NextAtSkips(P, m', k, |m'.trans|, p);
    assert m'.next[p] == Starts(P, |m.next|, reply.newThreads)[p - |m.next|];
  }

  lemma StepKeepsShape<O(!new), T(!new)>(P: Program<O, T>, m: Machine<O, T>, r: Tid, reply: Reply<O, T>)
    requires P.LawfulRelation() && Shape(P, m) && r < |m.next| && P.tid(reply.next) == r
    ensures Shape(P, Simulate(P, m, r, reply))
  {
  }

  lemma StepKeepsStartsFirst<O(!new), T(!new)>(P: Program<O, T>, m: Machine<O, T>, r: Tid, reply: Reply<O, T>)
    requires Shape(P, m) && r < |m.next| && StartsFirst(P, m)
    ensures StartsFirst(P, Simulate(P, m, r, reply))
  {
    var m' := Simulate(P, m, r, reply);
    forall p: Tid | p < |m'.next|
      ensures NextAt(P, m', 0, p) == P.start(p)
    {
      if p < |m.next| {
        NextAtAfterStep(P, m, r, reply, 0, p);
      } else {
        NextAtOfNewThread(P, m, r, reply, 0, p);
      }
    }
  }

  lemma StepKeepsClocks<O(!new), T(!new)>(P: Program<O, T>, m: Machine<O, T>, r: Tid, reply: Reply<O, T>)
    requires Shape(P, m) && r < |m.next| && ItemsClocked(P, m)
    requires Shape(P, Simulate(P, m, r, reply))
    ensures ItemsClocked(P, Simulate(P, m, r, reply))
  {
    hide MaxClock;
    var m' := Simulate(P, m, r, reply);
    var clocks := ItemClocks(m.items);
    assert ItemClocks(m'.items) == clocks + [NextClock(P, m.trans, clocks, m.next[r])];
    ClockedExtends(P, m.trans, clocks, m.next[r]);
  }

  lemma StepKeepsThreadClocks<O(!new), T(!new)>(P: Program<O, T>, m: Machine<O, T>, r: Tid, reply: Reply<O, T>)
    requires Shape(P, m) && r < |m.next| && ThreadClocksExact(P, m)
    requires Shape(P, Simulate(P, m, r, reply))
    ensures ThreadClocksExact(P, Simulate(P, m, r, reply))
  {
    hide LastRun, NextClock, MaxClock, EnabledNow, Inherited;
    var m' := Simulate(P, m, r, reply);
    var n := |m.trans|;
    forall p: Tid | p < |m'.next|
      ensures ClockExact(P, m', p)
    {
      LastRunAfter(P, m.trans, m.next[r], p);
      if p != r && LastRun(P, m'.trans, p) >= 0 {
        assert ClockExact(P, m, p);
        var j := LastRun(P, m.trans, p);
        assert p < |m.next| && m'.threadClock[p] == m.threadClock[p];
        assert m'.items[j + 1].clock == m.items[j + 1].clock;
      }
    }
  }

  /** After a step the runner's clock vector is exact, and every other thread's
      is as safe as it was. */
  lemma StepKeepsSafe<O(!new), T(!new)>(P: Program<O, T>, m: Machine<O, T>, r: Tid, reply: Reply<O, T>, p: Tid)
    requires Shape(P, m) && r < |m.next| && ThreadsSafe(P, m)
    requires Shape(P, Simulate(P, m, r, reply)) && p < |m.next| + reply.newThreads
    ensures var s := Simulate(P, m, r, reply);
            if p == r then ClockExact(P, s, p) else SafeFrom(P, s, p, |m.trans|)
  {
    hide LastRun, NextClock, MaxClock, EnabledNow, Inherited, Program.Calm;
    var s := Simulate(P, m, r, reply);
    var n := |m.trans|;
    LastRunAfter(P, m.trans, m.next[r], p);
    if p < |m.next| && p != r {
      assert SafeFrom(P, m, p, n);
      if !P.Calm(m.next[p]) && !ClockExact(P, m, p) {
        var b: nat :| b <= n && QuietFrom(P, m, p, b);
        forall j: nat | j <= b && AllReversible(P, s.trans, j, b)
          ensures AllReversible(P, m.trans, j, b)
        {
          assert forall i: nat | j <= i < b :: s.trans[i] == m.trans[i];
        }
        assert QuietFrom(P, s, p, b);
      }
    }
  }

  // ----- obligations look only at what a step keeps ---------------------

  /** b has the same cached threads as a below k, and no fewer backtrack
      threads. */
  ghost predicate Grown(a: seq<Item>, b: seq<Item>, k: nat) {
    k <= |a| && k <= |b| &&
    forall i | 0 <= i < k ::
      b[i].enabled == a[i].enabled && b[i].sleep == a[i].sleep && a[i].backtrack <= b[i].backtrack
  }

  lemma ObligationSurvivesGrowth<O(!new), T(!new)>(P: Program<O, T>, run: seq<T>, a: seq<Item>, b: seq<Item>, p: Tid, nx: T)
    requires Grown(a, b, |run|) && Obligation(P, run, a, p, nx)
    ensures Obligation(P, run, b, p, nx)
  {
    forall i: nat | i < |run| && IsLastConflict(P, run, i, p, nx)
      ensures Met(Initials(P, run, b[i], i, p), b[i])
    {
      assert Initials(P, run, b[i], i, p) == Initials(P, run, a[i], i, p);
      assert Met(Initials(P, run, a[i], i, p), a[i]);
      assert a[i].backtrack <= b[i].backtrack;
    }
  }

  /** A transition of another thread changes nothing p is ordered after. */
  lemma PrecedesThreadExtends<O(!new), T(!new)>(P: Program<O, T>, run: seq<T>, t: T, i: nat, p: Tid)
    requires P.tid(t) != p
    ensures i < |run| ==> (PrecedesThread(P, run + [t], i, p) <==> PrecedesThread(P, run, i, p))
    ensures i == |run| > 0 ==> !PrecedesThread(P, run + [t], i, p)
  {
    assert (run + [t])[..|run|] == run;
    var j := LastRun(P, run, p);
    assert LastRun(P, run + [t], p) == j;
    if j >= 0 {
      ChainExtends(P, run, [t], i, j);
      if Chain(P, run, i, j) {
        ChainIsOrdered(P, run, i, j);
      }
    }
  }

  /** So the obligation of p at indices other than the new one is the old
      one, as long as the new transition does not conflict. */
  lemma ObligationAfterOther<O(!new), T(!new)>(P: Program<O, T>, run: seq<T>, t: T, items: seq<Item>, p: Tid, nx: T)
    requires P.tid(t) != p && |run| + 1 <= |items|
    requires Obligation(P, run, items, p, nx)
    requires !Conflict(P, run + [t], |run|, p, nx)
    ensures Obligation(P, run + [t], items, p, nx)
  {
    var run' := run + [t];
    var n := |run|;
    forall i: nat | i < n
      ensures Conflict(P, run', i, p, nx) <==> Conflict(P, run, i, p, nx)
      ensures PrecedesThread(P, run', i, p) <==> PrecedesThread(P, run, i, p)
    {
      PrecedesThreadExtends(P, run, t, i, p);
    }
    forall i: nat | i < |run'| && IsLastConflict(P, run', i, p, nx)
      ensures Met(Initials(P, run', items[i], i, p), items[i])
    {
      assert i < n;
      assert IsLastConflict(P, run, i, p, nx);
      PrecedesThreadExtends(P, run, t, n, p);
      forall q
        ensures Race(P, run', i, q, p) <==> Race(P, run, i, q, p)
      {
        if Race(P, run', i, q, p) {
          var j: nat :| i < j < |run'| && P.tid(run'[j]) == q && PrecedesThread(P, run', j, p);
          assert j != n;
        }
        if Race(P, run, i, q, p) {
          var j: nat :| i < j < n && P.tid(run[j]) == q && PrecedesThread(P, run, j, p);
          assert run'[j] == run[j] && PrecedesThread(P, run', j, p);
        }
      }
      assert Initials(P, run', items[i], i, p) == Initials(P, run, items[i], i, p);
    }
  }

  // ----- what the update achieves ---------------------------------------

  ghost predicate SameButBacktrack(a: Item, b: Item) {
    b.enabled == a.enabled && b.sleep == a.sleep && b.done == a.done && b.clock == a.clock && a.backtrack <= b.backtrack
  }

  lemma ProcessedMeets<O(!new), T(!new)>(P: Program<O, T>, m: Machine<O, T>, i: nat, p: Tid, a: Item, b: Item)
    requires i < |m.trans| && p < |m.next| == |m.threadClock|
    requires Processed(P, m, i, p, a, b) && a.done <= a.sleep
    ensures SameButBacktrack(a, b)
    ensures b.backtrack <= a.backtrack + (a.enabled - a.sleep)
    ensures ShouldProcess(P, m, i, p) ==> Met(Candidates(P, m, b, i, p), b)
  {
    assert Candidates(P, m, b, i, p) == Candidates(P, m, a, i, p);
    var E := Candidates(P, m, a, i, p);
    if ShouldProcess(P, m, i, p) && E != {} && E * a.backtrack == {} {
      var q :| q in E && b == a.(backtrack := a.backtrack + ({q} - a.done));
      assert q in E * b.backtrack;
    }
  }

  lemma {:induction false} ProcessedAllMeets<O(!new), T(!new)>(P: Program<O, T>, m: Machine<O, T>, i: nat, order: seq<Tid>, a: Item, b: Item)
    requires i < |m.trans| && |m.next| == |m.threadClock|
    requires forall p | p in order :: p < |m.next|
    requires ProcessedAll(P, m, i, order, a, b) && a.done <= a.sleep
    ensures SameButBacktrack(a, b)
    ensures b.backtrack <= a.backtrack + (a.enabled - a.sleep)
    ensures forall p | p in order && ShouldProcess(P, m, i, p) :: Met(Candidates(P, m, b, i, p), b)
  {
    if order != [] {
      var n := |order| - 1;
      assert order[n] in order && forall p | p in order[..n] :: p in order;
      var c :| ProcessedAll(P, m, i, order[..n], a, c) && Processed(P, m, i, order[n], c, b);
      ProcessedAllMeets(P, m, i, order[..n], a, c);
      ProcessedMeets(P, m, i, order[n], c, b);
      forall p | p in order && ShouldProcess(P, m, i, p)
        ensures Met(Candidates(P, m, b, i, p), b)
      {
        if p != order[n] {
          assert p in order[..n];
          assert Candidates(P, m, b, i, p) == Candidates(P, m, c, i, p);
        }
      }
    }
  }

  /** The update adds backtrack threads only, awake enabled ones only, and
      only to departed states. */
  lemma UpdateGrows<O(!new), T(!new)>(P: Program<O, T>, m: Machine<O, T>, m': Machine<O, T>)
    requires Shape(P, m) && m.trans != [] && Updated(P, m, m')
    requires forall k: nat | k < |m.items| :: m.items[k].done <= m.items[k].sleep
    ensures Shape(P, m')
    ensures m' == m.(items := m'.items) && |m'.items| == |m.items|
    ensures forall k: nat | k < |m.items| ::
        SameButBacktrack(m.items[k], m'.items[k])
        && m'.items[k].backtrack <= m.items[k].backtrack + (m.items[k].enabled - m.items[k].sleep)
    ensures m'.items[|m.trans|] == m.items[|m.trans|]
    ensures Grown(m.items, m'.items, |m.items|)
  {
    var n := |m.trans| - 1;
    var runner := P.tid(m.trans[n]);
    var i := LastConflict(P, m, runner, n);
    var order :| Lists(order, Others(P, m)) && ProcessedAll(P, m, n, order, m.items[n], m'.items[n]);
    ProcessedAllMeets(P, m, n, order, m.items[n], m'.items[n]);
    if i >= 0 {
      ProcessedMeets(P, m, i, runner, m.items[i], m'.items[i]);
    }
  }

  /** The invariants under which the tests of an update mean chain tests: the
      runner's clock vector is exact, the others' are safe at the top. Done
      threads are asleep. */
  ghost predicate Settled<O(!new), T(!new)>(P: Program<O, T>, m: Machine<O, T>) {
    && Shape(P, m) && ItemsClocked(P, m) && StartsFirst(P, m) && m.trans != []
    && (forall p: Tid | p < |m.next| :: if p == P.tid(m.trans[|m.trans| - 1]) then ClockExact(P, m, p) else SafeFrom(P, m, p, |m.trans| - 1))
    && forall k: nat | k < |m.items| :: m.items[k].done <= m.items[k].sleep
  }

  lemma ConflictsAreProcessed<O(!new), T(!new)>(P: Program<O, T>, m: Machine<O, T>, p: Tid)
    requires P.LawfulRelation() && Settled(P, m) && p < |m.next| && ClockExact(P, m, p)
    ensures forall i: nat | i < |m.trans| :: ShouldProcess(P, m, i, p) <==> Conflict(P, m.trans, i, p, m.next[p])
  {
    forall i: nat | i < |m.trans|
      ensures ShouldProcess(P, m, i, p) <==> Conflict(P, m.trans, i, p, m.next[p])
    {
      ClockTestsAreChainTests(P, m, i, p, EmptyItem(map[]));
    }
  }

  /** A transition that did not run is compared with the new transition; if
      they conflict, its obligation there is met. */
  lemma UpdateMeetsAtTop<O(!new), T(!new)>(P: Program<O, T>, m: Machine<O, T>, m': Machine<O, T>, p: Tid)
    requires P.LawfulRelation() && Settled(P, m) && m.trans != [] && Updated(P, m, m')
    requires p < |m.next| && p != P.tid(m.trans[|m.trans| - 1])
    ensures |m'.items| == |m.items|
    ensures var n := |m.trans| - 1;
            Conflict(P, m.trans, n, p, m.next[p]) ==> Met(Initials(P, m.trans, m'.items[n], n, p), m'.items[n])
  {
    var n := |m.trans| - 1;
    var order :| Lists(order, Others(P, m)) && ProcessedAll(P, m, n, order, m.items[n], m'.items[n]);
    ProcessedAllMeets(P, m, n, order, m.items[n], m'.items[n]);
    TopTestIsChainTest(P, m, p, m'.items[n]);
    assert p in order;
  }

  lemma LastConflictIsUnique<O(!new), T(!new)>(P: Program<O, T>, m: Machine<O, T>, p: Tid, n: nat, i: nat)
    requires Shape(P, m) && i < n <= |m.trans| && p < |m.next|
    requires ShouldProcess(P, m, i, p) && forall k: nat | i < k < n :: !ShouldProcess(P, m, k, p)
    ensures LastConflict(P, m, p, n) == i
  {
  }

  /** The transition of the runner is compared with the whole stack; its
      obligation is met where its last conflict is. */
  lemma UpdateMeetsAtLastConflict<O(!new), T(!new)>(P: Program<O, T>, m: Machine<O, T>, m': Machine<O, T>, p: Tid, i: nat)
    requires P.LawfulRelation() && Settled(P, m) && m.trans != [] && Updated(P, m, m')
    requires p == P.tid(m.trans[|m.trans| - 1])
    requires i < |m.trans| && IsLastConflict(P, m.trans, i, p, m.next[p])
    ensures |m'.items| == |m.items|
    ensures Met(Initials(P, m.trans, m'.items[i], i, p), m'.items[i])
  {
    hide Processed, Candidates, Initials, Met, Clocked;
    var n := |m.trans| - 1;
    assert P.tid(m.next[p]) == p;
    ConflictsAreProcessed(P, m, p);
    LastConflictIsUnique(P, m, p, n, i);
    assert Processed(P, m, i, p, m.items[i], m'.items[i]);
    ProcessedMeets(P, m, i, p, m.items[i], m'.items[i]);
    ClockTestsAreChainTests(P, m, i, p, m'.items[i]);
  }

  lemma UpdateMeetsOther<O(!new), T(!new)>(P: Program<O, T>, m: Machine<O, T>, m': Machine<O, T>, u: seq<T>, t: T, p: Tid)
    requires P.LawfulRelation() && Settled(P, m) && m.trans == u + [t] && Updated(P, m, m')
    requires p < |m.next| && p != P.tid(t)
    requires Obligation(P, u, m.items, p, m.next[p])
    ensures |m'.items| == |m.items|
    ensures Obligation(P, u + [t], m'.items, p, m.next[p])
  {
    var n, nx := |u|, m.next[p];
    UpdateMeetsAtTop(P, m, m', p);
    if Conflict(P, u + [t], n, p, nx) {
      forall i: nat | i <= n && IsLastConflict(P, u + [t], i, p, nx)
        ensures i == n
      {
      }
    } else {
      UpdateGrows(P, m, m');
      ObligationSurvivesGrowth(P, u, m.items, m'.items, p, nx);
      ObligationAfterOther(P, u, t, m'.items, p, nx);
    }
  }

  /** After the update every thread's obligation at the top holds, given the
      obligations before the step for the threads that did not run. */
  lemma UpdateMeetsTop<O(!new), T(!new)>(P: Program<O, T>, m: Machine<O, T>, m': Machine<O, T>, u: seq<T>, t: T, p: Tid)
    requires P.LawfulRelation() && Settled(P, m) && m.trans == u + [t] && Updated(P, m, m')
    requires p < |m.next|
    requires p != P.tid(t) ==> Obligation(P, u, m.items, p, m.next[p])
    ensures |m'.items| == |m.items|
    ensures Obligation(P, m.trans, m'.items, p, m.next[p])
  {
    if p == P.tid(t) {
      forall i: nat | i < |m.trans| && IsLastConflict(P, m.trans, i, p, m.next[p])
        ensures Met(Initials(P, m.trans, m'.items[i], i, p), m'.items[i])
      {
        UpdateMeetsAtLastConflict(P, m, m', p, i);
      }
    } else {
      UpdateMeetsOther(P, m, m', u, t, p);
    }
  }

  // ----- and nothing more -----------------------------------------------

  /** By the clock vectors: p is to be processed at a state whose backtrack set
      does not serve it yet. */
  ghost predicate Demands<O(!new), T(!new)>(P: Program<O, T>, m: Machine<O, T>, i: nat, p: Tid, a: Item)
    requires i < |m.trans| && |m.next| == |m.threadClock|
  {
    p < |m.next| && ShouldProcess(P, m, i, p) && !Met(Candidates(P, m, a, i, p), a)
  }

  /** b's backtrack set is a's with what p, having the initials E, may add. */
  ghost predicate Served(E: set<Tid>, a: Item, b: Item) {
    if E == {} then b.backtrack == a.backtrack + (a.enabled - a.sleep)
    else AddsOne(E, a, b)
  }

  ghost predicate AddsOne(E: set<Tid>, a: Item, b: Item) {
    exists q :: q in E && b.backtrack == a.backtrack + {q}
  }

  lemma ProcessedIsSparing<O(!new), T(!new)>(P: Program<O, T>, m: Machine<O, T>, i: nat, p: Tid, a: Item, b: Item)
    requires i < |m.trans| && p < |m.next| == |m.threadClock|
    requires Processed(P, m, i, p, a, b) && a.done <= a.sleep
    ensures if Demands(P, m, i, p, a) then Served(Candidates(P, m, a, i, p), a, b) else b.backtrack == a.backtrack
  {
    var E := Candidates(P, m, a, i, p);
    if ShouldProcess(P, m, i, p) {
      if E == {} {
        assert a.enabled - a.sleep - a.done == a.enabled - a.sleep;
      } else if E * a.backtrack == {} {
        var q :| q in E && b == a.(backtrack := a.backtrack + ({q} - a.done));
        assert {q} - a.done == {q};
      }
    }
  }

  ghost function Demanding<O(!new), T(!new)>(P: Program<O, T>, m: Machine<O, T>, i: nat, order: seq<Tid>, a: Item): (r: set<Tid>)
    requires i < |m.trans| && |m.next| == |m.threadClock|
    ensures forall p :: p in r <==> p in order && Demands(P, m, i, p, a)
  {
    set p | p in order && Demands(P, m, i, p, a)
  }

  /** q is one of E, unless there is none. */
  ghost predicate Leads(E: set<Tid>, q: Tid) {
    E == {} || q in E
  }

  /** Every thread added is asked for, and no more are added than ask, unless
      one asks for all. */
  ghost predicate Asked<O(!new), T(!new)>(P: Program<O, T>, m: Machine<O, T>, i: nat, asking: set<Tid>, a: Item, b: Item)
    requires |m.next| == |m.threadClock|
    requires forall p | p in asking :: p < |m.next|
  {
    && (forall q | q in b.backtrack - a.backtrack ::
          exists p :: p in asking && Leads(Candidates(P, m, a, i, p), q))
    && ((forall p | p in asking :: Candidates(P, m, a, i, p) != {}) ==> |b.backtrack - a.backtrack| <= |asking|)
  }

  lemma {:induction false} ProcessedAllIsSparing<O(!new), T(!new)>(P: Program<O, T>, m: Machine<O, T>, i: nat, order: seq<Tid>, a: Item, b: Item)
    requires i < |m.trans| && |m.next| == |m.threadClock|
    requires forall p | p in order :: p < |m.next|
    requires forall x, y | 0 <= x < y < |order| :: order[x] != order[y]
    requires ProcessedAll(P, m, i, order, a, b) && a.done <= a.sleep
    ensures Asked(P, m, i, Demanding(P, m, i, order, a), a, b)
  {
    hide Met, Processed, Candidates, Demands, Served, ShouldProcess, Asked;
    if order == [] {
      NothingAsked(P, m, i, Demanding(P, m, i, order, a), a);
    } else {
      var n := |order| - 1;
      var p := order[n];
      assert order[n] in order && forall p | p in order[..n] :: p in order;
      var c :| ProcessedAll(P, m, i, order[..n], a, c) && Processed(P, m, i, p, c, b);
      ProcessedAllMeets(P, m, i, order[..n], a, c);
      ProcessedAllIsSparing(P, m, i, order[..n], a, c);
      ProcessedIsSparing(P, m, i, p, c, b);
      ServedIsAsked(P, m, i, order[..n], p, a, c, b);
      assert order == order[..n] + [p];
    }
  }

  lemma DemandsFade<O(!new), T(!new)>(P: Program<O, T>, m: Machine<O, T>, i: nat, p: Tid, a: Item, c: Item)
    requires i < |m.trans| && p < |m.next| == |m.threadClock| && SameButBacktrack(a, c)
    ensures Candidates(P, m, c, i, p) == Candidates(P, m, a, i, p)
    ensures Demands(P, m, i, p, c) ==> Demands(P, m, i, p, a)
  {
  }

  lemma NothingAsked<O(!new), T(!new)>(P: Program<O, T>, m: Machine<O, T>, i: nat, asking: set<Tid>, a: Item)
    requires |m.next| == |m.threadClock| && forall p | p in asking :: p < |m.next|
    ensures Asked(P, m, i, asking, a, a)
  {
    assert a.backtrack - a.backtrack == {};
  }

  lemma AskedByMore<O(!new), T(!new)>(P: Program<O, T>, m: Machine<O, T>, i: nat, early: set<Tid>, asking: set<Tid>, a: Item, c: Item, b: Item)
    requires |m.next| == |m.threadClock| && early <= asking && forall p | p in asking :: p < |m.next|
    requires Asked(P, m, i, early, a, c) && b.backtrack == c.backtrack
    ensures Asked(P, m, i, asking, a, b)
  {
    hide Candidates;
    SubsetSize(early, asking);
  }

  lemma AskedByOneMore<O(!new), T(!new)>(P: Program<O, T>, m: Machine<O, T>, i: nat, early: set<Tid>, p: Tid, a: Item, c: Item, b: Item)
    requires |m.next| == |m.threadClock| && p < |m.next| && p !in early && forall q | q in early :: q < |m.next|
    requires Asked(P, m, i, early, a, c) && Served(Candidates(P, m, a, i, p), c, b)
    ensures Asked(P, m, i, early + {p}, a, b)
  {
    hide Candidates;
    var E, asking, added := Candidates(P, m, a, i, p), early + {p}, b.backtrack - a.backtrack;
    assert p in asking && |asking| == |early| + 1;
    if E != {} {
      assert AddsOne(E, c, b);
      var x :| x in E && b.backtrack == c.backtrack + {x};
      SubsetSize(added, (c.backtrack - a.backtrack) + {x});
    }
    forall q | q in added
      ensures exists p :: p in asking && Leads(Candidates(P, m, a, i, p), q)
    {
      if q in c.backtrack {
        var o :| o in early && Leads(Candidates(P, m, a, i, o), q);
        assert o in asking;
      }
    }
  }

  lemma ServedIsAsked<O(!new), T(!new)>(P: Program<O, T>, m: Machine<O, T>, i: nat, before: seq<Tid>, p: Tid, a: Item, c: Item, b: Item)
    requires i < |m.trans| && |m.next| == |m.threadClock| && p < |m.next| && p !in before
    requires forall p | p in before :: p < |m.next|
    requires SameButBacktrack(a, c) && Asked(P, m, i, Demanding(P, m, i, before, a), a, c)
    requires if Demands(P, m, i, p, c) then Served(Candidates(P, m, c, i, p), c, b) else b.backtrack == c.backtrack
    ensures Asked(P, m, i, Demanding(P, m, i, before + [p], a), a, b)
  {
    hide Demands, Candidates, Asked, Served;
    DemandsFade(P, m, i, p, a, c);
    var early, asking := Demanding(P, m, i, before, a), Demanding(P, m, i, before + [p], a);
    if Demands(P, m, i, p, c) {
      assert asking == early + {p};
      AskedByOneMore(P, m, i, early, p, a, c, b);
    } else {
      AskedByMore(P, m, i, early, asking, a, c, b);
    }
  }

  /** The threads with a call on state i that its backtrack set does not meet:
      those whose last conflict it is, among the runner, and at the state the
      last transition departs from also all others. */
  ghost function Callers<O(!new), T(!new)>(P: Program<O, T>, m: Machine<O, T>, i: nat): (r: set<Tid>)
    requires Shape(P, m) && i < |m.trans|
  {
    set p | 0 <= p < |m.next| && (i == |m.trans| - 1 || p == P.tid(m.trans[|m.trans| - 1]))
            && IsLastConflict(P, m.trans, i, p, m.next[p]) && !Met(Initials(P, m.trans, m.items[i], i, p), m.items[i])
  }

  /** What the update may add to the backtrack set of state i: threads awake and
      enabled there, each of which leads to some caller, unless nothing leads to
      one of them; and then no more than one for each caller. */
  ghost predicate Sparing<O(!new), T(!new)>(P: Program<O, T>, m: Machine<O, T>, i: nat, added: set<Tid>)
    requires Shape(P, m) && i < |m.trans|
  {
    && added <= m.items[i].enabled - m.items[i].sleep
    && (forall q | q in added ::
          exists p :: p in Callers(P, m, i) && Leads(Initials(P, m.trans, m.items[i], i, p), q))
    && ((forall p | p in Callers(P, m, i) :: Initials(P, m.trans, m.items[i], i, p) != {}) ==> |added| <= |Callers(P, m, i)|)
  }

  lemma DemandsAreCalls<O(!new), T(!new)>(P: Program<O, T>, m: Machine<O, T>, i: nat, p: Tid)
    requires P.LawfulRelation() && Settled(P, m) && p < |m.next|
    requires if p == P.tid(m.trans[|m.trans| - 1]) then i == LastConflict(P, m, p, |m.trans| - 1) else i == |m.trans| - 1
    ensures Demands(P, m, i, p, m.items[i]) <==> p in Callers(P, m, i)
    ensures Demands(P, m, i, p, m.items[i]) ==> Candidates(P, m, m.items[i], i, p) == Initials(P, m.trans, m.items[i], i, p)
  {
    hide Met, Clocked, Candidates, Initials, ShouldProcess, PrecedesThread;
    var n := |m.trans| - 1;
    if p == P.tid(m.trans[n]) {
      ConflictsAreProcessed(P, m, p);
      ClockTestsAreChainTests(P, m, i, p, m.items[i]);
      assert P.tid(m.next[p]) == p && !P.coen(m.trans[n], m.next[p]);
      assert IsLastConflict(P, m.trans, i, p, m.next[p]);
    } else {
      TopTestIsChainTest(P, m, p, m.items[i]);
    }
  }

  /** The update changes nothing but the backtrack sets of the state the last
      transition departs from and of the one where the runner's last conflict
      is; it takes nothing out; and it adds no more than the callers need. */
  lemma UpdateOnlyAdds<O(!new), T(!new)>(P: Program<O, T>, m: Machine<O, T>, m': Machine<O, T>, i: nat)
    requires P.LawfulRelation() && Settled(P, m) && Updated(P, m, m') && i < |m.trans|
    ensures m' == m.(items := m'.items) && |m'.items| == |m.items| && m'.items[|m.trans|] == m.items[|m.trans|]
    ensures SameButBacktrack(m.items[i], m'.items[i])
    ensures Sparing(P, m, i, m'.items[i].backtrack - m.items[i].backtrack)
  {
    hide Processed, ProcessedAll, Clocked, Demands, Callers, Initials, Candidates;
    var n := |m.trans| - 1;
    var runner := P.tid(m.trans[n]);
    var a, b := m.items[i], m'.items[i];
    UpdateGrows(P, m, m');
    if i == n {
      var order :| Lists(order, Others(P, m)) && ProcessedAll(P, m, n, order, a, b);
      ProcessedAllIsSparing(P, m, n, order, a, b);
      AskedAtTop(P, m, order, a, b);
    } else if i == LastConflict(P, m, runner, n) {
      ProcessedIsSparing(P, m, i, runner, a, b);
      DemandsAreCalls(P, m, i, runner);
      CallersBelowTop(P, m, i);
      ServedIsSparing(P, m, i, runner, a, b);
    } else {
      assert b.backtrack - a.backtrack == {};
    }
  }

  /** No state is given more backtrack threads than its callers need. */
  ghost predicate IsSparing<O(!new), T(!new)>(P: Program<O, T>, m: Machine<O, T>, m': Machine<O, T>)
    requires Shape(P, m)
  {
    && |m'.items| == |m.items| && m'.items[|m.trans|] == m.items[|m.trans|]
    && forall i: nat | i < |m.trans| :: Sparing(P, m, i, m'.items[i].backtrack - m.items[i].backtrack)
  }

  lemma UpdateIsSparing<O(!new), T(!new)>(P: Program<O, T>, m: Machine<O, T>, m': Machine<O, T>)
    requires P.LawfulRelation() && Settled(P, m) && Updated(P, m, m')
    ensures IsSparing(P, m, m')
  {
    hide Sparing, Updated, ItemsClocked, StartsFirst, SafeFrom, ClockExact, Program.LawfulRelation;
    UpdateOnlyAdds(P, m, m', 0);
    forall i: nat | i < |m.trans|
      ensures Sparing(P, m, i, m'.items[i].backtrack - m.items[i].backtrack)
    {
      UpdateOnlyAdds(P, m, m', i);
    }
  }

  lemma CallersBelowTop<O(!new), T(!new)>(P: Program<O, T>, m: Machine<O, T>, i: nat)
    requires Shape(P, m) && i < |m.trans| - 1
    ensures Callers(P, m, i) <= {P.tid(m.trans[|m.trans| - 1])}
  {
  }

  lemma ServedIsSparing<O(!new), T(!new)>(P: Program<O, T>, m: Machine<O, T>, i: nat, p: Tid, a: Item, b: Item)
    requires Shape(P, m) && i < |m.trans| && a == m.items[i] && b.backtrack - a.backtrack <= a.enabled - a.sleep
    requires Callers(P, m, i) <= {p}
    requires if p in Callers(P, m, i) then Served(Initials(P, m.trans, a, i, p), a, b) else b.backtrack == a.backtrack
    ensures Sparing(P, m, i, b.backtrack - a.backtrack)
  {
    hide Callers, Initials;
    var added := b.backtrack - a.backtrack;
    if p in Callers(P, m, i) {
      assert Callers(P, m, i) == {p};
      if Initials(P, m.trans, a, i, p) != {} {
        assert AddsOne(Initials(P, m.trans, a, i, p), a, b);
        var q :| q in Initials(P, m.trans, a, i, p) && b.backtrack == a.backtrack + {q};
        SubsetSize(added, {q});
      }
    } else {
      assert added == {};
    }
  }

  lemma AskedAtTop<O(!new), T(!new)>(P: Program<O, T>, m: Machine<O, T>, order: seq<Tid>, a: Item, b: Item)
    requires P.LawfulRelation() && Settled(P, m) && a == m.items[|m.trans| - 1] && b.backtrack - a.backtrack <= a.enabled - a.sleep
    requires Lists(order, Others(P, m)) && Asked(P, m, |m.trans| - 1, Demanding(P, m, |m.trans| - 1, order, a), a, b)
    ensures Sparing(P, m, |m.trans| - 1, b.backtrack - a.backtrack)
  {
    hide Demands, Callers, Initials, Candidates, ItemsClocked, StartsFirst, SafeFrom, ClockExact;
    var n := |m.trans| - 1;
    var asking := Demanding(P, m, n, order, a);
    RunnerIsNoCaller(P, m);
    forall p: Tid
      ensures p in asking <==> p in Callers(P, m, n)
      ensures p in asking ==> Candidates(P, m, a, n, p) == Initials(P, m.trans, a, n, p)
    {
      if p in order {
        DemandsAreCalls(P, m, n, p);
      }
    }
    assert asking == Callers(P, m, n);
  }

  lemma RunnerIsNoCaller<O(!new), T(!new)>(P: Program<O, T>, m: Machine<O, T>)
    requires P.LawfulRelation() && Settled(P, m)
    ensures Shape(P, m) && m.trans != [] && Callers(P, m, |m.trans| - 1) <= Others(P, m)
  {
    var n := |m.trans| - 1;
    assert !P.coen(m.trans[n], m.next[P.tid(m.trans[n])]);
  }
}
