/** Whole searches: any mix of steps and branches, started from the initial
    machine, keeps the invariants. */
module Searches {
  import opened ClockVectors
  import opened Programs
  import opened Chains
  import opened Machines
  import opened Obligations
  import opened Rewinding
  import opened Sleeping

  // ----- moves ----------------------------------------------------------

  /** Extending the current run by one enabled transition. */
  ghost predicate Ran<O(!new), T(!new)>(P: Program<O, T>, m: Machine<O, T>, m': Machine<O, T>, p: Tid, reply: Reply<O, T>)
    requires Shape(P, m)
  {
    && p < |m.next| && P.enabled(m.current, m.next[p]) && ReplyFits(P, m, p, reply)
    && Shape(P, Simulate(P, m, p, reply))
    && Updated(P, Simulate(P, m, p, reply), m')
  }

  /** The machine that is about to run the popped thread p from state k. */
  ghost function Rewound<O(!new), T(!new)>(P: Program<O, T>, m: Machine<O, T>, k: nat, p: Tid): Machine<O, T>
    requires Shape(P, m) && k <= |m.trans|
  {
    Reflected(P, Popped(m, k, p), k)
  }

  /** Taking a thread out of the backtrack set of a state, rewinding to that
      state, and running the thread. */
  ghost predicate Branched<O(!new), T(!new)>(P: Program<O, T>, m: Machine<O, T>, m': Machine<O, T>, k: nat, p: Tid, reply: Reply<O, T>)
    requires Shape(P, m)
  {
    && 1 <= k <= |m.trans| && p in m.items[k].backtrack
    && var c := Rewound(P, m, k, p);
       && Shape(P, c) && p < |c.next| && ReplyFits(P, c, p, reply)
       && Shape(P, Simulate(P, c, p, reply))
       && Updated(P, Simulate(P, c, p, reply), m')
  }

  // ----- the invariants -------------------------------------------------

  /** What holds in every search. popped is the thread popped from the top
      state and not yet run. */
  ghost predicate Core<O(!new), T(!new)>(P: Program<O, T>, m: Machine<O, T>, popped: set<Tid>) {
    && Shape(P, m) && StartsFirst(P, m) && ItemsClocked(P, m)
    && Discipline(P, m, popped) && SleepJustified(P, m) && DoneExplored(P, m, popped)
    && DepthExact(P, m) && IrreversibleExact(P, m) && Fits(P, m)
  }

  /** Every transition on the stack was well defined when it was run. */
  ghost predicate ProperRun<O(!new), T(!new)>(P: Program<O, T>, m: Machine<O, T>) {
    forall k: nat | k < |m.trans| :: P.proper(StateAt(P, m, k), m.trans[k])
  }

  /** The objects are those of the run, and cached enabled threads are
      enabled. */
  ghost predicate Sound<O(!new), T(!new)>(P: Program<O, T>, m: Machine<O, T>) {
    Shape(P, m) && Faithful(P, m) && EnabledSound(P, m)
  }

  /** Every backtrack obligation is met, and the threads carry clock vectors
      that serve for the tests to come. */
  ghost predicate Owing<O(!new), T(!new)>(P: Program<O, T>, m: Machine<O, T>) {
    Shape(P, m) && AllOwed(P, m) && ThreadsSafe(P, m)
  }

  // ----- the initial machine --------------------------------------------

  lemma StartHolds<O(!new), T(!new)>(P: Program<O, T>, objects: seq<O>)
    requires P.LawfulRelation() && P.fits(|objects|, P.start(0))
    ensures Core(P, Start(P, objects), {}) && Sound(P, Start(P, objects)) && Owing(P, Start(P, objects))
  {
    var m := Start(P, objects);
    assert ItemClocks(m.items) == [];
  }

  // ----- one step -------------------------------------------------------

  lemma StepKeepsCounters<O(!new), T(!new)>(P: Program<O, T>, m: Machine<O, T>, p: Tid, reply: Reply<O, T>)
    requires Shape(P, m) && p < |m.next| && DepthExact(P, m) && IrreversibleExact(P, m)
    ensures DepthExact(P, Simulate(P, m, p, reply)) && IrreversibleExact(P, Simulate(P, m, p, reply))
  {
    var m' := Simulate(P, m, p, reply);
    assert m'.trans[..|m.trans|] == m.trans;
    forall q: Tid | q < |m'.next|
      ensures m'.depth[q] == Count(P, m'.trans, q)
    {
      if q >= |m.next| {
        CountOfAbsent(P, m.trans, q);
      }
    }
    assert m.irreversible + [] == m.irreversible;
  }

  lemma {:induction false} CountOfAbsent<O(!new), T(!new)>(P: Program<O, T>, run: seq<T>, p: Tid)
    requires forall i: nat | i < |run| :: P.tid(run[i]) != p
    ensures Count(P, run, p) == 0
  {
    if run != [] {
      CountOfAbsent(P, run[..|run| - 1], p);
    }
  }

  lemma StepKeepsCore<O(!new), T(!new)>(P: Program<O, T>, m: Machine<O, T>, p: Tid, reply: Reply<O, T>, popped: set<Tid>)
    requires P.LawfulRelation() && P.LawfulStore()
    requires Core(P, m, popped) && popped <= {p} && p < |m.next| && ReplyFits(P, m, p, reply)
    ensures Core(P, Simulate(P, m, p, reply), {})
  {
    StepKeepsShape(P, m, p, reply);
    StepKeepsStartsFirst(P, m, p, reply);
    StepKeepsClocks(P, m, p, reply);
    StepKeepsDiscipline(P, m, p, reply, popped);
    StepKeepsSleepJustified(P, m, p, reply, popped);
    StepKeepsDoneExplored(P, m, p, reply, popped);
    StepKeepsCounters(P, m, p, reply);
    StepKeepsFits(P, m, p, reply);
  }

  lemma {:induction false} NextAtOfUpdate<O(!new), T(!new)>(P: Program<O, T>, m: Machine<O, T>, m': Machine<O, T>, k: nat, p: Tid)
    requires m'.trans == m.trans && m'.next == m.next && k <= |m.trans| && p < |m.next|
    ensures NextAt(P, m', k, p) == NextAt(P, m, k, p)
    decreases |m.trans| - k
  {
    if k < |m.trans| {
      NextAtOfUpdate(P, m, m', k + 1, p);
    }
  }

  lemma TidyDoneSleep<O(!new), T(!new)>(P: Program<O, T>, m: Machine<O, T>)
    requires Shape(P, m) && Discipline(P, m, {})
    ensures forall k: nat | k < |m.items| :: m.items[k].done <= m.items[k].sleep && TidyItem(m.items[k], |m.next|, {})
  {
  }

  lemma UpdateKeepsCore<O(!new), T(!new)>(P: Program<O, T>, m: Machine<O, T>, m': Machine<O, T>)
    requires Core(P, m, {}) && m.trans != [] && Updated(P, m, m')
    ensures Core(P, m', {})
  {
    hide Clocked, Discipline, Updated;
    TidyDoneSleep(P, m);
    UpdateGrows(P, m, m');
    UpdateKeepsDiscipline(P, m, m');
    assert ItemClocks(m'.items) == ItemClocks(m.items);
    forall k: nat, q: Tid | k <= |m.trans| && q < |m.next|
      ensures NextAt(P, m', k, q) == NextAt(P, m, k, q)
    {
      NextAtOfUpdate(P, m, m', k, q);
    }
  }

  lemma UpdateKeepsSound<O(!new), T(!new)>(P: Program<O, T>, m: Machine<O, T>, m': Machine<O, T>)
    requires Core(P, m, {}) && m.trans != [] && Updated(P, m, m') && Sound(P, m)
    ensures Sound(P, m')
  {
    TidyDoneSleep(P, m);
    UpdateGrows(P, m, m');
    forall k: nat, q: Tid | k <= |m.trans| && q < |m.next|
      ensures NextAt(P, m', k, q) == NextAt(P, m, k, q)
    {
      NextAtOfUpdate(P, m, m', k, q);
    }
    forall k: nat | k <= |m.trans|
      ensures StateAt(P, m', k) == StateAt(P, m, k)
    {
    }
  }

  /** The central step: run any thread, update the backtrack sets for the last
      runner only, and every thread's obligation holds at every prefix. */
  lemma StepKeepsOwing<O(!new), T(!new)>(P: Program<O, T>, m: Machine<O, T>, p: Tid, reply: Reply<O, T>, popped: set<Tid>, m': Machine<O, T>)
    requires P.LawfulRelation() && P.LawfulStore()
    requires Core(P, m, popped) && popped <= {p} && p < |m.next| && ReplyFits(P, m, p, reply)
    requires Owing(P, m) && Core(P, Simulate(P, m, p, reply), {}) && Updated(P, Simulate(P, m, p, reply), m')
    ensures Owing(P, m')
  {
    hide Clocked, Discipline, SleepJustified, DoneExplored, Fits, DepthExact, IrreversibleExact, Updated, Obligation, ReplyFits;
    var s := Simulate(P, m, p, reply);
    forall q: Tid | q < |s.next|
      ensures if q == p then ClockExact(P, s, q) else SafeFrom(P, s, q, |m.trans|)
    {
      StepKeepsSafe(P, m, p, reply, q);
    }
    TidyDoneSleep(P, s);
    UpdateGrows(P, s, m');
    forall k: nat, q: Tid | k <= |m'.trans| && q < |m'.next|
      ensures Obligation(P, m'.trans[..k], m'.items, q, NextAt(P, m', k, q))
    {
      NextAtOfUpdate(P, s, m', k, q);
      if k <= |m.trans| {
        ObligationOfPrefixKept(P, m, p, reply, k, q);
        ObligationSurvivesGrowth(P, s.trans[..k], s.items, m'.items, q, NextAt(P, s, k, q));
      } else {
        assert m'.trans[..k] == s.trans;
        ObligationOfTopMet(P, m, p, reply, m', q);
      }
    }
    forall q: Tid | q < |m'.next|
      ensures SafeFrom(P, m', q, |m'.trans|)
    {
      SafetyIsTransparent(P, s, m', q, |m.trans|);
    }
  }

  /** The update does not touch clock vectors. */
  lemma SafetyIsTransparent<O(!new), T(!new)>(P: Program<O, T>, m: Machine<O, T>, m': Machine<O, T>, q: Tid, n: nat)
    requires Shape(P, m) && Shape(P, m') && q < |m.next| && n <= |m.trans|
    requires m' == m.(items := m'.items) && |m'.items| == |m.items|
    requires forall k | 0 <= k < |m.items| :: m'.items[k].clock == m.items[k].clock
    requires ClockExact(P, m, q) || SafeFrom(P, m, q, n)
    ensures ClockExact(P, m, q) <==> ClockExact(P, m', q)
    ensures SafeFrom(P, m', q, |m.trans|)
  {
    hide Program.Calm;
    if !ClockExact(P, m, q) && !P.Calm(m.next[q]) {
      var b: nat :| b <= n && QuietFrom(P, m, q, b);
      assert QuietFrom(P, m', q, b);
    }
  }

  lemma ObligationOfTopMet<O(!new), T(!new)>(P: Program<O, T>, m: Machine<O, T>, p: Tid, reply: Reply<O, T>, m': Machine<O, T>, q: Tid)
    requires P.LawfulRelation() && Shape(P, m) && p < |m.next| && AllOwed(P, m)
    requires Settled(P, Simulate(P, m, p, reply)) && Updated(P, Simulate(P, m, p, reply), m')
    requires q < |m.next| + reply.newThreads
    ensures var s := Simulate(P, m, p, reply);
            |m'.items| == |s.items| && Obligation(P, s.trans, m'.items, q, s.next[q])
  {
    var s := Simulate(P, m, p, reply);
    var n := |m.trans|;
    if q != p {
      ObligationOfPrefixKept(P, m, p, reply, n, q);
      assert s.trans[..n] == m.trans;
      NextAtSkips(P, s, n, n + 1, q);
    }
    UpdateMeetsTop(P, s, m', m.trans, m.next[p], q);
  }

  /** Below the new transition a step leaves every obligation as it was. */
  lemma ObligationOfPrefixKept<O(!new), T(!new)>(P: Program<O, T>, m: Machine<O, T>, p: Tid, reply: Reply<O, T>, k: nat, q: Tid)
    requires P.LawfulRelation() && Shape(P, m) && p < |m.next| && Shape(P, Simulate(P, m, p, reply))
    requires AllOwed(P, m)
    requires k <= |m.trans| && q < |m.next| + reply.newThreads
    ensures var s := Simulate(P, m, p, reply);
            Obligation(P, s.trans[..k], s.items, q, NextAt(P, s, k, q))
  {
    var s := Simulate(P, m, p, reply);
    assert s.trans[..k] == m.trans[..k];
    if q < |m.next| {
      NextAtAfterStep(P, m, p, reply, k, q);
      assert Obligation(P, m.trans[..k], m.items, q, NextAt(P, m, k, q));
      ObligationSurvivesGrowth(P, m.trans[..k], m.items, s.items, q, NextAt(P, m, k, q));
    } else {
      NextAtOfNewThread(P, m, p, reply, k, q);
    }
  }

  // ----- one branch -----------------------------------------------------

  /** c is m rewound to state k with p popped from it, however the objects and
      clock vectors came out. */
  ghost predicate IsCut<O(!new), T(!new)>(P: Program<O, T>, m: Machine<O, T>, c: Machine<O, T>, k: nat, p: Tid)
    requires Shape(P, m) && k <= |m.trans|
  {
    && c.trans == m.trans[..k]
    && c.items == Popped(m, k, p).items[..k + 1]
    && c.next == RewoundNext(P, m, k)
    && |c.threadClock| == |c.depth| == |c.next|
    && c.irreversible == KeepUpTo(m.irreversible, k)
    && c.initial == m.initial && c.explored == m.explored
  }

  lemma PoppedIsTransparent<O(!new), T(!new)>(P: Program<O, T>, m: Machine<O, T>, k: nat, p: Tid)
    requires Shape(P, m) && k <= |m.trans|
    ensures Shape(P, Popped(m, k, p))
    ensures RewoundNext(P, Popped(m, k, p), k) == RewoundNext(P, m, k)
    ensures IsCut(P, m, Rewound(P, m, k, p), k, p)
  {
    forall q: Tid | q < |m.next|
      ensures NextAt(P, Popped(m, k, p), k, q) == NextAt(P, m, k, q)
    {
      NextAtOfUpdate(P, m, Popped(m, k, p), k, q);
    }
  }

  lemma CutKeepsShape<O(!new), T(!new)>(P: Program<O, T>, m: Machine<O, T>, c: Machine<O, T>, k: nat, p: Tid)
    requires Shape(P, m) && 1 <= k <= |m.trans| && IsCut(P, m, c, k, p)
    ensures Shape(P, c)
  {
    forall q: nat | q < |c.next|
      ensures P.tid(c.next[q]) == q
    {
      NextAtIsFirstRun(P, m, k, q);
    }
  }

  lemma CutKeepsPending<O(!new), T(!new)>(P: Program<O, T>, m: Machine<O, T>, c: Machine<O, T>, k: nat, p: Tid)
    requires Shape(P, m) && 1 <= k <= |m.trans| && IsCut(P, m, c, k, p)
    ensures forall l: nat, q: Tid | l <= k && q < |m.next| :: NextAt(P, c, l, q) == NextAt(P, m, l, q)
    ensures forall l: nat | l <= k :: c.trans[..l] == m.trans[..l]
  {
    forall l: nat, q: Tid | l <= k && q < |m.next|
      ensures NextAt(P, c, l, q) == NextAt(P, m, l, q)
    {
      NextAtAfterCut(P, m, c, k, l, q);
    }
  }

  lemma CutKeepsClocks<O(!new), T(!new)>(P: Program<O, T>, m: Machine<O, T>, c: Machine<O, T>, k: nat, p: Tid)
    requires Shape(P, m) && 1 <= k <= |m.trans| && IsCut(P, m, c, k, p) && Shape(P, c) && ItemsClocked(P, m)
    ensures ItemsClocked(P, c)
  {
    assert ItemClocks(c.items) == ItemClocks(m.items)[..k];
    ClockedPrefix(P, m.trans, ItemClocks(m.items), k);
  }

  lemma CutKeepsFits<O(!new), T(!new)>(P: Program<O, T>, m: Machine<O, T>, c: Machine<O, T>, k: nat, p: Tid)
    requires Shape(P, m) && 1 <= k <= |m.trans| && IsCut(P, m, c, k, p) && Fits(P, m)
    ensures Fits(P, c)
  {
    forall q: Tid | q < |c.next|
      ensures P.fits(|c.initial|, c.next[q])
    {
      NextAtFits(P, m, k, q);
    }
  }

  lemma CutKeepsCore<O(!new), T(!new)>(P: Program<O, T>, m: Machine<O, T>, c: Machine<O, T>, k: nat, p: Tid)
    requires Core(P, m, {}) && 1 <= k <= |m.trans| && IsCut(P, m, c, k, p) && p in m.items[k].backtrack
    requires DepthExact(P, c)
    ensures Core(P, c, {p})
  {
    hide ItemsClocked, Fits, Discipline, Count;
    CutKeepsShape(P, m, c, k, p);
    CutKeepsPending(P, m, c, k, p);
    CutKeepsClocks(P, m, c, k, p);
    BranchKeepsDiscipline(P, m, c, k, p);
    CutKeepsFits(P, m, c, k, p);
    KeepsIrreversiblePrefix(P, m.trans, k);
    forall l: nat, q: Tid | l <= |c.trans| && q < |c.next| && q in c.items[l].sleep
      ensures Justified(P, c.explored, c.trans[..l], NextAt(P, c, l, q))
    {
      assert q in m.items[l].sleep;
    }
    forall l: nat, q: Tid | l <= |c.trans| && q < |c.next| && q in c.items[l].done && (l == |c.trans| ==> q !in {p})
      ensures (c.trans[..l], NextAt(P, c, l, q)) in c.explored
    {
      assert q in m.items[l].done;
    }
  }

  lemma RewindKeepsCore<O(!new), T(!new)>(P: Program<O, T>, m: Machine<O, T>, k: nat, p: Tid)
    requires Core(P, m, {}) && 1 <= k <= |m.trans| && p in m.items[k].backtrack
    ensures Core(P, Rewound(P, m, k, p), {p})
  {
    PoppedIsTransparent(P, m, k, p);
    CutKeepsCore(P, m, Rewound(P, m, k, p), k, p);
  }

  /** After a rewind the objects are those of the kept run: always when the
      run was replayed, and for a well-defined run also when it was undone. */
  lemma RewindKeepsSound<O(!new), T(!new)>(P: Program<O, T>, m: Machine<O, T>, k: nat, p: Tid)
    requires Core(P, m, {}) && 1 <= k <= |m.trans| && p in m.items[k].backtrack
    requires P.LawfulUndo() && Sound(P, m)
    requires CanReverse(m, k) ==> ProperRun(P, m)
    ensures Sound(P, Rewound(P, m, k, p))
  {
    hide ItemsClocked, SleepJustified, DoneExplored, Fits, StartsFirst;
    var c := Rewound(P, m, k, p);
    PoppedIsTransparent(P, m, k, p);
    CutKeepsShape(P, m, c, k, p);
    CutKeepsPending(P, m, c, k, p);
    if CanReverse(m, k) {
      var d := Popped(m, k, p);
      forall i: nat | k <= i < |m.trans|
        ensures P.Ready(Replay(P, d.initial, d.trans[..i]), d.trans[i])
      {
        assert P.enabled(StateAt(P, m, i), m.trans[i]) && P.proper(StateAt(P, m, i), m.trans[i]);
      }
      UndoAgreesWithReplay(P, d, k);
    }
    assert Faithful(P, c);
    forall l: nat | l <= k
      ensures StateAt(P, c, l) == StateAt(P, m, l)
    {
    }
  }

  lemma EnabledAtTop<O(!new), T(!new)>(P: Program<O, T>, m: Machine<O, T>, p: Tid)
    requires Sound(P, m) && p < |m.next| && p in m.items[|m.trans|].enabled
    ensures P.enabled(m.current, m.next[p])
  {
    var k := |m.trans|;
    assert m.trans[..k] == m.trans;
    assert P.enabled(StateAt(P, m, k), NextAt(P, m, k, p));
  }

  ghost predicate BranchRunsEnabled<O(!new), T(!new)>(P: Program<O, T>, m: Machine<O, T>, k: nat, p: Tid) {
    && Shape(P, m) && k <= |m.trans| && p < |m.next|
    && var c := Rewound(P, m, k, p);
       P.enabled(c.current, c.next[p])
  }

  /** The thread popped from a backtrack set is enabled where it is run. */
  lemma BranchedThreadIsEnabled<O(!new), T(!new)>(P: Program<O, T>, m: Machine<O, T>, k: nat, p: Tid)
    requires Core(P, m, {}) && 1 <= k <= |m.trans| && p in m.items[k].backtrack
    requires P.LawfulUndo() && Sound(P, m)
    requires CanReverse(m, k) ==> ProperRun(P, m)
    ensures BranchRunsEnabled(P, m, k, p)
  {
    RewindKeepsSound(P, m, k, p);
    PoppedIsTransparent(P, m, k, p);
    TidyDoneSleep(P, m);
    EnabledAtTop(P, Rewound(P, m, k, p), p);
  }

  /** Both ways of rewinding keep what was owed at the kept prefixes. */
  lemma CutKeepsAllOwed<O(!new), T(!new)>(P: Program<O, T>, m: Machine<O, T>, c: Machine<O, T>, k: nat, p: Tid)
    requires Shape(P, m) && 1 <= k <= |m.trans| && IsCut(P, m, c, k, p) && Shape(P, c) && AllOwed(P, m)
    ensures AllOwed(P, c)
  {
    CutKeepsPending(P, m, c, k, p);
    forall l: nat, q: Tid | l <= |c.trans| && q < |c.next|
      ensures Obligation(P, c.trans[..l], c.items, q, NextAt(P, c, l, q))
    {
      assert Obligation(P, m.trans[..l], m.items, q, NextAt(P, m, l, q));
      ObligationSurvivesGrowth(P, m.trans[..l], m.items, c.items, q, NextAt(P, m, l, q));
    }
  }

  /** Replaying also restores the clock vectors of the threads. */
  lemma ReplayKeepsOwing<O(!new), T(!new)>(P: Program<O, T>, m: Machine<O, T>, k: nat, p: Tid)
    requires Shape(P, m) && 1 <= k <= |m.trans|
    requires AllOwed(P, m) && !CanReverse(m, k)
    ensures Owing(P, Rewound(P, m, k, p)) && ThreadClocksExact(P, Rewound(P, m, k, p))
  {
    var c := Rewound(P, m, k, p);
    PoppedIsTransparent(P, m, k, p);
    CutKeepsShape(P, m, c, k, p);
    CutKeepsAllOwed(P, m, c, k, p);
    ReplayRestoresClocks(P, Popped(m, k, p), k);
  }

  /** In a well-defined run, a step that undoing has put back to pending either
      conflicts with nothing, or depends on no other thread's undoable step
      before it. */
  lemma OrderedIsQuiet<O(!new), T(!new)>(P: Program<O, T>, m: Machine<O, T>, l: nat, f: nat)
    requires LawfulRewind(P) && l < f < |m.trans| && AllReversible(P, m.trans, l, f + 1)
    requires RunsReady(P, m.initial, m.trans, 0)
    requires P.dep(m.trans[l], m.trans[f]) && P.tid(m.trans[l]) != P.tid(m.trans[f])
    ensures P.Calm(m.trans[f])
  {
    hide Program.Calm, Replay, PerformsUndoably, RunsReady;
    SegmentPerforms(P, m.initial, m.trans, l, f + 1);
    var run := m.trans[l..f + 1];
    assert run[0] == m.trans[l] && run[|run| - 1] == m.trans[f];
  }

  lemma SegmentPerforms<O(!new), T(!new)>(P: Program<O, T>, s: seq<O>, run: seq<T>, from: nat, to: nat)
    requires from <= to <= |run| && AllReversible(P, run, from, to) && RunsReady(P, s, run, 0)
    ensures PerformsUndoably(P, Replay(P, s, run[..from]), run[from..to])
  {
    hide Replay;
    var segment := run[from..to];
    forall i: nat | i < |segment|
      ensures P.reversible(segment[i]) && P.Ready(Replay(P, Replay(P, s, run[..from]), segment[..i]), segment[i])
    {
      ReplayJoins(P, s, run[..from], segment[..i]);
      assert run[..from] + segment[..i] == run[..from + i];
      assert P.Ready(Replay(P, s, run[..from + i]), run[from + i]);
    }
  }

  /** The clock vector an undone step leaves with its thread knows nothing, of
      other threads, from any state that undoing can reach without undoing an
      earlier step of the thread. */
  lemma StaleClockIsQuiet<O(!new), T(!new)>(P: Program<O, T>, m: Machine<O, T>, f: nat, j: nat, q: Tid)
    requires P.LawfulRelation() && LawfulRewind(P) && Shape(P, m) && ItemsClocked(P, m)
    requires 1 <= j <= f < |m.trans| && AllReversible(P, m.trans, j, f + 1) && RunsReady(P, m.initial, m.trans, 0)
    requires !P.Calm(m.trans[f]) && q != P.tid(m.trans[f])
    requires forall i: nat | j <= i < f :: P.tid(m.trans[i]) != P.tid(m.trans[f])
    ensures ValueFor(m.items[f + 1].clock, q) < j
  {
    hide Clocked, Program.Calm, LawfulRewind, RunsReady;
    var v := ValueFor(m.items[f + 1].clock, q);
    ClockValueIsARun(P, m.trans, ItemClocks(m.items), f, q);
    if v >= j {
      assert v < f && Chain(P, m.trans, v, f);
      var l: nat :| l < f && P.dep(m.trans[l], m.trans[f]) && Chain(P, m.trans, v, l);
      ChainIsOrdered(P, m.trans, v, l);
      OrderedIsQuiet(P, m, l, f);
      assert false;
    }
  }

  lemma RunIsReady<O(!new), T(!new)>(P: Program<O, T>, m: Machine<O, T>)
    requires Sound(P, m) && ProperRun(P, m)
    ensures RunsReady(P, m.initial, m.trans, 0)
  {
    forall i: nat | i < |m.trans|
      ensures P.Ready(Replay(P, m.initial, m.trans[..i]), m.trans[i])
    {
      assert P.enabled(StateAt(P, m, i), m.trans[i]) && P.proper(StateAt(P, m, i), m.trans[i]);
    }
  }

  lemma LastRunOfPrefix<O(!new), T(!new)>(P: Program<O, T>, run: seq<T>, k: nat, p: Tid)
    requires k <= |run| && forall i | k <= i < |run| :: P.tid(run[i]) != p
    ensures LastRun(P, run[..k], p) == LastRun(P, run, p)
    decreases |run|
  {
    if k == |run| {
      assert run[..k] == run;
    } else {
      assert run[..|run| - 1][..k] == run[..k];
      LastRunOfPrefix(P, run[..|run| - 1], k, p);
    }
  }

  /** Undoing leaves every thread with a safe clock vector: a thread that was
      not undone keeps its own, and one that was gets a quiet one. */
  lemma UndoKeepsSafe<O(!new), T(!new)>(P: Program<O, T>, m: Machine<O, T>, c: Machine<O, T>, k: nat, r: Tid, p: Tid)
    requires P.LawfulRelation() && LawfulRewind(P) && Shape(P, m) && ItemsClocked(P, m) && ThreadsSafe(P, m)
    requires RunsReady(P, m.initial, m.trans, 0) && 1 <= k <= |m.trans| && AllReversible(P, m.trans, k, |m.trans|)
    requires IsCut(P, m, c, k, r) && Shape(P, c) && p < |m.next| && c.threadClock == UndoneClocks(P, m, k)
    ensures SafeFrom(P, c, p, k)
  {
    hide ItemsClocked, Program.Calm, LawfulRewind, RunsReady, LastRun, FirstRun, QuietFrom;
    var f := FirstRun(P, m.trans, k, p);
    NextAtIsFirstRun(P, m, k, p);
    if f == |m.trans| {
      LastRunOfPrefix(P, m.trans, k, p);
      assert SafeFrom(P, m, p, |m.trans|);
      if !P.Calm(m.next[p]) && !ClockExact(P, m, p) {
        var b: nat :| b <= |m.trans| && QuietFrom(P, m, p, b);
        QuietOfPrefix(P, m, c, k, r, p, b);
      }
    } else if !P.Calm(m.trans[f]) && LastRun(P, c.trans, p) >= 0 {
      QuietOfUndone(P, m, c, k, r, p);
    }
  }

  lemma QuietOfPrefix<O(!new), T(!new)>(P: Program<O, T>, m: Machine<O, T>, c: Machine<O, T>, k: nat, r: Tid, p: Tid, b: nat)
    requires Shape(P, m) && 1 <= k <= |m.trans| && AllReversible(P, m.trans, k, |m.trans|)
    requires IsCut(P, m, c, k, r) && Shape(P, c) && p < |m.next|
    requires c.threadClock[p] == m.threadClock[p] && LastRun(P, c.trans, p) == LastRun(P, m.trans, p) && QuietFrom(P, m, p, b)
    ensures QuietFrom(P, c, p, if b <= k then b else k)
  {
    hide LastRun;
    var b' := if b <= k then b else k;
    forall j: nat, q: Tid | LastRun(P, c.trans, p) < j <= b' && AllReversible(P, c.trans, j, b') && q != p
      ensures ValueFor(c.threadClock[p], q) < j
    {
      assert forall i: nat | j <= i < b' :: c.trans[i] == m.trans[i];
      assert AllReversible(P, m.trans, j, b);
    }
  }

  lemma QuietOfUndone<O(!new), T(!new)>(P: Program<O, T>, m: Machine<O, T>, c: Machine<O, T>, k: nat, r: Tid, p: Tid)
    requires P.LawfulRelation() && LawfulRewind(P) && Shape(P, m) && ItemsClocked(P, m)
    requires RunsReady(P, m.initial, m.trans, 0) && 1 <= k <= |m.trans| && AllReversible(P, m.trans, k, |m.trans|)
    requires IsCut(P, m, c, k, r) && Shape(P, c) && p < |m.next| && c.threadClock == UndoneClocks(P, m, k)
    requires LastRun(P, c.trans, p) >= 0
    requires FirstRun(P, m.trans, k, p) < |m.trans| && !P.Calm(m.trans[FirstRun(P, m.trans, k, p)])
    ensures QuietFrom(P, c, p, k)
  {
    hide ItemsClocked, Program.Calm, LawfulRewind, RunsReady, LastRun, FirstRun;
    var f := FirstRun(P, m.trans, k, p);
    forall j: nat, q: Tid | LastRun(P, c.trans, p) < j <= k && AllReversible(P, c.trans, j, k) && q != p
      ensures ValueFor(c.threadClock[p], q) < j
    {
      assert forall i: nat | i < k :: c.trans[i] == m.trans[i];
      StaleClockIsQuiet(P, m, f, j, q);
    }
  }

  /** So undoing, too, keeps what the search owes. */
  lemma UndoKeepsOwing<O(!new), T(!new)>(P: Program<O, T>, m: Machine<O, T>, k: nat, p: Tid)
    requires P.LawfulRelation() && P.LawfulUndo() && LawfulRewind(P) && Core(P, m, {}) && 1 <= k <= |m.trans|
    requires Owing(P, m) && Sound(P, m) && ProperRun(P, m) && CanReverse(m, k)
    ensures Owing(P, Rewound(P, m, k, p))
  {
    hide ItemsClocked, SleepJustified, DoneExplored, Fits, Discipline, Undo, Count;
    var c := Rewound(P, m, k, p);
    PoppedIsTransparent(P, m, k, p);
    CutKeepsShape(P, m, c, k, p);
    CutKeepsAllOwed(P, m, c, k, p);
    CanReverseIff(P, m, k);
    RunIsReady(P, m);
    assert UndoneClocks(P, Popped(m, k, p), k) == UndoneClocks(P, m, k);
    forall q: Tid | q < |c.next|
      ensures SafeFrom(P, c, q, |c.trans|)
    {
      UndoKeepsSafe(P, m, c, k, p, q);
    }
  }

  lemma UndoneClockOf<O(!new), T(!new)>(P: Program<O, T>, m: Machine<O, T>, k: nat, q: Tid, p: Tid)
    requires Shape(P, m) && 1 <= k <= |m.trans| && CanReverse(m, k) && p < |m.next| && FirstRun(P, m.trans, k, p) < |m.trans|
    ensures var c := Rewound(P, m, k, q);
            Shape(P, c) && |c.trans| == k && |c.next| == |m.next|
            && c.threadClock[p] == m.items[FirstRun(P, m.trans, k, p) + 1].clock
  {
    PoppedIsTransparent(P, m, k, q);
    CutKeepsShape(P, m, Rewound(P, m, k, q), k, q);
  }

  lemma StepLeavesOthers<O(!new), T(!new)>(P: Program<O, T>, m: Machine<O, T>, q: Tid, reply: Reply<O, T>, p: Tid)
    requires Shape(P, m) && q < |m.next| && p < |m.next| && p != q
    ensures var s := Simulate(P, m, q, reply);
            p < |s.next| == |s.threadClock| && s.next[p] == m.next[p] && s.threadClock[p] == m.threadClock[p]
            && s.trans == m.trans + [m.next[q]] && P.tid(m.next[q]) == q
  {
  }

  /** For transitions of any kind: when q runs from state k, the clock test of a
      thread p that was undone differs from the chain test exactly when, in the
      undone run, a transition of q was chained to the one p was rewound to.
      Under the law of reversible transitions that never matters, because what
      p was rewound to then conflicts with nothing. */
  lemma UndoneTestMisses<O(!new), T(!new)>(P: Program<O, T>, m: Machine<O, T>, k: nat, q: Tid, p: Tid, reply: Reply<O, T>, s: Machine<O, T>)
    requires P.LawfulRelation() && Shape(P, m) && ItemsClocked(P, m) && 1 <= k <= |m.trans| && CanReverse(m, k)
    requires p < |m.next| && q < |m.next| && p != q && FirstRun(P, m.trans, k, p) < |m.trans|
    requires Shape(P, Rewound(P, m, k, q)) && q < |Rewound(P, m, k, q).next|
    requires s == Simulate(P, Rewound(P, m, k, q), q, reply)
    ensures |s.trans| == k + 1 && p < |s.next| == |s.threadClock|
    ensures var f := FirstRun(P, m.trans, k, p);
            ShouldProcess(P, s, k, p)
            <==> Conflict(P, s.trans, k, p, s.next[p])
                 && !exists j: nat :: k <= j < f && P.tid(m.trans[j]) == q && Chain(P, m.trans, j, f)
  {
    hide Simulate, Rewound, FirstRun, ItemsClocked, Clocked;
    var c := Rewound(P, m, k, q);
    UndoneClockOf(P, m, k, q, p);
    StepLeavesOthers(P, c, q, reply, p);
    PrecedesThreadExtends(P, c.trans, c.next[q], k, p);
    StaleClockReaches(P, m, k, FirstRun(P, m.trans, k, p), q);
  }

  lemma StaleClockReaches<O(!new), T(!new)>(P: Program<O, T>, m: Machine<O, T>, k: nat, f: nat, q: Tid)
    requires P.LawfulRelation() && Shape(P, m) && ItemsClocked(P, m) && 1 <= k <= f < |m.trans| && q != P.tid(m.trans[f])
    ensures k <= ValueFor(m.items[f + 1].clock, q)
            <==> exists j: nat :: k <= j < f && P.tid(m.trans[j]) == q && Chain(P, m.trans, j, f)
  {
    var clocks := ItemClocks(m.items);
    ClockValueIsARun(P, m.trans, clocks, f, q);
    if exists j: nat :: k <= j < f && P.tid(m.trans[j]) == q && Chain(P, m.trans, j, f) {
      var j: nat :| k <= j < f && P.tid(m.trans[j]) == q && Chain(P, m.trans, j, f);
      ClocksAreExact(P, m.trans, clocks, j, f);
    }
  }

  // ----- whole searches -------------------------------------------------

  datatype Move<O, T> = Run(p: Tid, reply: Reply<O, T>) | Branch(k: nat, p: Tid, reply: Reply<O, T>)

  ghost predicate Makes<O(!new), T(!new)>(P: Program<O, T>, m: Machine<O, T>, move: Move<O, T>, m': Machine<O, T>) {
    Shape(P, m) &&
    match move
    case Run(p, reply) => Ran(P, m, m', p, reply)
    case Branch(k, p, reply) => Branched(P, m, m', k, p, reply)
  }

  /** The machines of a search, started on the given objects. */
  ghost predicate IsSearch<O(!new), T(!new)>(P: Program<O, T>, objects: seq<O>, moves: seq<Move<O, T>>, ms: seq<Machine<O, T>>) {
    && P.LawfulRelation() && P.LawfulStore() && P.fits(|objects|, P.start(0))
    && |ms| == |moves| + 1
    && ms[0] == Start(P, objects)
    && forall i: nat | i < |moves| :: Makes(P, ms[i], moves[i], ms[i + 1])
  }

  lemma MoveKeepsCore<O(!new), T(!new)>(P: Program<O, T>, m: Machine<O, T>, move: Move<O, T>, m': Machine<O, T>)
    requires P.LawfulRelation() && P.LawfulStore()
    requires Core(P, m, {}) && Makes(P, m, move, m')
    ensures Core(P, m', {})
  {
    hide Core, Updated, Reflected;
    match move
    case Run(p, reply) =>
      StepKeepsCore(P, m, p, reply, {});
      UpdateKeepsCore(P, Simulate(P, m, p, reply), m');
    case Branch(k, p, reply) =>
      var c := Rewound(P, m, k, p);
      RewindKeepsCore(P, m, k, p);
      StepKeepsCore(P, c, p, reply, {p});
      UpdateKeepsCore(P, Simulate(P, c, p, reply), m');
  }

  lemma StepKeepsSound<O(!new), T(!new)>(P: Program<O, T>, m: Machine<O, T>, p: Tid, reply: Reply<O, T>, popped: set<Tid>, m': Machine<O, T>)
    requires P.LawfulRelation() && P.LawfulStore() && Core(P, m, popped) && popped <= {p} && Sound(P, m)
    requires p < |m.next| && P.enabled(m.current, m.next[p]) && ReplyFits(P, m, p, reply)
    requires Shape(P, Simulate(P, m, p, reply)) && Updated(P, Simulate(P, m, p, reply), m')
    ensures Sound(P, m')
  {
    var s := Simulate(P, m, p, reply);
    StepKeepsCore(P, m, p, reply, popped);
    StepKeepsFaithful(P, m, p, reply);
    StepKeepsEnabledSound(P, m, p, reply, popped);
    UpdateKeepsSound(P, s, m');
  }

  lemma MoveKeepsSound<O(!new), T(!new)>(P: Program<O, T>, m: Machine<O, T>, move: Move<O, T>, m': Machine<O, T>)
    requires P.LawfulRelation() && P.LawfulStore() && P.LawfulUndo()
    requires Core(P, m, {}) && Makes(P, m, move, m') && Sound(P, m)
    requires move.Branch? && CanReverse(m, move.k) ==> ProperRun(P, m)
    ensures Sound(P, m')
  {
    hide Core, Updated, Reflected;
    match move
    case Run(p, reply) =>
      StepKeepsSound(P, m, p, reply, {}, m');
    case Branch(k, p, reply) =>
      RewindKeepsCore(P, m, k, p);
      RewindKeepsSound(P, m, k, p);
      BranchedThreadIsEnabled(P, m, k, p);
      StepKeepsSound(P, Rewound(P, m, k, p), p, reply, {p}, m');
  }

  /** Undoing m is exact: the laws of undoing hold, and every call on the
      stack was well defined. */
  ghost predicate WellUndone<O(!new), T(!new)>(P: Program<O, T>, m: Machine<O, T>) {
    P.LawfulUndo() && LawfulRewind(P) && ProperRun(P, m)
  }

  lemma MoveKeepsOwing<O(!new), T(!new)>(P: Program<O, T>, m: Machine<O, T>, move: Move<O, T>, m': Machine<O, T>)
    requires P.LawfulRelation() && P.LawfulStore()
    requires Core(P, m, {}) && Makes(P, m, move, m') && Owing(P, m)
    requires move.Branch? && CanReverse(m, move.k) ==> WellUndone(P, m) && Sound(P, m)
    ensures Owing(P, m')
  {
    hide Core, Updated, Reflected, AllOwed, ThreadsSafe, Sound, ProperRun, LawfulRewind, CanReverse;
    match move
    case Run(p, reply) =>
      StepKeepsCore(P, m, p, reply, {});
      StepKeepsOwing(P, m, p, reply, {}, m');
    case Branch(k, p, reply) =>
      var c := Rewound(P, m, k, p);
      RewindKeepsCore(P, m, k, p);
      if CanReverse(m, k) {
        UndoKeepsOwing(P, m, k, p);
      } else {
        ReplayKeepsOwing(P, m, k, p);
      }
      StepKeepsCore(P, c, p, reply, {p});
      StepKeepsOwing(P, c, p, reply, {p}, m');
  }

  lemma MoveKeepsThreadClocks<O(!new), T(!new)>(P: Program<O, T>, m: Machine<O, T>, move: Move<O, T>, m': Machine<O, T>)
    requires P.LawfulRelation() && P.LawfulStore()
    requires Core(P, m, {}) && Makes(P, m, move, m') && AllOwed(P, m) && ThreadClocksExact(P, m)
    requires move.Branch? ==> !CanReverse(m, move.k)
    ensures Shape(P, m') && ThreadClocksExact(P, m')
  {
    hide Updated, Reflected, AllOwed, CanReverse, ReplyFits, ItemsClocked, Fits, SleepJustified, DoneExplored;
    var c, p, reply := m, move.p, move.reply;
    if move.Branch? {
      c := Rewound(P, m, move.k, p);
      RewindKeepsCore(P, m, move.k, p);
      ReplayKeepsOwing(P, m, move.k, p);
    }
    var s := Simulate(P, c, p, reply);
    StepKeepsCore(P, c, p, reply, if move.Branch? then {p} else {});
    StepKeepsThreadClocks(P, c, p, reply);
    TidyDoneSleep(P, s);
    UpdateGrows(P, s, m');
    forall q: Tid | q < |m'.next|
      ensures ClockExact(P, m', q)
    {
      SafetyIsTransparent(P, s, m', q, |s.trans|);
    }
  }

  /** In every search, at every point: the stacks agree, pending transitions
      round-trip, clock vectors are exact, the four sets of every state are
      disciplined, every sleeping thread is justified, and depths and
      irreversible states are counted right. */
  lemma {:induction false} SearchKeepsCore<O(!new), T(!new)>(P: Program<O, T>, objects: seq<O>, moves: seq<Move<O, T>>, ms: seq<Machine<O, T>>, i: nat)
    requires IsSearch(P, objects, moves, ms) && i < |ms|
    ensures Core(P, ms[i], {})
  {
    hide Core, Makes, Start;
    if i == 0 {
      StartHolds(P, objects);
    } else {
      SearchKeepsCore(P, objects, moves, ms, i - 1);
      MoveKeepsCore(P, ms[i - 1], moves[i - 1], ms[i]);
    }
  }

  /** In every search of a program whose calls are well defined, the live
      objects are always those of the run on the stack, and every transition
      on the stack was enabled when it ran. */
  lemma {:induction false} SearchIsSound<O(!new), T(!new)>(P: Program<O, T>, objects: seq<O>, moves: seq<Move<O, T>>, ms: seq<Machine<O, T>>, i: nat)
    requires IsSearch(P, objects, moves, ms) && i < |ms| && P.LawfulUndo()
    requires forall j: nat | j < i && moves[j].Branch? && CanReverse(ms[j], moves[j].k) :: ProperRun(P, ms[j])
    ensures Sound(P, ms[i])
  {
    hide Core, Makes, Start, ProperRun, BranchRunsEnabled, Sound, CanReverse;
    SearchKeepsCore(P, objects, moves, ms, i);
    if i == 0 {
      StartHolds(P, objects);
    } else {
      SearchIsSound(P, objects, moves, ms, i - 1);
      SearchKeepsCore(P, objects, moves, ms, i - 1);
      MoveKeepsSound(P, ms[i - 1], moves[i - 1], ms[i]);
    }
  }

  /** So every thread taken from a backtrack set is enabled where it is run
      again. */
  lemma SearchBranchesAreEnabled<O(!new), T(!new)>(P: Program<O, T>, objects: seq<O>, moves: seq<Move<O, T>>, ms: seq<Machine<O, T>>, i: nat)
    requires IsSearch(P, objects, moves, ms) && i < |moves| && moves[i].Branch? && P.LawfulUndo()
    requires forall j: nat | j <= i && moves[j].Branch? && CanReverse(ms[j], moves[j].k) :: ProperRun(P, ms[j])
    ensures BranchRunsEnabled(P, ms[i], moves[i].k, moves[i].p)
  {
    hide Core, Updated, Start, ProperRun, Sound, CanReverse, Reflected;
    SearchKeepsCore(P, objects, moves, ms, i);
    SearchIsSound(P, objects, moves, ms, i);
    assert Makes(P, ms[i], moves[i], ms[i + 1]);
    BranchedThreadIsEnabled(P, ms[i], moves[i].k, moves[i].p);
  }

  /** Up to its i-th machine, the search undid well-defined runs only. */
  ghost predicate UndoesWell<O(!new), T(!new)>(P: Program<O, T>, moves: seq<Move<O, T>>, ms: seq<Machine<O, T>>, i: nat)
    requires i <= |moves| && |ms| == |moves| + 1
  {
    forall j: nat | j < i && moves[j].Branch? && CanReverse(ms[j], moves[j].k) :: WellUndone(P, ms[j])
  }

  /** In every search, by any mix of undoing and replaying, every thread's
      backtrack obligation is met at every prefix of the stack. */
  lemma {:induction false} SearchMeetsObligations<O(!new), T(!new)>(P: Program<O, T>, objects: seq<O>, moves: seq<Move<O, T>>, ms: seq<Machine<O, T>>, i: nat)
    requires IsSearch(P, objects, moves, ms) && i < |ms| && UndoesWell(P, moves, ms, i)
    ensures Owing(P, ms[i])
  {
    hide Core, Makes, Start, Owing, CanReverse, LawfulRewind, ProperRun, Sound;
    if i == 0 {
      StartHolds(P, objects);
    } else {
      SearchMeetsObligations(P, objects, moves, ms, i - 1);
      SearchKeepsCore(P, objects, moves, ms, i - 1);
      if moves[i - 1].Branch? && CanReverse(ms[i - 1], moves[i - 1].k) {
        assert WellUndone(P, ms[i - 1]);
        SearchIsSound(P, objects, moves, ms, i - 1);
      }
      MoveKeepsOwing(P, ms[i - 1], moves[i - 1], ms[i]);
    }
  }

  /** In a search that rewinds by replaying only, every thread that has run
      carries the clock vector of its last transition. */
  lemma {:induction false} ReplayingKeepsThreadClocks<O(!new), T(!new)>(P: Program<O, T>, objects: seq<O>, moves: seq<Move<O, T>>, ms: seq<Machine<O, T>>, i: nat)
    requires IsSearch(P, objects, moves, ms) && i < |ms|
    requires forall j: nat | j < i && moves[j].Branch? :: !CanReverse(ms[j], moves[j].k)
    ensures Shape(P, ms[i]) && ThreadClocksExact(P, ms[i])
  {
    hide Core, Makes, CanReverse, AllOwed, ThreadsSafe;
    if i == 0 {
      StartHolds(P, objects);
    } else {
      ReplayingKeepsThreadClocks(P, objects, moves, ms, i - 1);
      SearchKeepsCore(P, objects, moves, ms, i - 1);
      SearchMeetsObligations(P, objects, moves, ms, i - 1);
      MoveKeepsThreadClocks(P, ms[i - 1], moves[i - 1], ms[i]);
    }
  }

  /** The last state of a search has nothing to backtrack on yet. */
  lemma TopHasNoBacktrack<O(!new), T(!new)>(P: Program<O, T>, objects: seq<O>, moves: seq<Move<O, T>>, ms: seq<Machine<O, T>>, i: nat)
    requires IsSearch(P, objects, moves, ms) && i < |ms|
    ensures |ms[i].items| == |ms[i].trans| + 1 && ms[i].items[|ms[i].trans|].backtrack == {}
  {
    hide Core, Updated, Reflected, ReplyFits, Simulate, Rewound;
    if i > 0 {
      var m, m' := ms[i - 1], ms[i];
      assert Makes(P, m, moves[i - 1], m');
      SearchKeepsCore(P, objects, moves, ms, i - 1);
      StepAddsNone(P, m, moves[i - 1], m');
      StepKeepsTrans(P, m, moves[i - 1], m');
      match moves[i - 1]
      case Run(p, reply) =>
        StepKeepsCore(P, m, p, reply, {});
        UpdateLeavesTop(P, Simulate(P, m, p, reply), m');
      case Branch(k, p, reply) =>
        RewindKeepsCore(P, m, k, p);
        StepKeepsCore(P, Rewound(P, m, k, p), p, reply, {p});
        UpdateLeavesTop(P, Simulate(P, Rewound(P, m, k, p), p, reply), m');
    }
  }

  lemma UpdateLeavesTop<O(!new), T(!new)>(P: Program<O, T>, m: Machine<O, T>, m': Machine<O, T>)
    requires Core(P, m, {}) && m.trans != [] && Updated(P, m, m')
    ensures m'.trans == m.trans && |m'.items| == |m.items| == |m.trans| + 1 && m'.items[|m.trans|] == m.items[|m.trans|]
  {
    TidyDoneSleep(P, m);
    UpdateGrows(P, m, m');
  }

  // ----- and it schedules no more than it owes --------------------------

  lemma StepIsSettled<O(!new), T(!new)>(P: Program<O, T>, m: Machine<O, T>, p: Tid, reply: Reply<O, T>)
    requires Shape(P, m) && p < |m.next| && ThreadsSafe(P, m) && Core(P, Simulate(P, m, p, reply), {})
    ensures Settled(P, Simulate(P, m, p, reply))
  {
    hide Clocked, SleepJustified, DoneExplored, Fits, DepthExact, IrreversibleExact, StartsFirst;
    var s := Simulate(P, m, p, reply);
    forall q: Tid | q < |s.next|
      ensures if q == p then ClockExact(P, s, q) else SafeFrom(P, s, q, |m.trans|)
    {
      StepKeepsSafe(P, m, p, reply, q);
    }
    TidyDoneSleep(P, s);
  }

  /** The machine after the step of a move, before the update. */
  ghost function Stepped<O(!new), T(!new)>(P: Program<O, T>, m: Machine<O, T>, move: Move<O, T>, m': Machine<O, T>): Machine<O, T>
    requires Makes(P, m, move, m')
  {
    match move
    case Run(p, reply) => Simulate(P, m, p, reply)
    case Branch(k, p, reply) => Simulate(P, Rewound(P, m, k, p), p, reply)
  }

  lemma StepAddsNone<O(!new), T(!new)>(P: Program<O, T>, m: Machine<O, T>, move: Move<O, T>, m': Machine<O, T>)
    requires Makes(P, m, move, m')
    ensures var s := Stepped(P, m, move, m');
            && |s.items| == |s.trans| + 1 <= |m.items| + 1 && s.items[|s.trans|].backtrack == {}
            && forall k: nat | k < |s.trans| :: s.items[k].backtrack <= m.items[k].backtrack
  {
    hide Updated, Reflected, ReplyFits;
    if move.Branch? {
      PoppedIsTransparent(P, m, move.k, move.p);
    }
  }

  lemma StepKeepsTrans<O(!new), T(!new)>(P: Program<O, T>, m: Machine<O, T>, move: Move<O, T>, m': Machine<O, T>)
    requires Makes(P, m, move, m')
    ensures Stepped(P, m, move, m').trans != []
  {
    hide Updated, Reflected, ReplyFits, Rewound;
  }

  lemma SparingStep<O(!new), T(!new)>(P: Program<O, T>, c: Machine<O, T>, p: Tid, reply: Reply<O, T>, popped: set<Tid>, m': Machine<O, T>, k: nat)
    requires P.LawfulRelation() && P.LawfulStore() && Core(P, c, popped) && popped <= {p} && ThreadsSafe(P, c)
    requires p < |c.next| && ReplyFits(P, c, p, reply) && Shape(P, Simulate(P, c, p, reply))
    requires Updated(P, Simulate(P, c, p, reply), m') && k < |c.trans| + 1
    ensures var s := Simulate(P, c, p, reply);
            |s.trans| == |c.trans| + 1 && m' == s.(items := m'.items) && |m'.items| == |s.items|
            && Sparing(P, s, k, m'.items[k].backtrack - s.items[k].backtrack)
  {
    hide Core, Updated, Sparing, Settled;
    StepKeepsCore(P, c, p, reply, popped);
    CoreIsShaped(P, c, popped);
    StepIsSettled(P, c, p, reply);
    UpdateOnlyAdds(P, Simulate(P, c, p, reply), m', k);
  }

  lemma CoreIsShaped<O(!new), T(!new)>(P: Program<O, T>, m: Machine<O, T>, popped: set<Tid>)
    requires Core(P, m, popped)
    ensures Shape(P, m)
  {
  }

  /** In every search, a move adds a thread to a backtrack set only where some
      thread's last conflict calls for it, and no more than one for each. */
  lemma SearchIsSparing<O(!new), T(!new)>(P: Program<O, T>, objects: seq<O>, moves: seq<Move<O, T>>, ms: seq<Machine<O, T>>, i: nat, k: nat)
    requires IsSearch(P, objects, moves, ms) && i < |moves| && UndoesWell(P, moves, ms, i + 1)
    requires Makes(P, ms[i], moves[i], ms[i + 1]) && k < |Stepped(P, ms[i], moves[i], ms[i + 1]).trans|
    ensures var s, m' := Stepped(P, ms[i], moves[i], ms[i + 1]), ms[i + 1];
            && Shape(P, s) && m' == s.(items := m'.items) && |m'.items| == |s.items| && k < |ms[i].items|
            && s.items[k].backtrack <= ms[i].items[k].backtrack
            && Sparing(P, s, k, m'.items[k].backtrack - s.items[k].backtrack)
  {
    hide Core, Updated, AllOwed, Sparing, ThreadsSafe, CanReverse, LawfulRewind, ProperRun, Sound, Rewound, ReplyFits;
    var m, m' := ms[i], ms[i + 1];
    SearchKeepsCore(P, objects, moves, ms, i);
    SearchMeetsObligations(P, objects, moves, ms, i);
    SearchLaws(P, objects, moves, ms);
    StepAddsNone(P, m, moves[i], m');
    match moves[i]
    case Run(p, reply) =>
      SparingStep(P, m, p, reply, {}, m', k);
    case Branch(d, p, reply) =>
      RewindKeepsCore(P, m, d, p);
      if CanReverse(m, d) {
        assert WellUndone(P, m);
        SearchIsSound(P, objects, moves, ms, i);
        UndoKeepsOwing(P, m, d, p);
      } else {
        ReplayKeepsOwing(P, m, d, p);
      }
      SparingStep(P, Rewound(P, m, d, p), p, reply, {p}, m', k);
  }

  // ----- running on and rewinding ---------------------------------------

  /** m' extends m by running threads: the first steps and the pending
      transitions they leave are those of m. */
  ghost predicate RanOn<O(!new), T(!new)>(P: Program<O, T>, m: Machine<O, T>, m': Machine<O, T>) {
    && m.trans <= m'.trans && |m.next| <= |m'.next| && m.initial <= m'.initial
    && forall p: Tid | p < |m.next| :: NextAt(P, m', |m.trans|, p) == m.next[p]
  }

  lemma StepRunsOn<O(!new), T(!new)>(P: Program<O, T>, m0: Machine<O, T>, m: Machine<O, T>, p: Tid, reply: Reply<O, T>, m': Machine<O, T>)
    requires Shape(P, m) && RanOn(P, m0, m) && Ran(P, m, m', p, reply)
    ensures RanOn(P, m0, m')
  {
    hide ReplyFits, NextAt;
    var s := Simulate(P, m, p, reply);
    var k := |m0.trans|;
    assert s.trans == m.trans + [m.next[p]] && m'.trans == s.trans && m'.next == s.next;
    forall q: Tid | q < |m0.next|
      ensures NextAt(P, m', k, q) == m0.next[q]
    {
      NextAtAfterStep(P, m, p, reply, k, q);
      NextAtOfUpdate(P, s, m', k, q);
    }
  }

  lemma {:induction false} SearchRunsOn<O(!new), T(!new)>(P: Program<O, T>, objects: seq<O>, moves: seq<Move<O, T>>, ms: seq<Machine<O, T>>, i: nat, j: nat)
    requires IsSearch(P, objects, moves, ms) && i <= j < |ms|
    requires forall n | i <= n < j :: moves[n].Run?
    ensures RanOn(P, ms[i], ms[j])
    decreases j
  {
    hide Core, Ran;
    if i == j {
      SearchKeepsCore(P, objects, moves, ms, i);
    } else {
      SearchRunsOn(P, objects, moves, ms, i, j - 1);
      assert Makes(P, ms[j - 1], moves[j - 1], ms[j]);
      StepRunsOn(P, ms[i], ms[j - 1], moves[j - 1].p, moves[j - 1].reply, ms[j]);
    }
  }

  /** Rewinding undoes any number of steps: from wherever the search has run
      on to, rewinding restores the stack, and every thread there was is about
      to do what it was about to do. The objects there were are restored too,
      when the search is sound. */
  lemma RewindUndoesRuns<O(!new), T(!new)>(P: Program<O, T>, objects: seq<O>, moves: seq<Move<O, T>>, ms: seq<Machine<O, T>>, i: nat, j: nat)
    requires IsSearch(P, objects, moves, ms) && i <= j < |ms| && P.LawfulUndo()
    requires forall n | i <= n < j :: moves[n].Run?
    ensures Shape(P, ms[j]) && |ms[i].trans| <= |ms[j].trans| && |ms[i].next| <= |ms[j].next| && ms[i].initial <= ms[j].initial
    ensures var c := Reflected(P, ms[j], |ms[i].trans|);
            && c.trans == ms[i].trans
            && c.next[..|ms[i].next|] == ms[i].next
            && (Sound(P, ms[i]) && Sound(P, ms[j]) && (CanReverse(ms[j], |ms[i].trans|) ==> ProperRun(P, ms[j])) ==>
                  c.current == ms[i].current + ms[j].initial[|ms[i].initial|..])
  {
    hide ItemsClocked, SleepJustified, DoneExplored, StartsFirst, Discipline, IsSearch, ProperRun, CanReverse, EnabledSound;
    SearchKeepsCore(P, objects, moves, ms, i);
    SearchKeepsCore(P, objects, moves, ms, j);
    SearchRunsOn(P, objects, moves, ms, i, j);
    var m, k := ms[j], |ms[i].trans|;
    SearchLaws(P, objects, moves, ms);
    if Sound(P, ms[i]) && Sound(P, m) && (CanReverse(m, k) ==> ProperRun(P, m)) {
      ReflectedFrom(P, ms[i], m, k);
    }
  }

  lemma ReflectedFrom<O(!new), T(!new)>(P: Program<O, T>, m0: Machine<O, T>, m: Machine<O, T>, k: nat)
    requires P.LawfulUndo() && P.LawfulStore() && Core(P, m, {}) && Sound(P, m) && Fits(P, m0) && Faithful(P, m0)
    requires k <= |m.trans| && m0.trans == m.trans[..k] && m0.initial <= m.initial
    requires CanReverse(m, k) ==> ProperRun(P, m)
    ensures Reflected(P, m, k).current == m0.current + m.initial[|m0.initial|..]
  {
    hide Core, Reflected, Sound, ProperRun, CanReverse, Program.LawfulUndo;
    CoreIsShaped(P, m, {});
    ReflectedObjects(P, m, k);
    var later := m.initial[|m0.initial|..];
    assert m.initial == m0.initial + later;
    ReplayExtends(P, m0.initial, later, m0.trans);
  }

  lemma SearchLaws<O(!new), T(!new)>(P: Program<O, T>, objects: seq<O>, moves: seq<Move<O, T>>, ms: seq<Machine<O, T>>)
    requires IsSearch(P, objects, moves, ms)
    ensures P.LawfulRelation() && P.LawfulStore() && |ms| == |moves| + 1
  {
  }

  /** The objects after a rewind, either way. */
  lemma ReflectedObjects<O(!new), T(!new)>(P: Program<O, T>, m: Machine<O, T>, k: nat)
    requires P.LawfulUndo() && Core(P, m, {}) && Sound(P, m) && k <= |m.trans|
    requires CanReverse(m, k) ==> ProperRun(P, m)
    ensures Reflected(P, m, k).current == Replay(P, m.initial, m.trans[..k])
  {
    hide ItemsClocked, SleepJustified, DoneExplored, StartsFirst, Fits;
    if CanReverse(m, k) {
      forall i: nat | k <= i < |m.trans|
        ensures P.Ready(Replay(P, m.initial, m.trans[..i]), m.trans[i])
      {
        assert P.enabled(StateAt(P, m, i), m.trans[i]) && P.proper(StateAt(P, m, i), m.trans[i]);
      }
      UndoAgreesWithReplay(P, m, k);
    }
  }
}
