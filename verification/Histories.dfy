/** The history of a whole search as a tree: every moment of it is the entry
    of one state, and a state lives until the search backtracks below it. */
module Histories {
  import opened ClockVectors
  import opened Programs
  import opened Chains
  import opened Machines
  import opened Obligations
  import opened Rewinding
  import opened Sleeping
  import opened Searches
  import opened Conclusions
  import opened Executions

  // ----- what is assumed ------------------------------------------------

  /** Every thread that can run is asleep. */
  ghost predicate AllAsleep<O(!new), T(!new)>(P: Program<O, T>, m: Machine<O, T>) {
    Shape(P, m) && forall p: Tid | p < |m.next| && P.enabled(m.current, m.next[p]) :: p in m.items[|m.trans|].sleep
  }

  ghost predicate EndsBranch<O, T>(moves: seq<Move<O, T>>, n: nat)
    requires n <= |moves|
  {
    n == |moves| || moves[n].Branch?
  }

  /** Branches are run to their ends, the deepest state is backtracked to
      first, and in the end none has a backtrack thread left. */
  ghost predicate Diligent<O(!new), T(!new)>(P: Program<O, T>, moves: seq<Move<O, T>>, ms: seq<Machine<O, T>>)
    requires |ms| == |moves| + 1
  {
    && (forall n: nat | n <= |moves| && EndsBranch(moves, n) :: AllAsleep(P, ms[n]))
    && (forall n: nat, l: nat | n < |moves| && moves[n].Branch? && moves[n].k < l < |ms[n].items| :: ms[n].items[l].backtrack == {})
    && NothingToBacktrackOn(ms[|moves|])
  }

  /** The run has reached the limit on transitions, or every thread that could
      be scheduled is asleep. */
  ghost predicate EndedAt<O(!new), T(!new)>(P: Program<O, T>, m: Machine<O, T>, limit: int, maxDepth: nat) {
    && Shape(P, m)
    && (|| |m.trans| - 1 >= limit
        || forall q: Tid | q < |m.next| :: m.depth[q] >= maxDepth || !P.enabled(m.current, m.next[q]) || q in m.items[|m.trans|].sleep)
  }

  ghost predicate DeepestIs<O, T>(m: Machine<O, T>, k: nat) {
    forall l: nat | k < l < |m.items| :: m.items[l].backtrack == {}
  }

  /** Every branch left was run to its end, and left for the deepest state with
      a thread to backtrack on. */
  ghost predicate Thorough<O(!new), T(!new)>(P: Program<O, T>, moves: seq<Move<O, T>>, ms: seq<Machine<O, T>>, limit: int, maxDepth: nat)
    requires |ms| == |moves| + 1
  {
    forall n: nat | n < |moves| && moves[n].Branch? :: EndedAt(P, ms[n], limit, maxDepth) && DeepestIs(ms[n], moves[n].k)
  }

  /** The machine knows what the threads it knows are about to do. */
  ghost predicate Tracks<O(!new), T(!new)>(W: World<O, T>, m: Machine<O, T>) {
    && m.initial <= W.objects
    && forall p: Tid | p < |m.next| :: m.next[p] == W.pending(m.trans, p)
  }

  /** And it knows every thread that can run. */
  ghost predicate Mirrors<O(!new), T(!new)>(W: World<O, T>, m: Machine<O, T>) {
    Tracks(W, m) && forall p: Tid | W.CanRun(m.trans, p) :: p < |m.next|
  }

  ghost predicate Tracked<O(!new), T(!new)>(W: World<O, T>, objects: seq<O>, moves: seq<Move<O, T>>, ms: seq<Machine<O, T>>) {
    && W.Lawful() && W.program.LawfulUndo() && LawfulRewind(W.program) && LawfulCalls(W.program)
    && IsSearch(W.program, objects, moves, ms)
    && forall n: nat | n < |ms| :: Tracks(W, ms[n])
  }

  /** A search of the world. */
  ghost predicate Follows<O(!new), T(!new)>(W: World<O, T>, objects: seq<O>, moves: seq<Move<O, T>>, ms: seq<Machine<O, T>>) {
    && Tracked(W, objects, moves, ms)
    && forall n: nat | n < |ms| :: Mirrors(W, ms[n])
  }

  lemma MirroredIsFollowed<O(!new), T(!new)>(W: World<O, T>, objects: seq<O>, moves: seq<Move<O, T>>, ms: seq<Machine<O, T>>)
    requires W.Lawful() && W.program.LawfulUndo() && LawfulRewind(W.program) && LawfulCalls(W.program)
    requires IsSearch(W.program, objects, moves, ms) && forall n: nat | n < |ms| :: Mirrors(W, ms[n])
    ensures Follows(W, objects, moves, ms)
  {
    hide World.Lawful, Program.LawfulUndo, LawfulRewind, LawfulCalls, IsSearch, Tracks;
    forall n: nat | n < |ms|
      ensures Tracks(W, ms[n])
    {
      assert Mirrors(W, ms[n]);
    }
  }

  /** A search of the world, run to its end. */
  ghost predicate FullSearch<O(!new), T(!new)>(W: World<O, T>, objects: seq<O>, moves: seq<Move<O, T>>, ms: seq<Machine<O, T>>) {
    Follows(W, objects, moves, ms) && Diligent(W.program, moves, ms)
  }

  // ----- the stack is an execution --------------------------------------

  lemma ObjectsMatch<O(!new), T(!new)>(W: World<O, T>, m: Machine<O, T>, k: nat, t: T)
    requires W.program.LawfulStore() && Fits(W.program, m) && m.initial <= W.objects && k <= |m.trans|
    requires W.program.fits(|m.initial|, t)
    ensures W.program.enabled(W.After(m.trans[..k]), t) == W.program.enabled(StateAt(W.program, m, k), t)
  {
    var later := W.objects[|m.initial|..];
    assert W.objects == m.initial + later;
    ReplayExtends(W.program, m.initial, later, m.trans[..k]);
  }

  /** Enabled in the machine is enabled in the world. */
  lemma EnabledMeans<O(!new), T(!new)>(W: World<O, T>, m: Machine<O, T>, p: Tid)
    requires W.program.LawfulStore() && Core(W.program, m, {}) && Sound(W.program, m) && Mirrors(W, m) && p < |m.next|
    ensures W.program.enabled(m.current, m.next[p]) <==> W.CanRun(m.trans, p)
  {
    hide ItemsClocked, SleepJustified, DoneExplored, StartsFirst, Discipline, EnabledSound;
    assert m.trans[..|m.trans|] == m.trans;
    ObjectsMatch(W, m, |m.trans|, m.next[p]);
  }

  lemma PendingAtPrefix<O(!new), T(!new)>(W: World<O, T>, m: Machine<O, T>, k: nat, q: Tid)
    requires W.Lawful() && W.Exec(m.trans) && Tracks(W, m) && k <= |m.trans| && q < |m.next|
    ensures NextAt(W.program, m, k, q) == W.pending(m.trans[..k], q)
  {
    hide World.Exec, World.After, NextAt, FirstRun;
    var P, f := W.program, FirstRun(W.program, m.trans, k, q);
    NextAtIsFirstRun(P, m, k, q);
    PendingKept(W, m.trans[..k], m.trans[k..f], q);
    assert m.trans[..k] + m.trans[k..f] == m.trans[..f];
    if f < |m.trans| {
      ExecPrefix(W, m.trans, f);
    } else {
      assert m.trans[..f] == m.trans;
    }
  }

  /** Where move n departs from. */
  ghost function Departs<O, T>(moves: seq<Move<O, T>>, ms: seq<Machine<O, T>>, n: nat): nat
    requires n < |moves| && n < |ms|
  {
    if moves[n].Run? then |ms[n].trans| else moves[n].k
  }

  /** What move n does to the stacks: thread p runs from state k. */
  ghost predicate Moves<O(!new), T(!new)>(P: Program<O, T>, m: Machine<O, T>, m': Machine<O, T>, k: nat, p: Tid, x: T) {
    && k <= |m.trans| && p < |m.next| && |m.items| == |m.trans| + 1 && P.tid(x) == p
    && m'.trans == m.trans[..k] + [x] && |m'.items| == k + 2 && x == NextAt(P, m, k, p)
    && (forall l: nat | l < k :: SameButBacktrack(m.items[l], m'.items[l]))
    && m'.items[k].sleep == m.items[k].sleep + {p}
    && m.items[k].enabled <= m'.items[k].enabled
    && m.items[k].backtrack - {p} <= m'.items[k].backtrack
    && (forall q :: q in m'.items[k + 1].sleep <==> q in m.items[k].sleep && q < |m.next| && !P.dep(NextAt(P, m, k, q), x))
    && (k == |m.trans| ==> EnabledNow(P, m) <= m'.items[k].enabled)
  }

  lemma RunMoves<O(!new), T(!new)>(P: Program<O, T>, m: Machine<O, T>, p: Tid, reply: Reply<O, T>, m': Machine<O, T>)
    requires P.LawfulRelation() && P.LawfulStore() && Core(P, m, {}) && Ran(P, m, m', p, reply)
    ensures Moves(P, m, m', |m.trans|, p, m.next[p])
  {
    hide ReplyFits, ItemsClocked, SleepJustified, DoneExplored, StartsFirst, Fits, DepthExact, IrreversibleExact, Updated;
    var s := Simulate(P, m, p, reply);
    StepKeepsCore(P, m, p, reply, {});
    TidyDoneSleep(P, s);
    UpdateGrows(P, s, m');
    assert m.trans[..|m.trans|] == m.trans;
  }

  lemma BranchMoves<O(!new), T(!new)>(P: Program<O, T>, m: Machine<O, T>, k: nat, p: Tid, reply: Reply<O, T>, m': Machine<O, T>)
    requires P.LawfulRelation() && P.LawfulStore() && Core(P, m, {}) && Branched(P, m, m', k, p, reply)
    requires m.items[|m.trans|].backtrack == {}
    ensures Moves(P, m, m', k, p, NextAt(P, m, k, p))
  {
    hide ReplyFits, ItemsClocked, SleepJustified, DoneExplored, StartsFirst, Fits, DepthExact, IrreversibleExact, Updated, Reflected;
    var c := Rewound(P, m, k, p);
    var s := Simulate(P, c, p, reply);
    PoppedIsTransparent(P, m, k, p);
    RewindKeepsCore(P, m, k, p);
    StepKeepsCore(P, c, p, reply, {p});
    TidyDoneSleep(P, s);
    UpdateGrows(P, s, m');
    assert c.trans == m.trans[..k] && |c.items| == k + 1 && |c.next| == |m.next|;
    assert c.next[p] == NextAt(P, m, k, p);
    BacktrackRunsLower(P, m, k, p);
  }

  lemma BacktrackRunsLower<O(!new), T(!new)>(P: Program<O, T>, m: Machine<O, T>, k: nat, p: Tid)
    requires Shape(P, m) && Discipline(P, m, {}) && k <= |m.trans| && p in m.items[k].backtrack && m.items[|m.trans|].backtrack == {}
    ensures k < |m.trans|
  {
  }

  lemma MoveMoves<O(!new), T(!new)>(W: World<O, T>, objects: seq<O>, moves: seq<Move<O, T>>, ms: seq<Machine<O, T>>, n: nat)
    requires Tracked(W, objects, moves, ms) && n < |moves|
    ensures |ms| == |moves| + 1 && Departs(moves, ms, n) <= |ms[n].trans| && moves[n].p < |ms[n].next|
    ensures moves[n].Branch? ==> Departs(moves, ms, n) < |ms[n].trans|
    ensures Moves(W.program, ms[n], ms[n + 1], Departs(moves, ms, n), moves[n].p, NextAt(W.program, ms[n], Departs(moves, ms, n), moves[n].p))
  {
    hide Core, Ran, Branched, Tracks, World.Lawful, Moves, LawfulRewind, LawfulCalls;
    SearchKeepsCore(W.program, objects, moves, ms, n);
    TopHasNoBacktrack(W.program, objects, moves, ms, n);
    assert Makes(W.program, ms[n], moves[n], ms[n + 1]);
    CoreHasShape(W.program, ms[n]);
    match moves[n]
    case Run(p, reply) =>
      RunMoves(W.program, ms[n], p, reply, ms[n + 1]);
      RanIsKnown(W.program, ms[n], ms[n + 1], p, reply);
    case Branch(k, p, reply) =>
      BranchMoves(W.program, ms[n], k, p, reply, ms[n + 1]);
      BranchIsBelow(W.program, ms[n], ms[n + 1], k, p, reply);
  }

  lemma CoreHasShape<O(!new), T(!new)>(P: Program<O, T>, m: Machine<O, T>)
    requires Core(P, m, {})
    ensures Shape(P, m) && Discipline(P, m, {})
  {
  }

  lemma RanIsKnown<O(!new), T(!new)>(P: Program<O, T>, m: Machine<O, T>, m': Machine<O, T>, p: Tid, reply: Reply<O, T>)
    requires Shape(P, m) && Ran(P, m, m', p, reply)
    ensures p < |m.next| && NextAt(P, m, |m.trans|, p) == m.next[p]
  {
  }

  lemma BranchIsBelow<O(!new), T(!new)>(P: Program<O, T>, m: Machine<O, T>, m': Machine<O, T>, k: nat, p: Tid, reply: Reply<O, T>)
    requires Shape(P, m) && Discipline(P, m, {}) && Branched(P, m, m', k, p, reply) && m.items[|m.trans|].backtrack == {}
    ensures k < |m.trans| && p < |m.next|
  {
    assert TidyItem(m.items[k], |m.next|, {});
  }

  /** The stack of a machine is always an execution, its calls are well
      defined, and the objects are those of it. */
  lemma {:induction false} FollowsFacts<O(!new), T(!new)>(W: World<O, T>, objects: seq<O>, moves: seq<Move<O, T>>, ms: seq<Machine<O, T>>, n: nat)
    requires Tracked(W, objects, moves, ms) && n < |ms|
    ensures W.Exec(ms[n].trans) && Sound(W.program, ms[n]) && ProperRun(W.program, ms[n])
  {
    hide Core, Sound, Makes, World.After, World.Exec, NextAt, ProperRun, CanReverse, Tracks, LawfulRewind, LawfulCalls;
    forall j: nat | j < n
      ensures ProperRun(W.program, ms[j])
    {
      FollowsFacts(W, objects, moves, ms, j);
    }
    SearchKeepsCore(W.program, objects, moves, ms, n);
    SearchIsSound(W.program, objects, moves, ms, n);
    if n == 0 {
      assert ms[0].trans == [];
      EmptyIsExec(W);
    } else {
      var m, m' := ms[n - 1], ms[n];
      FollowsFacts(W, objects, moves, ms, n - 1);
      SearchKeepsCore(W.program, objects, moves, ms, n - 1);
      MoveMoves(W, objects, moves, ms, n - 1);
      var k, p := Departs(moves, ms, n - 1), moves[n - 1].p;
      PendingAtPrefix(W, m, k, p);
      ExecPrefix(W, m.trans, k);
      TopWasEnabled(W, m');
      assert m'.trans[..k] == m.trans[..k];
      ExecRuns(W, m.trans[..k], p);
    }
    ExecIsProper(W, ms[n]);
  }

  lemma ExecIsProper<O(!new), T(!new)>(W: World<O, T>, m: Machine<O, T>)
    requires LawfulCalls(W.program) && W.program.LawfulStore() && W.Exec(m.trans) && Core(W.program, m, {}) && Tracks(W, m)
    ensures ProperRun(W.program, m)
  {
    hide World.Exec, ItemsClocked, SleepJustified, DoneExplored, StartsFirst, Discipline;
    var later := W.objects[|m.initial|..];
    assert W.objects == m.initial + later;
    forall k: nat | k < |m.trans|
      ensures W.program.proper(StateAt(W.program, m, k), m.trans[k])
    {
      ExecPrefix(W, m.trans, k);
      ReplayExtends(W.program, m.initial, later, m.trans[..k]);
      assert W.program.fits(|m.initial|, m.trans[k]);
    }
  }

  lemma SearchFacts<O(!new), T(!new)>(W: World<O, T>, objects: seq<O>, moves: seq<Move<O, T>>, ms: seq<Machine<O, T>>, n: nat)
    requires Follows(W, objects, moves, ms) && n < |ms|
    ensures |ms| == |moves| + 1 && W.Exec(ms[n].trans)
    ensures Core(W.program, ms[n], {}) && Sound(W.program, ms[n]) && Owing(W.program, ms[n]) && Mirrors(W, ms[n])
  {
    hide Core, Sound, Owing, ProperRun, LawfulRewind, CanReverse, Makes, Mirrors, World.Lawful, World.Exec, LawfulCalls;
    forall j: nat | j < n
      ensures ProperRun(W.program, ms[j])
    {
      FollowsFacts(W, objects, moves, ms, j);
    }
    FollowsFacts(W, objects, moves, ms, n);
    SearchKeepsCore(W.program, objects, moves, ms, n);
    SearchMeetsObligations(W.program, objects, moves, ms, n);
  }

  lemma EmptyIsExec<O(!new), T(!new)>(W: World<O, T>)
    ensures W.Exec([])
  {
  }

  lemma TopWasEnabled<O(!new), T(!new)>(W: World<O, T>, m: Machine<O, T>)
    requires W.program.LawfulStore() && Core(W.program, m, {}) && Sound(W.program, m) && Tracks(W, m) && m.trans != []
    ensures var k := |m.trans| - 1; W.program.enabled(W.After(m.trans[..k]), m.trans[k])
  {
    hide ItemsClocked, SleepJustified, DoneExplored, StartsFirst, Discipline;
    var k := |m.trans| - 1;
    ObjectsMatch(W, m, k, m.trans[k]);
    assert W.program.enabled(StateAt(W.program, m, k), m.trans[k]);
  }

  // ----- the life of a state --------------------------------------------

  /** The state entered at n is still on the stack at m. */
  ghost predicate Lives<O, T>(moves: seq<Move<O, T>>, ms: seq<Machine<O, T>>, n: nat, m: nat)
    requires |ms| == |moves| + 1 && n < |ms|
  {
    n <= m < |ms| && forall j: nat | n <= j < m :: Departs(moves, ms, j) >= |ms[n].trans|
  }

  /** The state entered at c was reached by one step from the one entered at n. */
  ghost predicate ChildOf<O, T>(moves: seq<Move<O, T>>, ms: seq<Machine<O, T>>, n: nat, c: nat)
    requires |ms| == |moves| + 1 && n < |ms|
  {
    n < c && Lives(moves, ms, n, c) && Departs(moves, ms, c - 1) == |ms[n].trans|
  }

  /** The step that led to c. */
  ghost function StepTo<O, T>(ms: seq<Machine<O, T>>, c: nat): T
    requires c < |ms| && ms[c].trans != []
  {
    ms[c].trans[|ms[c].trans| - 1]
  }

  ghost predicate WentTo<O(!new), T(!new)>(P: Program<O, T>, moves: seq<Move<O, T>>, ms: seq<Machine<O, T>>, n: nat, c: nat, q: Tid)
    requires |ms| == |moves| + 1 && n < |ms|
  {
    ChildOf(moves, ms, n, c) && ms[c].trans != [] && P.tid(StepTo(ms, c)) == q
  }

  /** While a state lives, its run is a prefix of the stack; it holds every
      thread that could run from it as enabled; and those asleep in it are
      those that were at first and those that ran from it. */
  lemma {:induction false} LifeFacts<O(!new), T(!new)>(W: World<O, T>, objects: seq<O>, moves: seq<Move<O, T>>, ms: seq<Machine<O, T>>, n: nat, m: nat)
    requires FullSearch(W, objects, moves, ms) && n < |ms| && |ms| == |moves| + 1 && n < m && Lives(moves, ms, n, m)
    ensures |ms[m].trans| > |ms[n].trans| && ms[n].trans <= ms[m].trans && |ms[m].items| == |ms[m].trans| + 1 && |ms[n].items| == |ms[n].trans| + 1
    ensures forall q: Tid | W.CanRun(ms[n].trans, q) :: q in ms[m].items[|ms[n].trans|].enabled
    ensures forall q :: q in ms[m].items[|ms[n].trans|].sleep <==>
              q in ms[n].items[|ms[n].trans|].sleep || exists c: nat :: c <= m && WentTo(W.program, moves, ms, n, c, q)
    decreases m
  {
    hide Core, Sound, Owing, Makes, World.After, World.Lawful, Diligent, LawfulRewind, LawfulCalls, NextAt;
    var P, k, j := W.program, |ms[n].trans|, m - 1;
    SearchFacts(W, objects, moves, ms, n);
    SearchFacts(W, objects, moves, ms, j);
    MoveMoves(W, objects, moves, ms, j);
    var d, p := Departs(moves, ms, j), moves[j].p;
    if j == n {
      assert d == k;
      assert ms[n].trans[..k] == ms[n].trans;
      forall q: Tid | W.CanRun(ms[n].trans, q)
        ensures q in ms[m].items[k].enabled
      {
        EnabledMeans(W, ms[n], q);
      }
    } else {
      LifeFacts(W, objects, moves, ms, n, j);
      assert ms[j].trans[..d][..k] == ms[n].trans;
    }
    forall q
      ensures q in ms[m].items[k].sleep <==> q in ms[n].items[k].sleep || exists c: nat :: c <= m && WentTo(P, moves, ms, n, c, q)
    {
      if d == k {
        assert WentTo(P, moves, ms, n, m, p);
      }
      if exists c: nat :: c <= m && WentTo(P, moves, ms, n, c, q) {
        var c: nat :| c <= m && WentTo(P, moves, ms, n, c, q);
        if c == m {
          assert d == k && q == p;
        } else if j == n {
          assert false;
        }
      }
    }
  }

  /** A state reached by one step: the step was its thread's pending one, and
      those asleep in the new state were asleep before, or ran earlier, and are
      independent of it. */
  lemma ChildFacts<O(!new), T(!new)>(W: World<O, T>, objects: seq<O>, moves: seq<Move<O, T>>, ms: seq<Machine<O, T>>, n: nat, c: nat)
    requires FullSearch(W, objects, moves, ms) && n < |ms| && |ms| == |moves| + 1 && ChildOf(moves, ms, n, c)
    ensures ms[c].trans != [] && ms[c].trans == ms[n].trans + [StepTo(ms, c)]
    ensures var q := W.program.tid(StepTo(ms, c));
            StepTo(ms, c) == W.pending(ms[n].trans, q) && W.CanRun(ms[n].trans, q) && WentTo(W.program, moves, ms, n, c, q)
    ensures |ms[c].items| == |ms[c].trans| + 1 && |ms[n].items| == |ms[n].trans| + 1
    ensures forall z | z in ms[c].items[|ms[c].trans|].sleep ::
              !W.program.dep(W.pending(ms[n].trans, z), StepTo(ms, c))
              && (z in ms[n].items[|ms[n].trans|].sleep || exists c0: nat :: c0 < c && WentTo(W.program, moves, ms, n, c0, z))
  {
    hide Core, Sound, Owing, Makes, World.After, World.Lawful, Diligent, LawfulRewind, LawfulCalls, NextAt, World.Exec;
    var P, k, j := W.program, |ms[n].trans|, c - 1;
    SearchFacts(W, objects, moves, ms, n);
    SearchFacts(W, objects, moves, ms, j);
    SearchFacts(W, objects, moves, ms, c);
    MoveMoves(W, objects, moves, ms, j);
    var p := moves[j].p;
    assert Lives(moves, ms, n, j);
    if j > n {
      LifeFacts(W, objects, moves, ms, n, j);
    }
    assert ms[j].trans[..k] == ms[n].trans;
    assert ms[c].trans == ms[n].trans + [StepTo(ms, c)];
    PendingAtPrefix(W, ms[j], k, p);
    TopWasEnabled(W, ms[c]);
    assert ms[c].trans[..k] == ms[n].trans;
    forall z | z in ms[c].items[k + 1].sleep
      ensures !P.dep(W.pending(ms[n].trans, z), StepTo(ms, c))
              && (z in ms[n].items[k].sleep || exists c0: nat :: c0 < c && WentTo(P, moves, ms, n, c0, z))
    {
      assert z in ms[j].items[k].sleep && z < |ms[j].next|;
      PendingAtPrefix(W, ms[j], k, z);
    }
  }

  /** A thread in the backtrack set of a living state is run from it before the
      state is left. */
  lemma {:induction false} BacktrackIsRun<O(!new), T(!new)>(W: World<O, T>, objects: seq<O>, moves: seq<Move<O, T>>, ms: seq<Machine<O, T>>,
                                                           n: nat, m: nat, q: Tid) returns (c: nat)
    requires FullSearch(W, objects, moves, ms) && n < |ms| && |ms| == |moves| + 1 && n < m && Lives(moves, ms, n, m)
    requires |ms[n].trans| < |ms[m].items| && q in ms[m].items[|ms[n].trans|].backtrack
    ensures WentTo(W.program, moves, ms, n, c, q)
    decreases |ms| - m
  {
    hide Core, Sound, Owing, Makes, World.Lawful, LawfulRewind, LawfulCalls, AllAsleep, Mirrors;
    var P, k := W.program, |ms[n].trans|;
    SearchFacts(W, objects, moves, ms, m);
    LifeFacts(W, objects, moves, ms, n, m);
    if m < |moves| {
      MoveMoves(W, objects, moves, ms, m);
      assert Departs(moves, ms, m) >= k && Lives(moves, ms, n, m + 1);
      if Departs(moves, ms, m) == k && moves[m].p == q {
        c := m + 1;
      } else {
        LifeFacts(W, objects, moves, ms, n, m + 1);
        c := BacktrackIsRun(W, objects, moves, ms, n, m + 1, q);
      }
    } else {
      assert false;
    }
  }

  /** A state from which an awake thread can run is not the end of a branch. */
  lemma AwakeMeansChild<O(!new), T(!new)>(W: World<O, T>, objects: seq<O>, moves: seq<Move<O, T>>, ms: seq<Machine<O, T>>, n: nat, f: Tid) returns (c: nat)
    requires FullSearch(W, objects, moves, ms) && n < |ms| && |ms| == |moves| + 1 && |ms[n].items| == |ms[n].trans| + 1
    requires W.CanRun(ms[n].trans, f) && f !in ms[n].items[|ms[n].trans|].sleep
    ensures ChildOf(moves, ms, n, c)
  {
    hide Core, Sound, Owing, Makes, World.Lawful, LawfulRewind, LawfulCalls;
    SearchFacts(W, objects, moves, ms, n);
    EnabledMeans(W, ms[n], f);
    assert !EndsBranch(moves, n);
    c := n + 1;
  }
}
