/** The driver: run a branch until nothing can run, take the deepest state
    with a thread left to run, rewind to it, and go on until no state has one.
    Its loops are proved to make a search in the sense of Searches.dfy, so that
    everything proved of searches holds of it, and to end. */
module Explorers {
  import opened ClockVectors
  import opened Limits
  import opened Programs
  import opened Chains
  import opened Machines
  import opened Obligations
  import opened Rewinding
  import opened Sleeping
  import opened Searches
  import opened StackItems
  import opened McStacks
  import opened Conclusions
  import opened Executions
  import opened Histories
  import opened Completeness
  import opened Targets
  import Transitions
  import Deadlocks

  // ----- termination ----------------------------------------------------

  const LEVELS: nat := TRANSITION_SLOTS + 1
  const BASE: nat := MAX_THREADS + 1

  function Power(n: nat): (r: nat)
    ensures r >= 1
  {
    if n == 0 then 1 else BASE * Power(n - 1)
  }

  function Times(a: nat, b: nat): nat {
    a * b
  }

  /** Threads not yet done at a state; all of them where there is no state. */
  ghost function Unsearched(items: seq<Item>, i: nat): (d: nat)
    ensures d <= MAX_THREADS
  {
    if i < |items| && |items[i].done| <= MAX_THREADS then MAX_THREADS - |items[i].done| else MAX_THREADS
  }

  /** The counts of unsearched threads from state i on, read as the digits of
      one number: the shallower the state, the more significant the digit. */
  ghost function Remaining(items: seq<Item>, i: nat): nat
    requires i <= LEVELS
    decreases LEVELS - i
  {
    if i == LEVELS then 0 else Times(Unsearched(items, i), Power(LEVELS - 1 - i)) + Remaining(items, i + 1)
  }

  lemma LeadingDigit(d: nat, w: nat, rest: nat)
    requires d <= MAX_THREADS && rest < w
    ensures Times(d, w) + rest < BASE * w
  {
    assert d * w <= MAX_THREADS * w;
  }

  lemma {:induction false} RemainingIsBounded(items: seq<Item>, i: nat)
    requires i <= LEVELS
    ensures Remaining(items, i) < Power(LEVELS - i)
    decreases LEVELS - i
  {
    if i < LEVELS {
      RemainingIsBounded(items, i + 1);
      LeadingDigit(Unsearched(items, i), Power(LEVELS - 1 - i), Remaining(items, i + 1));
    }
  }

  lemma SmallerDigit(a: nat, b: nat, w: nat, x: nat, y: nat)
    requires a < b && x < w
    ensures Times(a, w) + x < Times(b, w) + y
  {
    assert (a + 1) * w <= b * w;
  }

  /** One more thread done at state k, and nothing undone below it, outweighs
      whatever happens above it. */
  lemma {:induction false} DeeperIsLess(a: seq<Item>, b: seq<Item>, i: nat, k: nat)
    requires i <= k < LEVELS
    requires forall j | i <= j < k :: Unsearched(a, j) == Unsearched(b, j)
    requires Unsearched(b, k) < Unsearched(a, k)
    ensures Remaining(b, i) < Remaining(a, i)
    decreases k - i
  {
    if i == k {
      RemainingIsBounded(b, i + 1);
      SmallerDigit(Unsearched(b, i), Unsearched(a, i), Power(LEVELS - 1 - i), Remaining(b, i + 1), Remaining(a, i + 1));
    } else {
      DeeperIsLess(a, b, i + 1, k);
    }
  }

  /** At state k of m something more is done than in m0, and below it the same. */
  ghost predicate Deeper<O, T>(m0: Machine<O, T>, m: Machine<O, T>, k: nat) {
    && k < |m0.items| && k < |m.trans| && k < |m.items|
    && m0.items[k].done < m.items[k].done
    && forall i | 0 <= i < k :: m.items[i].done == m0.items[i].done
  }

  lemma DeeperLowers<O(!new), T(!new)>(P: Program<O, T>, m0: Machine<O, T>, m: Machine<O, T>, k: nat)
    requires Core(P, m0, {}) && Core(P, m, {}) && |m.next| <= MAX_THREADS && |m.trans| <= TRANSITION_SLOTS
    requires Deeper(m0, m, k)
    ensures Remaining(m.items, 0) < Remaining(m0.items, 0)
  {
    assert TidyItem(m.items[k], |m.next|, {});
    assert m.items[k].done <= ThreadIds(|m.next|);
    ThreadIdsSize(|m.next|, m.items[k].done);
    SubsetSize(m0.items[k].done, m.items[k].done);
    DeeperIsLess(m0.items, m.items, 0, k);
  }

  lemma UpdateKeepsDone<O(!new), T(!new)>(P: Program<O, T>, m: Machine<O, T>, m': Machine<O, T>)
    requires Core(P, m, {}) && m.trans != [] && Updated(P, m, m')
    ensures m'.trans == m.trans && |m'.items| == |m.items| && forall i | 0 <= i < |m.items| :: m'.items[i].done == m.items[i].done
  {
    TidyDoneSleep(P, m);
    UpdateGrows(P, m, m');
  }

  lemma RunStaysDeeper<O(!new), T(!new)>(P: Program<O, T>, m0: Machine<O, T>, m: Machine<O, T>, p: Tid, reply: Reply<O, T>, m': Machine<O, T>, k: nat)
    requires P.LawfulRelation() && P.LawfulStore() && Core(P, m, {}) && Ran(P, m, m', p, reply) && Deeper(m0, m, k)
    ensures Deeper(m0, m', k)
  {
    hide Updated, ReplyFits, Fits, SleepJustified, DoneExplored, ItemsClocked;
    StepKeepsCore(P, m, p, reply, {});
    UpdateKeepsDone(P, Simulate(P, m, p, reply), m');
  }

  lemma BranchGoesDeeper<O(!new), T(!new)>(P: Program<O, T>, m: Machine<O, T>, k: nat, p: Tid, reply: Reply<O, T>, m': Machine<O, T>)
    requires P.LawfulRelation() && P.LawfulStore() && Core(P, m, {}) && Branched(P, m, m', k, p, reply)
    ensures Deeper(m, m', k)
  {
    hide Updated, ReplyFits, Reflected, Fits, SleepJustified, DoneExplored, ItemsClocked;
    var c := Rewound(P, m, k, p);
    RewindKeepsCore(P, m, k, p);
    StepKeepsCore(P, c, p, reply, {p});
    UpdateKeepsDone(P, Simulate(P, c, p, reply), m');
    PoppedIsTransparent(P, m, k, p);
    BacktrackIsNotDone(P, m, k, p);
  }

  lemma BacktrackIsNotDone<O(!new), T(!new)>(P: Program<O, T>, m: Machine<O, T>, k: nat, p: Tid)
    requires Core(P, m, {}) && k <= |m.trans| && p in m.items[k].backtrack
    ensures 1 <= k && p !in m.items[k].done
  {
    assert TidyItem(m.items[k], |m.next|, {});
  }

  // ----- the search as a sequence of moves ------------------------------

  lemma SearchExtends<O(!new), T(!new)>(P: Program<O, T>, target: Target<O, T>, objects: seq<O>, moves: seq<Move<O, T>>, ms: seq<Machine<O, T>>,
                                        move: Move<O, T>, m: Machine<O, T>)
    requires IsDriven(P, target, objects, moves, ms) && Makes(P, ms[|ms| - 1], move, m) && Answers(P, target, ms[|ms| - 1], move)
    ensures IsDriven(P, target, objects, moves + [move], ms + [m])
  {
    hide Makes, Answers;
    var moves', ms' := moves + [move], ms + [m];
    forall i: nat | i < |moves'|
      ensures Makes(P, ms'[i], moves'[i], ms'[i + 1]) && Answers(P, target, ms'[i], moves'[i])
    {
      if i < |moves| {
        assert Makes(P, ms[i], moves[i], ms[i + 1]) && Answers(P, target, ms[i], moves[i]);
      }
    }
  }

  // ----- the driver -----------------------------------------------------

  /** What the engine assumes of a program and of its execution. */
  ghost predicate Assumed<O(!new), T(!new)>(P: Program<O, T>, target: Target<O, T>, objects: seq<O>) {
    && P.LawfulRelation() && P.LawfulStore() && LawfulTarget(P, target)
    && P.fits(|objects|, P.start(0)) && P.enabled(objects, P.start(0))
  }

  /** The stack is ready for the first step of a branch: at the start of the
      whole search, or rewound to state k for thread p. */
  ghost predicate AboutToRun<O(!new), T(!new)>(P: Program<O, T>, last: Machine<O, T>, now: Machine<O, T>, k: nat, p: Tid) {
    Shape(P, last) &&
    if k == 0 then p == 0 && now == last && P.enabled(last.current, last.next[0])
    else k <= |last.trans| && p in last.items[k].backtrack && now == Rewound(P, last, k, p)
  }

  ghost function FirstMove<O, T>(k: nat, p: Tid, reply: Reply<O, T>): Move<O, T> {
    if k == 0 then Run(p, reply) else Branch(k, p, reply)
  }

  /** Where the search stands within a branch from state k. */
  ghost predicate Stands<O(!new), T(!new)>(P: Program<O, T>, first: bool, m0: Machine<O, T>, last: Machine<O, T>, now: Machine<O, T>, k: nat, p: Tid) {
    if first then last == m0 && AboutToRun(P, m0, now, k, p)
    else Underway(m0, last, now, k)
  }

  ghost predicate Underway<O(!new), T(!new)>(m0: Machine<O, T>, last: Machine<O, T>, now: Machine<O, T>, k: nat) {
    last == now && (k > 0 ==> Deeper(m0, now, k)) && |now.trans| > 0
  }

  /** Releasing the thread there is what the search records. */
  lemma ReleasedAnswers<O(!new), T(!new)>(P: Program<O, T>, target: Target<O, T>, first: bool, m0: Machine<O, T>, last: Machine<O, T>, now: Machine<O, T>,
                                          k: nat, p: Tid, reply: Reply<O, T>)
    requires Shape(P, last) && Stands(P, first, m0, last, now, k, p) && Released(target, now, p, reply)
    ensures Answers(P, target, last, if first then FirstMove(k, p, reply) else Run(p, reply))
  {
    hide NextAt, Shape, Deeper, Reflected;
    if first && k > 0 {
      PoppedIsTransparent(P, last, k, p);
    } else {
      assert last.trans[..|last.trans|] == last.trans;
      NextAtTop(P, last, p);
    }
  }

  /** Every transition there refers to known objects. */
  lemma StandsFits<O(!new), T(!new)>(P: Program<O, T>, objects: seq<O>, moves: seq<Move<O, T>>, ms: seq<Machine<O, T>>, first: bool,
                                     m0: Machine<O, T>, now: Machine<O, T>, k: nat, p: Tid)
    requires IsSearch(P, objects, moves, ms) && Stands(P, first, m0, ms[|ms| - 1], now, k, p)
    ensures Fits(P, now)
  {
    hide IsSearch, ItemsClocked, SleepJustified, DoneExplored, StartsFirst, DepthExact, IrreversibleExact, Deeper, Reflected;
    SearchLaws(P, objects, moves, ms);
    var last := ms[|ms| - 1];
    SearchKeepsCore(P, objects, moves, ms, |ms| - 1);
    if first && k > 0 {
      BranchPointIsKnown(P, last, k, p);
      RewindKeepsCore(P, last, k, p);
    }
  }

  /** Taking a step from there. */
  lemma Advances<O(!new), T(!new)>(P: Program<O, T>, target: Target<O, T>, objects: seq<O>, moves: seq<Move<O, T>>, ms: seq<Machine<O, T>>,
                                   first: bool, m0: Machine<O, T>, now: Machine<O, T>, k: nat, p: Tid, reply: Reply<O, T>, m': Machine<O, T>)
      returns (move: Move<O, T>)
    requires IsDriven(P, target, objects, moves, ms) && m0 in ms
    requires Shape(P, now) && Stands(P, first, m0, ms[|ms| - 1], now, k, p)
    requires p < |now.next| && ReplyFits(P, now, p, reply) && Released(target, now, p, reply)
    requires !first ==> P.enabled(now.current, now.next[p])
    requires Shape(P, Simulate(P, now, p, reply)) && Updated(P, Simulate(P, now, p, reply), m')
    ensures IsDriven(P, target, objects, moves + [move], ms + [m'])
    ensures Underway(m0, m', m', k)
    ensures move.Branch? ==> first && k > 0 && move.k == k
  {
    hide IsSearch, Answered, Answers, Released, Updated, ReplyFits, Reflected, Core, Simulate, Deeper, Program.LawfulRelation, Program.LawfulStore;
    var last := ms[|ms| - 1];
    move := if first then FirstMove(k, p, reply) else Run(p, reply);
    SearchKeepsCore(P, objects, moves, ms, |ms| - 1);
    CoreIsShaped(P, last, {});
    ReleasedAnswers(P, target, first, m0, last, now, k, p, reply);
    assert Makes(P, last, move, m');
    SearchExtends(P, target, objects, moves, ms, move, m');
    SearchLaws(P, objects, moves, ms);
    StepLeavesTrace(P, now, p, reply, m');
    if first && k > 0 {
      BranchGoesDeeper(P, last, k, p, reply, m');
    } else if k > 0 {
      RunStaysDeeper(P, m0, now, p, reply, m', k);
    }
  }

  lemma StepLeavesTrace<O(!new), T(!new)>(P: Program<O, T>, m: Machine<O, T>, p: Tid, reply: Reply<O, T>, m': Machine<O, T>)
    requires Shape(P, m) && p < |m.next| && Shape(P, Simulate(P, m, p, reply)) && Updated(P, Simulate(P, m, p, reply), m')
    ensures |m'.trans| > 0
  {
  }

  /** A state with a backtrack thread: never state 0, and the thread is known. */
  lemma BranchPointIsKnown<O(!new), T(!new)>(P: Program<O, T>, m: Machine<O, T>, k: nat, p: Tid)
    requires Core(P, m, {}) && k <= |m.trans| && p in m.items[k].backtrack
    ensures 1 <= k && p < |m.next|
    ensures |Rewound(P, m, k, p).next| == |m.next|
  {
    assert TidyItem(m.items[k], |m.next|, {});
    PoppedIsTransparent(P, m, k, p);
  }

  /** The measure of a search that has reached its last machine from an
      earlier one. */
  lemma SearchLowers<O(!new), T(!new)>(P: Program<O, T>, objects: seq<O>, moves: seq<Move<O, T>>, ms: seq<Machine<O, T>>, m0: Machine<O, T>, k: nat)
    requires IsSearch(P, objects, moves, ms) && Core(P, m0, {})
    requires Deeper(m0, ms[|ms| - 1], k) && |ms[|ms| - 1].next| <= MAX_THREADS && |ms[|ms| - 1].trans| <= TRANSITION_SLOTS
    ensures Remaining(ms[|ms| - 1].items, 0) < Remaining(m0.items, 0)
  {
    SearchKeepsCore(P, objects, moves, ms, |ms| - 1);
    DeeperLowers(P, m0, ms[|ms| - 1], k);
  }

  /** Lets thread p run to its next visible operation, and takes the step in
      the model. */
  method RunToNextVisibleOperation<O(!new), T(!new)>(stack: McStack<O, T>, target: Target<O, T>, p: Tid) returns (ghost reply: Reply<O, T>)
    requires stack.Valid() && stack.program.LawfulRelation() && stack.program.LawfulStore() && LawfulTarget(stack.program, target)
    requires p < stack.nextThreadId && stack.transitionStackTop + 1 < TRANSITION_SLOTS && Fits(stack.program, stack.View())
    modifies stack, stack.transitionStack, stack.nextTransitions, stack.threadData, stack.irreversibleStatesStack, stack.stateStack
    ensures stack.Valid() && ReplyFits(stack.program, old(stack.View()), p, reply) && Released(target, old(stack.View()), p, reply)
    ensures stack.View() == Simulate(stack.program, old(stack.View()), p, reply)
    ensures stack.transitionStackTop == old(stack.transitionStackTop) + 1 && stack.nextThreadId >= old(stack.nextThreadId)
    ensures forall i | 0 <= i < |stack.stateStack| :: stack.stateStack[i] in old(stack.stateStack) || fresh(stack.stateStack[i])
  {
    hide McStack.Wf, McStack.View, Shape, Tame, Simulate, Program.LawfulStore, Program.LawfulRelation;
    ghost var m := stack.View();
    stack.Sizes();
    stack.RunInView();
    stack.ViewAt(p);
    var run := stack.transitionStack[..stack.transitionStackTop + 1];
    var t := stack.nextTransitions[p];
    var answer := target(run, stack.nextThreadId, |stack.initialObjects|, t);
    reply := answer;
    assert stack.program.fits(|stack.initialObjects|, t) by { assert m.next[p] == t; }
    assert LawfulReply(stack.program, stack.nextThreadId, |stack.initialObjects|, t, answer);
    stack.SimulateRunningTransition(p, answer);
    stack.Sizes();
    SimulateOnlyAddsThreads(stack.program, m, p, answer);
  }

  lemma SimulateOnlyAddsThreads<O(!new), T(!new)>(P: Program<O, T>, m: Machine<O, T>, p: Tid, reply: Reply<O, T>)
    requires Shape(P, m) && p < |m.next|
    ensures |Simulate(P, m, p, reply).next| == |m.next| + reply.newThreads
  {
  }

  lemma ThoroughGrows<O(!new), T(!new)>(P: Program<O, T>, moves: seq<Move<O, T>>, ms: seq<Machine<O, T>>, limit: int, maxDepth: nat, move: Move<O, T>, m: Machine<O, T>)
    requires |ms| == |moves| + 1 && Thorough(P, moves, ms, limit, maxDepth)
    requires move.Branch? ==> EndedAt(P, ms[|moves|], limit, maxDepth) && DeepestIs(ms[|moves|], move.k)
    ensures Thorough(P, moves + [move], ms + [m], limit, maxDepth)
  {
    hide EndedAt, DeepestIs;
    var moves', ms' := moves + [move], ms + [m];
    forall n: nat | n < |moves'| && moves'[n].Branch?
      ensures EndedAt(P, ms'[n], limit, maxDepth) && DeepestIs(ms'[n], moves'[n].k)
    {
      assert ms'[n] == ms[n];
      if n < |moves| {
        assert moves[n].Branch?;
      }
    }
  }

  class Explorer<O(!new), T(!new)> {
    const stack: McStack<O, T>
    const target: Target<O, T>
    ghost const objects: seq<O>
    ghost var moves: seq<Move<O, T>>
    ghost var machines: seq<Machine<O, T>>

    /** The branches so far are a search that ends in the present stack. */
    ghost predicate Searched()
      reads this, stack, stack.transitionStack, stack.nextTransitions, stack.threadData, stack.irreversibleStatesStack, stack.stateStack
    {
      && stack.Valid() && Assumed(stack.program, target, objects)
      && IsDriven(stack.program, target, objects, moves, machines) && machines[|machines| - 1] == stack.View()
    }

    constructor (program: Program<O, T>, target: Target<O, T>, maxThreadDepth: nat, maxTransitions: int, objects: seq<O>)
      requires Assumed(program, target, objects)
      ensures Searched() && stack.program == program && moves == []
      ensures fresh(stack) && fresh(stack.transitionStack) && fresh(stack.nextTransitions) && fresh(stack.threadData)
      ensures fresh(stack.irreversibleStatesStack) && forall i | 0 <= i < |stack.stateStack| :: fresh(stack.stateStack[i])
    {
      hide Program.LawfulStore, LawfulTarget, Start;
      stack := new McStack(program, maxThreadDepth, maxTransitions, objects);
      this.target, this.objects := target, objects;
      moves, machines := [], [Start(program, objects)];
    }

    /** The greatest top index a run can reach: the first step of all is taken
        whatever the limit. */
    function GreatestTop(): int {
      if stack.maxTotalTransitionsDepthLimit < 0 then 0 else stack.maxTotalTransitionsDepthLimit
    }

    ghost predicate WithinLimit()
      reads stack
    {
      stack.transitionStackTop <= GreatestTop()
    }

    /** The limit on transitions is reached, or every thread that could be
        scheduled is asleep. */
    ghost predicate BranchHasEnded()
      reads stack, stack.threadData, stack.nextTransitions, stack.stateStack
    {
      && 0 < |stack.stateStack| && stack.nextThreadId <= stack.nextTransitions.Length && stack.nextThreadId <= stack.threadData.Length
      && (|| stack.transitionStackTop >= stack.maxTotalTransitionsDepthLimit
          || forall q: Tid | q < stack.nextThreadId ::
               !stack.TransitionIsEnabled(q) || q in stack.stateStack[|stack.stateStack| - 1].sleepSet)
    }

    /** Branches so far were run to their ends, and left for the deepest state
        that has a thread to backtrack on. */
    ghost predicate WasThorough()
      reads this, stack
    {
      && |machines| == |moves| + 1
      && Thorough(stack.program, moves, machines, stack.maxTotalTransitionsDepthLimit, stack.maxThreadExecutionDepth)
    }

    ghost predicate LastHasEnded()
      reads this, stack
    {
      |machines| > 0 && EndedAt(stack.program, machines[|machines| - 1], stack.maxTotalTransitionsDepthLimit, stack.maxThreadExecutionDepth)
    }

    lemma EndIsInView()
      requires stack.Valid() && BranchHasEnded()
      ensures EndedAt(stack.program, stack.View(), stack.maxTotalTransitionsDepthLimit, stack.maxThreadExecutionDepth)
    {
      var m := stack.View();
      var n := |stack.stateStack| - 1;
      assert m.items[n] == stack.stateStack[n].View();
      if stack.transitionStackTop < stack.maxTotalTransitionsDepthLimit {
        forall q: Tid | q < |m.next|
          ensures m.depth[q] >= stack.maxThreadExecutionDepth || !stack.program.enabled(m.current, m.next[q]) || q in m.items[|m.trans|].sleep
        {
          assert !stack.TransitionIsEnabled(q) || q in stack.stateStack[n].sleepSet;
        }
      }
    }

    lemma DeepestIsInView(j: nat)
      requires stack.Valid() && DeepestBranchPoint(j)
      ensures DeepestIs(stack.View(), j)
    {
      var m := stack.View();
      forall l: nat | j < l < |m.items|
        ensures m.items[l].backtrack == {}
      {
        assert m.items[l] == stack.stateStack[l].View();
      }
    }

    /** Lets thread p run to its next visible operation, and takes the step in
        the model. */
    method RunThread(p: Tid) returns (ghost reply: Reply<O, T>)
      requires stack.Valid() && Assumed(stack.program, target, objects)
      requires p < stack.nextThreadId && stack.transitionStackTop + 1 < TRANSITION_SLOTS && Fits(stack.program, stack.View())
      modifies stack, stack.transitionStack, stack.nextTransitions, stack.threadData, stack.irreversibleStatesStack, stack.stateStack
      ensures stack.Valid() && ReplyFits(stack.program, old(stack.View()), p, reply) && Released(target, old(stack.View()), p, reply)
      ensures Shape(stack.program, Simulate(stack.program, old(stack.View()), p, reply))
      ensures Updated(stack.program, Simulate(stack.program, old(stack.View()), p, reply), stack.View())
      ensures stack.transitionStackTop == old(stack.transitionStackTop) + 1
      ensures stack.nextThreadId <= stack.nextTransitions.Length && stack.nextThreadId <= stack.threadData.Length
      ensures forall i | 0 <= i < |stack.stateStack| :: stack.stateStack[i] in old(stack.stateStack) || fresh(stack.stateStack[i])
    {
      hide McStack.Wf, McStack.View, Shape, Tame, Simulate, Updated, LawfulTarget, Released, Fits, Program.LawfulStore, Program.LawfulRelation;
      stack.Sizes();
      reply := RunToNextVisibleOperation(stack, target, p);
      stack.DynamicallyUpdateBacktrackSets();
      stack.Sizes();
    }

    /** Runs a thread, and records the move. */
    method TakeStep(p: Tid, ghost first: bool, ghost m0: Machine<O, T>, ghost k: nat)
      requires stack.Valid() && Assumed(stack.program, target, objects)
      requires p < stack.nextThreadId && stack.transitionStackTop + 1 < TRANSITION_SLOTS
      requires stack.nextThreadId <= stack.nextTransitions.Length && stack.nextThreadId <= stack.threadData.Length
      requires !first ==> stack.TransitionIsEnabled(p)
      requires IsDriven(stack.program, target, objects, moves, machines) && |machines| == |moves| + 1 && m0 in machines
      requires Stands(stack.program, first, m0, machines[|machines| - 1], stack.View(), k, p)
      requires WasThorough() && (first && k > 0 ==> LastHasEnded() && DeepestIs(machines[|machines| - 1], k))
      modifies this`moves, this`machines, stack, stack.transitionStack, stack.nextTransitions, stack.threadData, stack.irreversibleStatesStack, stack.stateStack
      ensures stack.Valid() && IsDriven(stack.program, target, objects, moves, machines)
      ensures |moves| == old(|moves|) + 1 && |machines| == |moves| + 1 && m0 in machines && WasThorough()
      ensures Underway(m0, machines[|machines| - 1], stack.View(), k)
      ensures stack.transitionStackTop == old(stack.transitionStackTop) + 1 < TRANSITION_SLOTS
      ensures stack.nextThreadId <= stack.nextTransitions.Length && stack.nextThreadId <= stack.threadData.Length
      ensures forall i | 0 <= i < |stack.stateStack| :: stack.stateStack[i] in old(stack.stateStack) || fresh(stack.stateStack[i])
    {
      hide McStack.Wf, McStack.View, Shape, Tame, Simulate, Updated, Deeper, IsSearch, Answered, Released, Fits, Thorough, EndedAt, DeepestIs, Program.LawfulStore, Program.LawfulRelation;
      stack.Sizes();
      stack.ViewAt(p);
      ghost var now := stack.View();
      StandsFits(stack.program, objects, moves, machines, first, m0, now, k, p);
      ghost var reply := RunThread(p);
      ghost var m' := stack.View();
      ghost var move := Advances(stack.program, target, objects, moves, machines, first, m0, now, k, p, reply, m');
      ThoroughGrows(stack.program, moves, machines, stack.maxTotalTransitionsDepthLimit, stack.maxThreadExecutionDepth, move, m');
      moves, machines := moves + [move], machines + [m'];
    }

    /** The next thread of a branch; none where the branch has ended. */
    method NextThread() returns (more: bool, next: Tid)
      requires stack.Valid()
      ensures stack.nextThreadId <= stack.nextTransitions.Length && stack.nextThreadId <= stack.threadData.Length
      ensures more ==> next < stack.nextThreadId && stack.TransitionIsEnabled(next) && stack.transitionStackTop < stack.maxTotalTransitionsDepthLimit
      ensures !more ==> BranchHasEnded()
      ensures !more ==> EndedAt(stack.program, stack.View(), stack.maxTotalTransitionsDepthLimit, stack.maxThreadExecutionDepth)
    {
      hide McStack.Wf, McStack.View, Shape, Tame, EndedAt;
      more, next := stack.GetFirstEnabledTransition();
      stack.Sizes();
      if !more {
        EndIsInView();
      }
    }

    /** Runs a branch to its end, starting with thread p. Stops the whole
        search when the transition stack is full. */
    method SearchDporBranchWithThread(p: Tid, ghost k: nat) returns (stopped: bool)
      requires stack.Valid() && Assumed(stack.program, target, objects) && p < stack.nextThreadId
      requires IsDriven(stack.program, target, objects, moves, machines)
      requires AboutToRun(stack.program, machines[|machines| - 1], stack.View(), k, p)
      requires WasThorough() && (k > 0 ==> LastHasEnded() && DeepestIs(machines[|machines| - 1], k))
      modifies this`moves, this`machines, stack, stack.transitionStack, stack.nextTransitions, stack.threadData, stack.irreversibleStatesStack, stack.stateStack
      ensures stack.Valid() && IsDriven(stack.program, target, objects, moves, machines)
      ensures !stopped ==> Searched() && |moves| > old(|moves|) && WasThorough() && LastHasEnded()
      ensures stack.maxTotalTransitionsDepthLimit < TRANSITION_SLOTS && old(stack.transitionStackTop) + 1 < TRANSITION_SLOTS ==> !stopped
      ensures !stopped ==> BranchHasEnded()
      ensures !stopped && old(stack.transitionStackTop) < GreatestTop() ==> WithinLimit()
      ensures !stopped && k > 0 ==> Deeper(old(machines[|machines| - 1]), stack.View(), k)
      ensures forall i | 0 <= i < |stack.stateStack| :: stack.stateStack[i] in old(stack.stateStack) || fresh(stack.stateStack[i])
    {
      hide McStack.Wf, McStack.View, Shape, Tame, Simulate, Updated, Deeper, IsSearch, Assumed, AboutToRun, Thorough, EndedAt, DeepestIs, Program.LawfulStore, Program.LawfulRelation;
      SearchLaws(stack.program, objects, moves, machines);
      ghost var m0, first := machines[|machines| - 1], true;
      stack.Sizes();
      ghost var within := stack.transitionStackTop < GreatestTop();
      var depth := stack.transitionStackTop + 1;
      var next: Tid := p;
      var more := true;
      while more
        invariant stack.Valid() && Assumed(stack.program, target, objects)
        invariant 0 <= depth == stack.transitionStackTop + 1 <= TRANSITION_SLOTS
        invariant IsDriven(stack.program, target, objects, moves, machines) && |machines| == |moves| + 1 && m0 in machines
        invariant Stands(stack.program, first, m0, machines[|machines| - 1], stack.View(), k, next)
        invariant first ==> more && |moves| == old(|moves|)
        invariant !first ==> |moves| > old(|moves|)
        invariant stack.nextThreadId <= stack.nextTransitions.Length && stack.nextThreadId <= stack.threadData.Length
        invariant more ==> next < stack.nextThreadId
        invariant more && !first ==> stack.TransitionIsEnabled(next) && stack.transitionStackTop < stack.maxTotalTransitionsDepthLimit
        invariant !more ==> BranchHasEnded() && LastHasEnded()
        invariant WasThorough() && (first && k > 0 ==> LastHasEnded() && DeepestIs(machines[|machines| - 1], k))
        invariant !first && within ==> WithinLimit()
        invariant first ==> stack.transitionStackTop == old(stack.transitionStackTop)
        invariant forall i | 0 <= i < |stack.stateStack| :: stack.stateStack[i] in old(stack.stateStack) || fresh(stack.stateStack[i])
        decreases TRANSITION_SLOTS - depth, more
      {
        if depth >= TRANSITION_SLOTS {
          return true;
        }
        depth := depth + 1;
        TakeStep(next, first, m0, k);
        first := false;
        more, next := NextThread();
      }
      return false;
    }

    /** One branch: the first one, or the one that starts with the least thread
        of the backtrack set of a state. Returns the deepest state that still
        has one. */
    method ExploreBranch(curBranchPoint: int) returns (next: int, stopped: bool)
      requires Searched()
      requires WasThorough() && (curBranchPoint != FIRST_BRANCH ==> WithinLimit() && LastHasEnded())
      requires if curBranchPoint == FIRST_BRANCH then moves == [] else DeepestBranchPoint(curBranchPoint)
      modifies this`moves, this`machines, stack, stack.transitionStack, stack.nextTransitions, stack.threadData, stack.irreversibleStatesStack, stack.stateStack
      ensures !stopped ==> Searched() && |moves| > old(|moves|) && WasThorough() && LastHasEnded()
      ensures stack.maxTotalTransitionsDepthLimit < TRANSITION_SLOTS ==> !stopped
      ensures !stopped ==> BranchHasEnded() && WithinLimit()
      ensures !stopped && curBranchPoint != FIRST_BRANCH ==> Remaining(stack.View().items, 0) < Remaining(old(stack.View()).items, 0)
      ensures !stopped ==> DeepestBranchPoint(next)
      ensures forall i | 0 <= i < |stack.stateStack| :: stack.stateStack[i] in old(stack.stateStack) || fresh(stack.stateStack[i])
    {
      hide McStack.Wf, McStack.View, Shape, Tame, Simulate, Updated, Deeper, IsSearch, Reflected, Core, Remaining, Thorough, EndedAt, DeepestIs, Program.LawfulStore, Program.LawfulRelation;
      ghost var m0, k := stack.View(), 0;
      stack.Sizes();
      SearchLaws(stack.program, objects, moves, machines);
      SearchKeepsCore(stack.program, objects, moves, machines, |machines| - 1);
      var backtrackThread: Tid := 0;
      if curBranchPoint == FIRST_BRANCH {
        StartIsReady(objects);
      } else {
        k := curBranchPoint;
        DeepestIsInView(k);
        backtrackThread := stack.PopThreadToBacktrackOnAt(curBranchPoint);
        BranchPointIsKnown(stack.program, m0, k, backtrackThread);
        TopHasNoBacktrack(stack.program, objects, moves, machines, |machines| - 1);
        stack.ReflectStateAtTransitionIndex(curBranchPoint - 1);
        stack.Sizes();
      }
      stopped := SearchDporBranchWithThread(backtrackThread, k);
      next := FIRST_BRANCH;
      if !stopped {
        next := stack.GetDeepestDPORBranchPoint();
        stack.Sizes();
        if k > 0 {
          SearchLowers(stack.program, objects, moves, machines, m0, k);
        }
      }
    }

    lemma NothingDoneYet()
      requires Searched() && moves == []
      ensures WasThorough()
    {
    }

    /** Every branch was run to its end, and none is left. */
    ghost predicate HasFinished()
      reads this, stack
    {
      WasThorough() && LastHasEnded() && NothingToBacktrackOn(machines[|moves|])
    }

    /** A finished search that no limit cut short has visited the end of every
        execution of the traced program, which is the process that the answers
        of the target describe. */
    lemma MissesNothing(all: seq<O>, w: seq<T>)
      requires Searched() && HasFinished()
      requires Unlimited(moves, machines, stack.maxTotalTransitionsDepthLimit, stack.maxThreadExecutionDepth)
      requires Truthful(stack.program, target, all) && objects <= all
      requires Traced(stack.program, target, all).Lawful() && stack.program.LawfulUndo() && LawfulRewind(stack.program) && LawfulCalls(stack.program)
      requires var W := Traced(stack.program, target, all); W.Exec(w) && Maximal(W, w)
      ensures exists m: nat :: Visited(Traced(stack.program, target, all), machines, w, m)
    {
      hide World.Exec, World.After, World.Lawful, LawfulRewind, LawfulCalls, Mirrors, Thorough, EndedAt, Unlimited, Diligent, Visited, IsSearch, Answered, Truthful, Program.LawfulUndo;
      ThoroughIsDiligent(stack.program, moves, machines, stack.maxTotalTransitionsDepthLimit, stack.maxThreadExecutionDepth);
      AnsweredIsFollowed(stack.program, target, all, objects, moves, machines);
      EveryEndIsVisited(Traced(stack.program, target, all), objects, moves, machines, w);
    }

    lemma NothingIsLeft()
      requires Searched() && forall i | 0 <= i < |stack.stateStack| :: stack.stateStack[i].backtrackSet == {}
      ensures |machines| == |moves| + 1 && NothingToBacktrackOn(machines[|moves|])
      ensures stack.program.LawfulExchange() && UndoesWell(stack.program, moves, machines, |moves|) ==>
                Exhausted(stack.program, stack.View())
    {
      hide McStack.Wf, IsSearch, Exhausted, UndoesWell, Program.LawfulExchange;
      SearchLaws(stack.program, objects, moves, machines);
      stack.Sizes();
      var m := stack.View();
      forall i | 0 <= i < |m.items|
        ensures m.items[i].backtrack == {}
      {
        assert m.items[i] == stack.stateStack[i].View();
      }
      assert NothingToBacktrackOn(m);
      if stack.program.LawfulExchange() && UndoesWell(stack.program, moves, machines, |moves|) {
        FinishedSearchIsExhausted(stack.program, objects, moves, machines);
      }
    }

    lemma StartIsReady(objects: seq<O>)
      requires Searched() && moves == [] && objects == this.objects
      ensures AboutToRun(stack.program, machines[|machines| - 1], stack.View(), 0, 0) && stack.nextThreadId > 0
      ensures stack.transitionStackTop == -1
    {
    }

    ghost predicate DeepestBranchPoint(j: int)
      reads stack, stack.stateStack
    {
      && (j == FIRST_BRANCH || (0 <= j < |stack.stateStack| && stack.stateStack[j].backtrackSet != {}))
      && (forall i | 0 <= i < |stack.stateStack| && j < i :: stack.stateStack[i].backtrackSet == {})
    }

    /** The whole search. It ends; and unless a run outgrew the transition
        stack, it ends as a search with no thread left to backtrack on. Below
        the limit of 1500 transitions no run outgrows it. */
    method DoModelChecking() returns (complete: bool)
      requires Searched() && moves == []
      modifies this`moves, this`machines, stack, stack.transitionStack, stack.nextTransitions, stack.threadData, stack.irreversibleStatesStack, stack.stateStack
      ensures stack.maxTotalTransitionsDepthLimit < TRANSITION_SLOTS ==> complete
      ensures complete ==> Searched() && moves != [] && BranchHasEnded() && WithinLimit() && HasFinished()
      ensures complete && stack.program.LawfulExchange() && UndoesWell(stack.program, moves, machines, |moves|) ==>
                Exhausted(stack.program, stack.View())
      ensures complete ==> forall i | 0 <= i < |stack.stateStack| :: stack.stateStack[i].backtrackSet == {}
    {
      hide McStack.Wf, McStack.View, Shape, Tame, IsSearch, Remaining, Assumed, Exhausted, UndoesWell, Thorough, EndedAt, Program.LawfulExchange;
      NothingDoneYet();
      var nextBranchPoint, stopped := ExploreBranch(FIRST_BRANCH);
      if stopped {
        return false;
      }
      while nextBranchPoint != FIRST_BRANCH
        invariant Searched() && moves != [] && BranchHasEnded() && WithinLimit() && WasThorough() && LastHasEnded()
        invariant DeepestBranchPoint(nextBranchPoint)
        invariant forall i | 0 <= i < |stack.stateStack| :: stack.stateStack[i] in old(stack.stateStack) || fresh(stack.stateStack[i])
        decreases Remaining(stack.View().items, 0)
      {
        nextBranchPoint, stopped := ExploreBranch(nextBranchPoint);
        if stopped {
          return false;
        }
        nextBranchPoint := stack.GetDeepestDPORBranchPoint();
      }
      NothingIsLeft();
      return true;
    }
  }

  /** For programs of mutexes, threads and global variables: the driver finds
      every deadlock, told by the steps of the execution alone. */
  lemma FindsEveryDeadlock(explorer: Explorer<Transitions.Object, Transitions.Transition>, home: Transitions.Home, all: seq<Transitions.Object>,
                           w: seq<Transitions.Transition>)
    requires explorer.Searched() && explorer.HasFinished()
    requires Unlimited(explorer.moves, explorer.machines, explorer.stack.maxTotalTransitionsDepthLimit, explorer.stack.maxThreadExecutionDepth)
    requires Transitions.Injective(home) && explorer.stack.program == Transitions.TheProgram(home)
    requires Deadlocks.Traceable(home, explorer.target, all) && explorer.objects <= all
    requires var W := Traced(Transitions.TheProgram(home), explorer.target, all);
             W.Exec(w) && Deadlocks.WellTyped(home, W, w) && Deadlocks.Deadlocked(home, W, w)
    ensures var W := Traced(Transitions.TheProgram(home), explorer.target, all);
            exists m: nat :: Visited(W, explorer.machines, w, m) && Deadlocks.Deadlocked(home, W, explorer.machines[m].trans)
  {
    hide World.Exec, Thorough, EndedAt, Unlimited, Diligent, Visited, IsSearch, Answered, Deadlocks.Traceable, Deadlocks.WellTyped, Deadlocks.Deadlocked, McStack.Wf, McStack.View;
    ThoroughIsDiligent(explorer.stack.program, explorer.moves, explorer.machines, explorer.stack.maxTotalTransitionsDepthLimit, explorer.stack.maxThreadExecutionDepth);
    Deadlocks.AnsweredSearchFindsDeadlocks(home, explorer.target, all, explorer.objects, explorer.moves, explorer.machines, w);
  }
}
