/** The engine's stack: the in-place form of the machine of Machines.dfy. Every
    method is proved to do to the fields exactly what the machine's operation
    does to the value View(). */
module McStacks {
  import opened ClockVectors
  import opened Limits
  import opened Programs
  import opened Chains
  import opened Machines
  import opened Obligations
  import opened StackItems
  import opened Rewinding
  import opened Sleeping

  const FIRST_BRANCH: int := -1

  datatype ThreadData = ThreadData(executionDepth: int, clockVector: ClockVector)

  ghost function ItemViews(s: seq<StackItem>): (r: seq<Item>)
    reads s
    ensures |r| == |s| && forall i | 0 <= i < |s| :: r[i] == s[i].View()
  {
    seq(|s|, i requires 0 <= i < |s| reads s => s[i].View())
  }

  ghost function ClocksOf(a: seq<ThreadData>): (r: seq<ClockVector>)
    ensures |r| == |a| && forall p | 0 <= p < |r| :: r[p] == a[p].clockVector
  {
    seq(|a|, p requires 0 <= p < |a| => a[p].clockVector)
  }

  ghost function DepthsOf(a: seq<ThreadData>): (r: seq<int>)
    ensures |r| == |a| && forall p | 0 <= p < |r| :: r[p] == a[p].executionDepth
  {
    seq(|a|, p requires 0 <= p < |a| => a[p].executionDepth)
  }

  lemma {:induction false} ItemViewsAre(s: seq<StackItem>, items: seq<Item>)
    requires |s| == |items| && forall i | 0 <= i < |s| :: s[i].View() == items[i]
    ensures ItemViews(s) == items
  {
  }

  lemma ThreadUpdated(a: seq<ThreadData>, n: nat, p: Tid, d: ThreadData)
    requires p < n <= |a|
    ensures ClocksOf(a[p := d][..n]) == ClocksOf(a[..n])[p := d.clockVector]
    ensures DepthsOf(a[p := d][..n]) == DepthsOf(a[..n])[p := d.executionDepth]
  {
    assert a[p := d][..n] == a[..n][p := d];
  }

  lemma ThreadsJoin(a: seq<ThreadData>, n: nat, count: nat)
    requires n + count <= |a| && forall q | n <= q < |a| :: a[q] == ThreadData(0, map[])
    ensures ClocksOf(a[..n + count]) == ClocksOf(a[..n]) + seq(count, _ => map[])
    ensures DepthsOf(a[..n + count]) == DepthsOf(a[..n]) + seq(count, _ => 0)
  {
  }

  /** Sleeping threads are known, and the irreversible states are in order. */
  ghost predicate Tame<O, T>(m: Machine<O, T>) {
    && (forall i | 0 <= i < |m.items| :: Known(m.items[i].sleep, |m.next|))
    && Ascending(m.irreversible)
    && (forall i | 0 <= i < |m.irreversible| :: m.irreversible[i] <= |m.trans|)
  }

  ghost function EnabledIn<O(!new), T(!new)>(P: Program<O, T>, objects: seq<O>, next: seq<T>): set<Tid> {
    set q: Tid | 0 <= q < |next| && P.enabled(objects, next[q])
  }

  ghost function AwakeAfter<O(!new), T(!new)>(P: Program<O, T>, asleep: set<Tid>, next: seq<T>, t: T): set<Tid> {
    set q: Tid | q in asleep && q < |next| && !P.dep(next[q], t)
  }

  /** The departing state and the state it leads to. */
  ghost function ItemsGrown(items: seq<Item>, enabled: set<Tid>, runner: Tid, cv: ClockVector, asleep: set<Tid>): (r: seq<Item>)
    requires items != []
    ensures |r| == |items| + 1
  {
    var n := |items| - 1;
    items[..n] + [Departed(items[n], enabled, runner), EmptyItem(cv).(sleep := asleep)]
  }

  /** The stacks have grown; the thread has not run. */
  ghost function StacksGrown<O(!new), T(!new)>(P: Program<O, T>, m: Machine<O, T>, p: Tid): Machine<O, T>
    requires Shape(P, m) && p < |m.next|
  {
    var t, n := m.next[p], |m.trans|;
    var clock := NextClock(P, m.trans, ItemClocks(m.items), t);
    m.(trans := m.trans + [t],
       items := ItemsGrown(m.items, EnabledIn(P, m.current, m.next), p, clock, AwakeAfter(P, m.items[n].sleep, m.next, t)),
       threadClock := m.threadClock[p := clock],
       irreversible := if P.reversible(t) then m.irreversible else m.irreversible + [n + 1],
       explored := m.explored + [(m.trans, t)])
  }

  /** The thread has run and reported its next transition. */
  ghost function Fetched<O(!new), T(!new)>(P: Program<O, T>, m: Machine<O, T>, t: T, reply: Reply<O, T>): Machine<O, T>
    requires P.tid(t) < |m.next| == |m.depth|
  {
    var p := P.tid(t);
    m.(next := m.next[p := reply.next] + Starts(P, |m.next|, reply.newThreads),
       threadClock := m.threadClock + seq(reply.newThreads, _ => map[]),
       depth := m.depth[p := if P.counts(t) then m.depth[p] + 1 else m.depth[p]] + seq(reply.newThreads, _ => 0),
       initial := m.initial + reply.objects,
       current := P.apply(m.current, t) + reply.objects)
  }

  lemma SimulateIsBoth<O(!new), T(!new)>(P: Program<O, T>, m: Machine<O, T>, p: Tid, reply: Reply<O, T>)
    requires Shape(P, m) && p < |m.next|
    ensures Fetched(P, StacksGrown(P, m, p), m.next[p], reply) == Simulate(P, m, p, reply)
  {
    hide NextClock, ItemClocks;
    assert AwakeAfter(P, m.items[|m.trans|].sleep, m.next, m.next[p]) == Inherited(P, m, m.next[p]);
    assert EnabledIn(P, m.current, m.next) == EnabledNow(P, m);
  }

  lemma SimulateKeepsTame<O(!new), T(!new)>(P: Program<O, T>, m: Machine<O, T>, p: Tid, reply: Reply<O, T>)
    requires Shape(P, m) && Tame(m) && p < |m.next| && P.tid(reply.next) == p && P.LawfulRelation()
    ensures Shape(P, Simulate(P, m, p, reply)) && Tame(Simulate(P, m, p, reply))
  {
    hide NextClock, ItemClocks;
    var s := Simulate(P, m, p, reply);
    forall i | 0 <= i < |s.items|
      ensures Known(s.items[i].sleep, |s.next|)
    {
      assert i < |m.trans| ==> s.items[i] == m.items[i];
    }
  }

  lemma ReplayedThread<O(!new), T(!new)>(P: Program<O, T>, m: Machine<O, T>, k: nat, p: Tid)
    requires Shape(P, m) && k < |m.trans| && p < |m.next|
    ensures var ran := P.tid(m.trans[k]) == p;
            && Count(P, m.trans[..k + 1], p) == Count(P, m.trans[..k], p) + (if ran && P.counts(m.trans[k]) then 1 else 0)
            && ReplayedClocks(P, m, k + 1)[p] == if ran then m.items[k + 1].clock else ReplayedClocks(P, m, k)[p]
  {
    assert m.trans[..k + 1] == m.trans[..k] + [m.trans[k]];
    assert m.trans[..k + 1][..k] == m.trans[..k];
    LastRunAfter(P, m.trans[..k], m.trans[k], p);
  }

  lemma UndoneThread<O(!new), T(!new)>(P: Program<O, T>, m: Machine<O, T>, k: nat, p: Tid)
    requires Shape(P, m) && k < |m.trans| && p < |m.next|
    ensures var ran := P.tid(m.trans[k]) == p;
            && Count(P, m.trans[..k + 1], p) == Count(P, m.trans[..k], p) + (if ran && P.counts(m.trans[k]) then 1 else 0)
            && UndoneClocks(P, m, k)[p] == if ran then m.items[k + 1].clock else UndoneClocks(P, m, k + 1)[p]
  {
    assert m.trans[..k + 1][..k] == m.trans[..k];
  }

  lemma ReplayNothing<O(!new), T(!new)>(P: Program<O, T>, s: seq<O>, run: seq<T>)
    requires run == []
    ensures Replay(P, s, run) == s
  {
  }

  lemma UndoNone<O(!new), T(!new)>(P: Program<O, T>, s: seq<O>, run: seq<T>, k: nat)
    requires k == |run|
    ensures Undo(P, s, run, k) == s
  {
  }

  lemma UndoLast<O(!new), T(!new)>(P: Program<O, T>, s: seq<O>, run: seq<T>, i: nat, k: nat)
    requires k <= i < |run|
    ensures Undo(P, s, run[..i + 1], k) == Undo(P, P.unapply(s, run[i]), run[..i], k)
  {
    assert run[..i + 1][..i] == run[..i];
  }

  method NewBuffer<X>(n: nat, x: X) returns (a: array<X>)
    ensures fresh(a) && a.Length == n && forall i | 0 <= i < n :: a[i] == x
  {
    a := new X[n](_ => x);
  }

  class McStack<O(!new), T(!new)> {
    const program: Program<O, T>
    const maxThreadExecutionDepth: nat
    const maxTotalTransitionsDepthLimit: int

    const transitionStack: array<T>
    var transitionStackTop: int
    var stateStack: seq<StackItem>

    var nextThreadId: nat
    const nextTransitions: array<T>
    const threadData: array<ThreadData>

    const irreversibleStatesStack: SortedStack

    var initialObjects: seq<O>
    var currentObjects: seq<O>

    ghost var explored: seq<(seq<T>, T)>

    /** The buffers have their sizes and overlap nowhere. */
    ghost predicate Wf()
      reads this, threadData
    {
      && transitionStack.Length == TRANSITION_SLOTS
      && nextTransitions.Length == MAX_THREADS && threadData.Length == MAX_THREADS
      && transitionStack != nextTransitions
      && transitionStack as object != threadData && nextTransitions as object != threadData
      && -1 <= transitionStackTop < TRANSITION_SLOTS
      && |stateStack| >= 1
      && (forall i, j | 0 <= i < j < |stateStack| :: stateStack[i] != stateStack[j])
      && nextThreadId <= MAX_THREADS
      && (forall p: nat | nextThreadId <= p < MAX_THREADS :: threadData[p] == ThreadData(0, map[]))
    }

    ghost function View(): Machine<O, T>
      requires Wf()
      reads this, transitionStack, nextTransitions, threadData, irreversibleStatesStack, stateStack
    {
      Machine(
        transitionStack[..transitionStackTop + 1],
        ItemViews(stateStack),
        nextTransitions[..nextThreadId],
        ClocksOf(threadData[..nextThreadId]),
        DepthsOf(threadData[..nextThreadId]),
        irreversibleStatesStack.contents,
        initialObjects,
        currentObjects,
        explored)
    }

    ghost predicate Valid()
      reads this, transitionStack, nextTransitions, threadData, irreversibleStatesStack, stateStack
    {
      Wf() && Shape(program, View()) && Tame(View())
    }

    constructor (program: Program<O, T>, maxThreadDepth: nat, maxTransitions: int, objects: seq<O>)
      requires program.LawfulRelation()
      ensures Valid() && |stateStack| == 1
      ensures fresh(transitionStack) && fresh(nextTransitions) && fresh(threadData)
      ensures fresh(irreversibleStatesStack) && fresh(stateStack[0])
      ensures this.program == program
      ensures maxThreadExecutionDepth == maxThreadDepth && maxTotalTransitionsDepthLimit == maxTransitions
      ensures View() == Start(program, objects)
    {
      hide Shape, Program.LawfulRelation;
      var transitions := NewBuffer(TRANSITION_SLOTS, program.start(0));
      var next := NewBuffer(MAX_THREADS, program.start(0));
      var threads := NewBuffer(MAX_THREADS, ThreadData(0, map[]));
      this.program := program;
      maxThreadExecutionDepth, maxTotalTransitionsDepthLimit := maxThreadDepth, maxTransitions;
      transitionStack, nextTransitions, threadData := transitions, next, threads;
      irreversibleStatesStack := new SortedStack();
      var first := new StackItem(map[]);
      transitionStackTop, stateStack, nextThreadId := -1, [first], 1;
      initialObjects, currentObjects, explored := objects, objects, [];
      new;
      StartsAt(objects);
    }

    lemma StartsAt(objects: seq<O>)
      requires program.LawfulRelation() && Wf()
      requires transitionStackTop == -1 && |stateStack| == 1 && stateStack[0].View() == EmptyItem(map[])
      requires nextThreadId == 1 && nextTransitions[0] == program.start(0) && threadData[0] == ThreadData(0, map[])
      requires irreversibleStatesStack.contents == []
      requires initialObjects == currentObjects == objects && explored == []
      ensures Valid() && View() == Start(program, objects)
    {
      hide ItemViews;
      ItemViewsAre(stateStack, [EmptyItem(map[])]);
      assert nextTransitions[..1] == [program.start(0)];
      assert ClocksOf(threadData[..1]) == [map[]];
      assert DepthsOf(threadData[..1]) == [0];
      assert View() == Start(program, objects);
      StartHasShape(program, objects);
    }

    lemma Sizes()
      requires Valid()
      ensures transitionStack.Length == TRANSITION_SLOTS && -1 <= transitionStackTop < TRANSITION_SLOTS
      ensures nextThreadId <= nextTransitions.Length == threadData.Length == MAX_THREADS
      ensures |stateStack| == transitionStackTop + 2
      ensures |View().trans| == transitionStackTop + 1 && |View().items| == |stateStack|
      ensures |View().next| == nextThreadId && |View().initial| == |initialObjects|
    {
    }

    lemma RunInView()
      requires Valid()
      ensures transitionStackTop + 1 <= transitionStack.Length && View().trans == transitionStack[..transitionStackTop + 1]
    {
    }

    lemma ViewAt(p: Tid)
      requires Valid() && p < nextThreadId
      ensures p < |View().next| && p < nextTransitions.Length
      ensures View().next[p] == nextTransitions[p] && program.tid(nextTransitions[p]) == p && currentObjects == View().current
    {
    }

    // ----- queries ------------------------------------------------------

    predicate HappensBeforeThread(i: nat, p: Tid)
      requires i < transitionStack.Length && p < threadData.Length
      reads this, transitionStack, threadData
    {
      i <= ValueFor(threadData[p].clockVector, program.tid(transitionStack[i]))
    }

    /** m has this stack's transitions, pending transitions and clocks. */
    ghost predicate Agrees(m: Machine<O, T>)
      requires Wf()
      reads this, transitionStack, nextTransitions, threadData
    {
      && m.trans == transitionStack[..transitionStackTop + 1]
      && m.next == nextTransitions[..nextThreadId]
      && m.threadClock == ClocksOf(threadData[..nextThreadId])
    }

    method ThreadsRaceAfterDepth(depth: nat, q: Tid, p: Tid, ghost m: Machine<O, T>) returns (race: bool)
      requires Wf() && Agrees(m) && p < nextThreadId
      ensures race <==> RacesAfter(program, m, depth, q, p)
    {
      var j := depth + 1;
      while j < transitionStackTop + 1
        invariant depth + 1 <= j
        invariant forall k: nat | depth < k < j && k < |m.trans| :: !(program.tid(m.trans[k]) == q && BeforeThread(program, m, k, p))
      {
        if q == program.tid(transitionStack[j]) && HappensBeforeThread(j, p) {
          assert program.tid(m.trans[j]) == q && BeforeThread(program, m, j, p);
          return true;
        }
        j := j + 1;
      }
      return false;
    }

    method GetCurrentlyEnabledThreads() returns (enabled: set<Tid>)
      requires Wf()
      ensures enabled == EnabledIn(program, currentObjects, nextTransitions[..nextThreadId])
    {
      enabled := {};
      for i := 0 to nextThreadId
        invariant enabled == set p: Tid | 0 <= p < i && program.enabled(currentObjects, nextTransitions[..nextThreadId][p])
      {
        if program.enabled(currentObjects, nextTransitions[i]) {
          enabled := enabled + {i};
        }
      }
    }

    /** The maximum over the transitions below the top of the state stack; the
        transition stack may already hold one more. */
    method TransitionStackMaxClockVector(t: T) returns (cv: ClockVector)
      requires Wf() && |stateStack| <= transitionStackTop + 2
      ensures cv == MaxClock(program, transitionStack[..|stateStack| - 1], ItemClocks(ItemViews(stateStack)), t)
    {
      ghost var clocks := ItemClocks(ItemViews(stateStack));
      cv := map[];
      for i := 1 to |stateStack|
        invariant cv == MaxClock(program, transitionStack[..i - 1], clocks, t)
      {
        assert transitionStack[..i][..i - 1] == transitionStack[..i - 1];
        if program.dep(transitionStack[i - 1], t) {
          cv := Max(stateStack[i].clockVector, cv);
        }
      }
    }

    /** Whether a thread may be scheduled: within its depth limit and not
        blocked. */
    predicate TransitionIsEnabled(p: Tid)
      requires p < threadData.Length && p < nextTransitions.Length
      reads this, threadData, nextTransitions
    {
      threadData[p].executionDepth < maxThreadExecutionDepth && program.enabled(currentObjects, nextTransitions[p])
    }

    /** The least schedulable thread that is awake at the top state; none once
        the limit on transitions is reached. */
    method GetFirstEnabledTransition() returns (found: bool, p: Tid)
      requires Valid()
      ensures found ==> p < nextThreadId && TransitionIsEnabled(p) && p !in stateStack[|stateStack| - 1].sleepSet
                        && transitionStackTop < maxTotalTransitionsDepthLimit
                        && forall q: Tid | q < p :: !TransitionIsEnabled(q) || q in stateStack[|stateStack| - 1].sleepSet
      ensures !found && transitionStackTop < maxTotalTransitionsDepthLimit ==>
                forall q: Tid | q < nextThreadId :: !TransitionIsEnabled(q) || q in stateStack[|stateStack| - 1].sleepSet
    {
      if transitionStackTop >= maxTotalTransitionsDepthLimit {
        return false, 0;
      }
      for i := 0 to nextThreadId
        invariant forall q: Tid | q < i :: !TransitionIsEnabled(q) || q in stateStack[|stateStack| - 1].sleepSet
      {
        var asleep := stateStack[|stateStack| - 1].ThreadIsInSleepSet(i);
        if TransitionIsEnabled(i) && !asleep {
          return true, i;
        }
      }
      return false, 0;
    }

    method GetDeepestDPORBranchPoint() returns (j: int)
      requires Valid()
      ensures j == FIRST_BRANCH || 0 <= j < |stateStack|
      ensures j != FIRST_BRANCH ==> stateStack[j].backtrackSet != {}
      ensures forall i | j < i < |stateStack| :: stateStack[i].backtrackSet == {}
    {
      j := |stateStack| - 1;
      while j >= 0
        invariant -1 <= j < |stateStack|
        invariant forall i | j < i < |stateStack| :: stateStack[i].backtrackSet == {}
      {
        if stateStack[j].HasThreadsToBacktrackOn() {
          return;
        }
        j := j - 1;
      }
    }

    // ----- running one transition ---------------------------------------

    method GrowTransitionStackRunning(t: T)
      requires Wf() && transitionStackTop + 1 < TRANSITION_SLOTS
      modifies this`transitionStackTop, transitionStack
      ensures Wf() && transitionStackTop == old(transitionStackTop) + 1
      ensures transitionStack[..transitionStackTop + 1] == old(transitionStack[..transitionStackTop + 1]) + [t]
    {
      transitionStackTop := transitionStackTop + 1;
      transitionStack[transitionStackTop] := t;
    }

    /** Threads asleep in the departing state stay asleep if their pending
        transition does not depend on the one being run. */
    method InheritSleepSet(asleep: set<Tid>, t: T, newTop: StackItem)
      requires Wf() && Known(asleep, nextThreadId)
      modifies newTop`sleepSet
      ensures newTop.sleepSet == old(newTop.sleepSet) + AwakeAfter(program, asleep, nextTransitions[..nextThreadId], t)
    {
      var rest := asleep;
      while rest != {}
        invariant rest <= asleep
        invariant newTop.sleepSet == old(newTop.sleepSet)
                                     + AwakeAfter(program, asleep - rest, nextTransitions[..nextThreadId], t)
        decreases rest
      {
        var q :| q in rest;
        if !program.dep(nextTransitions[q], t) {
          newTop.AddThreadToSleepSet(q);
        }
        rest := rest - {q};
      }
    }

    /** Pushes the state the transition leads to. */
    method GrowStateStackWith(cv: ClockVector)
      requires Wf()
      modifies this`stateStack
      ensures Wf() && |stateStack| == old(|stateStack|) + 1
      ensures stateStack[..|stateStack| - 1] == old(stateStack)
      ensures fresh(stateStack[|stateStack| - 1]) && stateStack[|stateStack| - 1].View() == EmptyItem(cv)
    {
      var newTop := new StackItem(cv);
      stateStack := stateStack + [newTop];
    }

    /** Caches the enabled threads of the departing state and marks the runner
        as asleep and searched. */
    method DepartFrom(item: StackItem, enabled: set<Tid>, runner: Tid)
      modifies item
      ensures item.View() == Departed(old(item.View()), enabled, runner)
    {
      item.MarkThreadsEnabledInState(enabled);
      item.AddThreadToSleepSet(runner);
      item.MarkBacktrackThreadSearched(runner);
    }

    /** The transition stack has grown already, the state stack not yet. */
    method GrowStateStackRunningTransition(t: T)
      requires Wf() && 0 <= transitionStackTop == |stateStack| - 1
      requires program.tid(t) < nextThreadId
      requires Known(ItemViews(stateStack)[transitionStackTop].sleep, nextThreadId)
      requires forall i | 0 <= i < |irreversibleStatesStack.contents| :: irreversibleStatesStack.contents[i] <= transitionStackTop
      modifies this`stateStack, threadData, irreversibleStatesStack, stateStack[transitionStackTop]
      ensures Wf() && |stateStack| == transitionStackTop + 2
      ensures stateStack[..transitionStackTop + 1] == old(stateStack) && fresh(stateStack[transitionStackTop + 1])
      ensures ItemViews(stateStack)
              == ItemsGrown(old(ItemViews(stateStack)), EnabledIn(program, currentObjects, nextTransitions[..nextThreadId]), program.tid(t),
                       NextClockOf(t, old(ItemViews(stateStack))),
                       AwakeAfter(program, old(ItemViews(stateStack)[transitionStackTop].sleep), nextTransitions[..nextThreadId], t))
      ensures ClocksOf(threadData[..nextThreadId]) == old(ClocksOf(threadData[..nextThreadId]))[program.tid(t) := NextClockOf(t, old(ItemViews(stateStack)))]
      ensures DepthsOf(threadData[..nextThreadId]) == old(DepthsOf(threadData[..nextThreadId]))
      ensures irreversibleStatesStack.contents
              == if program.reversible(t) then old(irreversibleStatesStack.contents) else old(irreversibleStatesStack.contents) + [transitionStackTop + 1]
    {
      hide MaxClock, ItemClocks, ItemViews, ItemsGrown, EnabledIn, AwakeAfter, ClocksOf, DepthsOf;
      var p := program.tid(t);
      ghost var items := ItemViews(stateStack);
      var enabled := GetCurrentlyEnabledThreads();
      var cv := TransitionStackMaxClockVector(t);
      cv := cv[p := transitionStackTop];
      assert cv == NextClockOf(t, items);
      BranchOff(t, cv, enabled);
      RecordRun(t, cv);
    }

    method RecordRun(t: T, cv: ClockVector)
      requires Wf() && program.tid(t) < nextThreadId
      requires forall i | 0 <= i < |irreversibleStatesStack.contents| :: irreversibleStatesStack.contents[i] < |stateStack|
      modifies threadData, irreversibleStatesStack
      ensures Wf() && ClocksOf(threadData[..nextThreadId]) == old(ClocksOf(threadData[..nextThreadId]))[program.tid(t) := cv]
      ensures DepthsOf(threadData[..nextThreadId]) == old(DepthsOf(threadData[..nextThreadId]))
      ensures irreversibleStatesStack.contents
              == if program.reversible(t) then old(irreversibleStatesStack.contents) else old(irreversibleStatesStack.contents) + [|stateStack| - 1]
    {
      SetClockVector(program.tid(t), cv);
      if !program.reversible(t) {
        var ok := irreversibleStatesStack.Push(|stateStack| - 1);
      }
    }

    method SetClockVector(p: Tid, cv: ClockVector)
      requires Wf() && p < nextThreadId
      modifies threadData
      ensures Wf() && ClocksOf(threadData[..nextThreadId]) == old(ClocksOf(threadData[..nextThreadId]))[p := cv]
      ensures DepthsOf(threadData[..nextThreadId]) == old(DepthsOf(threadData[..nextThreadId]))
    {
      threadData[p] := threadData[p].(clockVector := cv);
    }

    /** Pushes the new state, hands the sleep set down to it, and closes the
        departing one. */
    method BranchOff(t: T, cv: ClockVector, enabled: set<Tid>)
      requires Wf()
      requires Known(ItemViews(stateStack)[|stateStack| - 1].sleep, nextThreadId)
      modifies this`stateStack, stateStack[|stateStack| - 1]
      ensures Wf() && |stateStack| == old(|stateStack|) + 1
      ensures stateStack[..|stateStack| - 1] == old(stateStack) && fresh(stateStack[|stateStack| - 1])
      ensures ItemViews(stateStack)
              == ItemsGrown(old(ItemViews(stateStack)), enabled, program.tid(t), cv,
                       AwakeAfter(program, old(ItemViews(stateStack)[|stateStack| - 1].sleep), nextTransitions[..nextThreadId], t))
    {
      hide ItemViews, AwakeAfter, Departed;
      ghost var items, n := ItemViews(stateStack), |stateStack| - 1;
      var oldTop := stateStack[|stateStack| - 1];
      ghost var below := stateStack[..n];
      assert oldTop.View() == items[n];
      GrowStateStackWith(cv);
      var newTop := stateStack[|stateStack| - 1];
      assert stateStack == below + [oldTop, newTop];
      InheritSleepSet(oldTop.sleepSet, t, newTop);
      ghost var born := newTop.View();
      assert born == EmptyItem(cv).(sleep := AwakeAfter(program, items[n].sleep, nextTransitions[..nextThreadId], t)) by {
        assert EmptyItem(cv).sleep == {};
      }
      DepartFrom(oldTop, enabled, program.tid(t));
      assert newTop.View() == born;
      assert forall i: nat | i < n :: below[i].View() == items[i];
      ItemViewsAre(stateStack, items[..n] + [Departed(items[n], enabled, program.tid(t)), born]);
    }

    ghost function NextClockOf(t: T, items: seq<Item>): ClockVector
      requires 1 <= |items| <= transitionStack.Length
      reads this, transitionStack
    {
      NextClock(program, transitionStack[..|items| - 1], ItemClocks(items), t)
    }

    /** Applies the transition to the live objects and counts it. */
    method VirtuallyRunTransition(t: T)
      requires Wf() && program.LawfulStore() && program.tid(t) < nextThreadId
      modifies this`currentObjects, threadData
      ensures Wf() && currentObjects == program.apply(old(currentObjects), t)
      ensures threadData[..] == if program.counts(t)
              then old(threadData[..])[program.tid(t) := old(threadData[program.tid(t)]).(executionDepth := old(threadData[program.tid(t)].executionDepth) + 1)]
              else old(threadData[..])
    {
      currentObjects := program.apply(currentObjects, t);
      var p := program.tid(t);
      if program.counts(t) {
        threadData[p] := threadData[p].(executionDepth := threadData[p].executionDepth + 1);
      }
    }

    /** Registers the objects and threads the trace reported for the first
        time, then the next transition of the thread that ran. */
    method SetNextTransitionForThread(p: Tid, reply: Reply<O, T>)
      requires Wf() && p < nextThreadId && nextThreadId + reply.newThreads <= MAX_THREADS
      modifies this`initialObjects, this`currentObjects, this`nextThreadId, nextTransitions
      ensures Wf() && nextThreadId == old(nextThreadId) + reply.newThreads
      ensures initialObjects == old(initialObjects) + reply.objects && currentObjects == old(currentObjects) + reply.objects
      ensures nextTransitions[..nextThreadId]
              == old(nextTransitions[..nextThreadId])[p := reply.next] + Starts(program, old(nextThreadId), reply.newThreads)
    {
      initialObjects := initialObjects + reply.objects;
      currentObjects := currentObjects + reply.objects;
      ghost var known := nextThreadId;
      for i := 0 to reply.newThreads
        invariant Wf() && nextThreadId == known + i
        invariant initialObjects == old(initialObjects) + reply.objects && currentObjects == old(currentObjects) + reply.objects
        invariant nextTransitions[..known] == old(nextTransitions[..nextThreadId])
        invariant forall q | known <= q < nextThreadId :: nextTransitions[q] == program.start(q)
      {
        nextTransitions[nextThreadId] := program.start(nextThreadId);
        nextThreadId := nextThreadId + 1;
      }
      nextTransitions[p] := reply.next;
    }

    /** Applies the transition and takes in what the thread reported. */
    method RunAndFetch(t: T, reply: Reply<O, T>)
      requires Wf() && program.LawfulStore() && program.tid(t) < nextThreadId
      requires nextThreadId + reply.newThreads <= MAX_THREADS
      modifies this`initialObjects, this`currentObjects, this`nextThreadId, nextTransitions, threadData
      ensures Wf() && View() == Fetched(program, old(View()), t, reply)
    {
      hide ItemViews, Program.LawfulStore, ClocksOf, DepthsOf;
      ghost var m := View();
      VirtuallyRunTransition(t);
      assert forall n: nat | n <= MAX_THREADS :: threadData[..][..n] == threadData[..n];
      ThreadUpdated(old(threadData[..]), |m.next|, program.tid(t), threadData[program.tid(t)]);
      SetNextTransitionForThread(program.tid(t), reply);
      ThreadsJoin(threadData[..], |m.next|, reply.newThreads);
      assert transitionStack[..transitionStackTop + 1] == m.trans;
    }

    method GrowStacksRunning(p: Tid)
      requires Valid() && p < nextThreadId && transitionStackTop + 1 < TRANSITION_SLOTS
      modifies this`explored, this`transitionStackTop, this`stateStack
      modifies transitionStack, threadData, irreversibleStatesStack, stateStack[|stateStack| - 1]
      ensures Wf() && View() == StacksGrown(program, old(View()), p)
      ensures |stateStack| == old(|stateStack|) + 1
      ensures stateStack[..|stateStack| - 1] == old(stateStack) && fresh(stateStack[|stateStack| - 1])
    {
      hide ItemViews, NextClock, ItemClocks, MaxClock, EnabledIn, AwakeAfter, ItemsGrown, ClocksOf, DepthsOf, StacksGrown;
      ghost var m := View();
      var t := nextTransitions[p];
      assert t == m.next[p] && program.tid(t) == p;
      ghost var cv := NextClock(program, m.trans, ItemClocks(m.items), t);
      explored := explored + [(m.trans, t)];
      GrowTransitionStackRunning(t);
      assert transitionStack[..|m.trans|] == transitionStack[..|m.trans| + 1][..|m.trans|] == m.trans;
      assert NextClockOf(t, m.items) == cv;
      GrowStateStackRunningTransition(t);
      assert nextTransitions[..nextThreadId] == m.next;
      GrownTo(m, p, cv);
    }

    lemma GrownTo(m: Machine<O, T>, p: Tid, cv: ClockVector)
      requires Wf() && Shape(program, m) && p < |m.next|
      requires cv == NextClock(program, m.trans, ItemClocks(m.items), m.next[p])
      requires transitionStack[..transitionStackTop + 1] == m.trans + [m.next[p]]
      requires ItemViews(stateStack) == ItemsGrown(m.items, EnabledIn(program, m.current, m.next), p, cv,
                                              AwakeAfter(program, m.items[|m.trans|].sleep, m.next, m.next[p]))
      requires ClocksOf(threadData[..nextThreadId]) == m.threadClock[p := cv] && DepthsOf(threadData[..nextThreadId]) == m.depth
      requires irreversibleStatesStack.contents == if program.reversible(m.next[p]) then m.irreversible else m.irreversible + [|m.trans| + 1]
      requires nextTransitions[..nextThreadId] == m.next && initialObjects == m.initial && currentObjects == m.current
      requires explored == m.explored + [(m.trans, m.next[p])]
      ensures View() == StacksGrown(program, m, p)
    {
      hide ItemViews, NextClock, ItemClocks, EnabledIn, AwakeAfter, ItemsGrown, ClocksOf, DepthsOf;
    }

    method SimulateRunningTransition(p: Tid, reply: Reply<O, T>)
      requires Valid() && program.LawfulRelation() && program.LawfulStore()
      requires p < nextThreadId && transitionStackTop + 1 < TRANSITION_SLOTS
      requires program.tid(reply.next) == p && nextThreadId + reply.newThreads <= MAX_THREADS
      modifies this, transitionStack, nextTransitions, threadData, irreversibleStatesStack, stateStack[|stateStack| - 1]
      ensures Valid() && View() == Simulate(program, old(View()), p, reply)
      ensures transitionStackTop == old(transitionStackTop) + 1
      ensures |stateStack| == old(|stateStack|) + 1
      ensures stateStack[..|stateStack| - 1] == old(stateStack) && fresh(stateStack[|stateStack| - 1])
    {
      hide ItemViews, StacksGrown, Simulate, Tame, Program.LawfulStore, Program.LawfulRelation;
      ghost var m := View();
      var t := nextTransitions[p];
      assert t == m.next[p] && program.tid(t) == p;
      GrowStacksRunning(p);
      RunAndFetch(t, reply);
      SimulateIsBoth(program, m, p, reply);
      SimulateKeepsTame(program, m, p, reply);
    }

    // ----- backtrack points ---------------------------------------------

    /** Looks for a backtrack point for thread p at the state before
        transition i. */
    method DynamicallyUpdateBacktrackSetsHelper(preSi: StackItem, i: nat, p: Tid, ghost m: Machine<O, T>) returns (shouldProcess: bool)
      requires Wf() && Agrees(m) && i <= transitionStackTop && p < nextThreadId
      modifies preSi`backtrackSet
      ensures Wf() && Agrees(m)
      ensures shouldProcess == ShouldProcess(program, m, i, p)
      ensures Processed(program, m, i, p, old(preSi.View()), preSi.View())
      ensures !shouldProcess ==> preSi.View() == old(preSi.View())
      ensures preSi.doneSet <= preSi.sleepSet ==>
                if Demands(program, m, i, p, old(preSi.View())) then Served(Candidates(program, m, old(preSi.View()), i, p), old(preSi.View()), preSi.View())
                else preSi.View().backtrack == old(preSi.View()).backtrack
    {
      shouldProcess := program.dep(transitionStack[i], nextTransitions[p])
                       && program.coen(transitionStack[i], nextTransitions[p])
                       && !HappensBeforeThread(i, p);
      assert shouldProcess == ShouldProcess(program, m, i, p);
      if shouldProcess {
        var E := CandidatesAt(preSi, i, p, m);
        if E == {} {
          AddEveryAwakeThread(preSi);
        } else {
          var rest := E;
          while rest != {}
            invariant rest <= E && (E - rest) * preSi.backtrackSet == {}
            decreases rest
          {
            var q :| q in rest;
            if q in preSi.backtrackSet {
              assert q in E * preSi.backtrackSet;
              return;
            }
            rest := rest - {q};
          }
          assert E - rest == E;
          var q :| q in E;
          preSi.AddBacktrackingThreadIfUnsearched(q);
        }
      }
    }

    method CandidatesAt(preSi: StackItem, i: nat, p: Tid, ghost m: Machine<O, T>) returns (E: set<Tid>)
      requires Wf() && Agrees(m) && i <= transitionStackTop && p < nextThreadId
      ensures E == Candidates(program, m, preSi.View(), i, p)
    {
      E := {};
      var rest := preSi.enabledThreads;
      while rest != {}
        invariant rest <= preSi.enabledThreads
        invariant E == Candidates(program, m, preSi.View(), i, p) - rest
        decreases rest
      {
        var q :| q in rest;
        var race := ThreadsRaceAfterDepth(i, q, p, m);
        var asleep := preSi.ThreadIsInSleepSet(q);
        if (q == p || race) && !asleep {
          E := E + {q};
        }
        rest := rest - {q};
      }
    }

    method AddEveryAwakeThread(preSi: StackItem)
      modifies preSi`backtrackSet
      ensures preSi.backtrackSet == old(preSi.backtrackSet) + (preSi.enabledThreads - preSi.sleepSet - preSi.doneSet)
    {
      var rest := preSi.enabledThreads;
      while rest != {}
        invariant rest <= preSi.enabledThreads
        invariant preSi.backtrackSet == old(preSi.backtrackSet) + (preSi.enabledThreads - rest - preSi.sleepSet - preSi.doneSet)
        decreases rest
      {
        var q :| q in rest;
        var asleep := preSi.ThreadIsInSleepSet(q);
        if !asleep {
          preSi.AddBacktrackingThreadIfUnsearched(q);
        }
        rest := rest - {q};
      }
    }

    /** The threads that did not run, against the top transition. */
    method UpdateForOthers(s_n: StackItem, ghost m: Machine<O, T>)
      requires Wf() && Agrees(m) && Shape(program, m) && m.trans != []
      modifies s_n`backtrackSet
      ensures Wf() && Agrees(m)
      ensures exists order :: (
          && Lists(order, Others(program, m))
          && ProcessedAll(program, m, transitionStackTop, order, old(s_n.View()), s_n.View()))
    {
      hide Processed;
      var n := transitionStackTop;
      var runner := program.tid(transitionStack[n]);
      var threads := ThreadIds(nextThreadId) - {runner};
      assert threads == Others(program, m);
      ghost var item := s_n.View();
      var rest := threads;
      ghost var order: seq<Tid> := [];
      while rest != {}
        invariant Wf() && Agrees(m) && rest <= threads
        invariant Lists(order, threads - rest)
        invariant forall p | p in order :: p < |m.next|
        invariant ProcessedAll(program, m, n, order, item, s_n.View())
        decreases rest
      {
        var p :| p in rest;
        ghost var before := s_n.View();
        var _ := DynamicallyUpdateBacktrackSetsHelper(s_n, n, p, m);
        assert (order + [p])[..|order|] == order;
        order := order + [p];
        rest := rest - {p};
      }
      assert threads - rest == threads;
    }

    lemma LastConflictIs(m: Machine<O, T>, p: Tid, n: nat, i: int)
      requires n <= |m.trans| && p < |m.next| == |m.threadClock| && -1 <= i < n
      requires i >= 0 ==> ShouldProcess(program, m, i, p)
      requires forall k: nat | i < k < n :: !ShouldProcess(program, m, k, p)
      ensures LastConflict(program, m, p, n) == i
    {
    }

    /** The thread that ran, against everything below the top. */
    method UpdateForRunner(runner: Tid, ghost m: Machine<O, T>)
      requires Wf() && Agrees(m) && Shape(program, m) && m.trans != [] && |stateStack| == transitionStackTop + 2
      requires runner < nextThreadId
      modifies this.stateStack`backtrackSet
      ensures Wf() && Agrees(m)
      ensures var i := LastConflict(program, m, runner, |m.trans| - 1);
              var a, b := old(ItemViews(stateStack)), ItemViews(stateStack);
              && (i >= 0 ==> Processed(program, m, i, runner, a[i], b[i]))
              && (forall k: nat | k < |stateStack| && k != i :: b[k] == a[k])
              && (forall k: nat | k < |stateStack| :: b[k].sleep == a[k].sleep)
    {
      hide Candidates, Processed, ItemViews;
      var i := transitionStackTop - 1;
      while i >= 0
        invariant -1 <= i < transitionStackTop
        invariant Wf() && Agrees(m)
        invariant forall k: nat | i < k < transitionStackTop :: !ShouldProcess(program, m, k, runner)
        invariant ItemViews(stateStack) == old(ItemViews(stateStack))
      {
        ghost var items := ItemViews(stateStack);
        assert forall k | 0 <= k < |stateStack| :: stateStack[k].View() == items[k];
        var shouldStop := DynamicallyUpdateBacktrackSetsHelper(stateStack[i], i, runner, m);
        if shouldStop {
          LastConflictIs(m, runner, transitionStackTop, i);
          return;
        }
        assert ItemViews(stateStack) == items;
        i := i - 1;
      }
      LastConflictIs(m, runner, transitionStackTop, -1);
    }

    method DynamicallyUpdateBacktrackSets()
      requires Valid() && transitionStackTop >= 0
      modifies this.stateStack`backtrackSet
      ensures Valid() && Updated(program, old(View()), View())
      ensures program.LawfulRelation() && Settled(program, old(View())) ==> IsSparing(program, old(View()), View())
    {
      hide Program.LawfulRelation, Settled, IsSparing;
      hide Processed, ProcessedAll, ItemViews, Others, ClocksOf, DepthsOf, Lists, Tame, Updated;
      ghost var m, n := View(), transitionStackTop;
      var s_n := stateStack[transitionStackTop];
      var runner := program.tid(transitionStack[transitionStackTop]);
      assert forall i | 0 <= i < |stateStack| :: stateStack[i].View() == m.items[i];
      UpdateForOthers(s_n, m);
      ghost var mid := ItemViews(stateStack);
      assert forall i | 0 <= i < |stateStack| && i != n :: mid[i] == m.items[i];
      assert mid[n] == s_n.View();
      UpdateForRunner(runner, m);
      ghost var after := ItemViews(stateStack);
      BothUpdates(m, runner, mid, after);
      assert View() == m.(items := after);
      UpdateIsTame(m, m.(items := after));
      SparingUpdate(m, m.(items := after));
    }

    lemma SparingUpdate(m: Machine<O, T>, m': Machine<O, T>)
      requires Shape(program, m) && m.trans != [] && Updated(program, m, m')
      ensures program.LawfulRelation() && Settled(program, m) ==> IsSparing(program, m, m')
    {
      hide Program.LawfulRelation, Settled, IsSparing, Updated;
      if program.LawfulRelation() && Settled(program, m) {
        UpdateIsSparing(program, m, m');
      }
    }

    lemma BothUpdates(m: Machine<O, T>, runner: Tid, mid: seq<Item>, after: seq<Item>)
      requires Shape(program, m) && m.trans != [] && runner == program.tid(m.trans[|m.trans| - 1]) && |after| == |mid| == |m.items|
      requires forall k | 0 <= k < |m.items| && k != |m.trans| - 1 :: mid[k] == m.items[k]
      requires var n := |m.trans| - 1;
               exists order :: Lists(order, Others(program, m)) && ProcessedAll(program, m, n, order, m.items[n], mid[n])
      requires var i := LastConflict(program, m, runner, |m.trans| - 1);
               && (i >= 0 ==> Processed(program, m, i, runner, mid[i], after[i]))
               && (forall k: nat | k < |m.items| && k != i :: after[k] == mid[k])
      ensures Updated(program, m, m.(items := after))
    {
    }

    lemma UpdateIsTame(m: Machine<O, T>, m': Machine<O, T>)
      requires Shape(program, m) && Tame(m) && |m'.items| == |m.items| && m' == m.(items := m'.items)
      requires forall i | 0 <= i < |m.items| :: m'.items[i].sleep == m.items[i].sleep
      ensures Shape(program, m') && Tame(m')
    {
    }

    /** Takes the least thread out of the backtrack set of a state. */
    method PopThreadToBacktrackOnAt(k: nat) returns (p: Tid)
      requires Valid() && k < |stateStack| && stateStack[k].HasThreadsToBacktrackOn()
      modifies stateStack[k]
      ensures Valid() && p in old(View()).items[k].backtrack && (forall q | q in old(View()).items[k].backtrack :: p <= q)
      ensures View() == Popped(old(View()), k, p)
    {
      hide ItemViews, ClocksOf, DepthsOf, Tame;
      ghost var m := View();
      assert forall i | 0 <= i < |stateStack| :: stateStack[i].View() == m.items[i];
      p := stateStack[k].PopThreadToBacktrackOn();
      ghost var after := ItemViews(stateStack);
      assert after == Popped(m, k, p).items;
      assert View() == m.(items := after);
      UpdateIsTame(m, m.(items := after));
    }

    // ----- rewinding ----------------------------------------------------

    function CanRunInReverseToStateAtIndex(state: nat): bool
      reads this, irreversibleStatesStack
    {
      irreversibleStatesStack.contents == [] || irreversibleStatesStack.Top() <= state
    }

    method VirtuallyRerunTransitionAtIndex(i: nat)
      requires Wf() && i <= transitionStackTop && i + 1 < |stateStack| && program.tid(transitionStack[i]) < nextThreadId
      modifies this`currentObjects, threadData
      ensures Wf() && currentObjects == program.apply(old(currentObjects), transitionStack[i])
      ensures ThreadsBecame(old(threadData[..]), program.tid(transitionStack[i]), if program.counts(transitionStack[i]) then 1 else 0, stateStack[i + 1].clockVector)
    {
      var t := transitionStack[i];
      var p := program.tid(t);
      currentObjects := program.apply(currentObjects, t);
      threadData[p] := ThreadData(threadData[p].executionDepth + (if program.counts(t) then 1 else 0), stateStack[i + 1].clockVector);
    }

    /** The thread is left with the clock vector of the undone transition. */
    method VirtuallyRevertTransitionAtIndex(i: nat)
      requires Wf() && i <= transitionStackTop && i + 1 < |stateStack| && program.tid(transitionStack[i]) < nextThreadId
      modifies this`currentObjects, threadData
      ensures Wf() && currentObjects == program.unapply(old(currentObjects), transitionStack[i])
      ensures ThreadsBecame(old(threadData[..]), program.tid(transitionStack[i]), if program.counts(transitionStack[i]) then -1 else 0, stateStack[i + 1].clockVector)
    {
      var t := transitionStack[i];
      var p := program.tid(t);
      currentObjects := program.unapply(currentObjects, t);
      threadData[p] := ThreadData(threadData[p].executionDepth - (if program.counts(t) then 1 else 0), stateStack[i + 1].clockVector);
    }

    /** Only thread p changed: its depth by delta, and its clock vector. */
    ghost predicate ThreadsBecame(before: seq<ThreadData>, p: Tid, delta: int, cv: ClockVector)
      reads threadData
    {
      && p < |before|
      && threadData[..] == before[p := ThreadData(before[p].executionDepth + delta, cv)]
    }

    /** The depths and clock vectors of the threads after replaying the first
        k transitions of m. */
    ghost predicate ReplayedThreads(m: Machine<O, T>, k: nat)
      requires Shape(program, m) && k <= |m.trans| && |m.next| == nextThreadId
      reads this`nextThreadId, threadData
    {
      nextThreadId <= threadData.Length &&
      forall p: nat | p < nextThreadId ::
        threadData[p] == ThreadData(Count(program, m.trans[..k], p), ReplayedClocks(program, m, k)[p])
    }

    lemma ReplayedOneMore(m: Machine<O, T>, k: nat, before: seq<ThreadData>)
      requires Wf() && Shape(program, m) && k < |m.trans| && |m.next| == nextThreadId && |before| == threadData.Length
      requires forall p: nat | p < nextThreadId ::
          before[p] == ThreadData(Count(program, m.trans[..k], p), ReplayedClocks(program, m, k)[p])
      requires ThreadsBecame(before, program.tid(m.trans[k]), if program.counts(m.trans[k]) then 1 else 0, m.items[k + 1].clock)
      ensures ReplayedThreads(m, k + 1)
    {
      hide Count, ReplayedClocks;
      forall p: nat | p < nextThreadId
        ensures threadData[p] == ThreadData(Count(program, m.trans[..k + 1], p), ReplayedClocks(program, m, k + 1)[p])
      {
        ReplayedThread(program, m, k, p);
        assert threadData[p] == threadData[..][p];
      }
    }

    /** What rewinding reads of m and does not change. */
    ghost predicate Stacked(m: Machine<O, T>)
      requires Wf()
      reads this, transitionStack, threadData
    {
      && Shape(program, m) && |m.next| == nextThreadId
      && m.trans == transitionStack[..transitionStackTop + 1]
      && |m.items| == |stateStack| && (forall j | 0 <= j < |stateStack| :: stateStack[j].clockVector == m.items[j].clock)
    }

    /** m is what the fields that rewinding reads record. */
    ghost predicate Records(m: Machine<O, T>)
      requires Wf()
      reads this, transitionStack, threadData
    {
      && Stacked(m)
      && (forall p: nat | p < nextThreadId :: threadData[p] == ThreadData(m.depth[p], m.threadClock[p]))
      && m.initial == initialObjects && m.current == currentObjects
    }

    lemma ViewRecords()
      requires Valid()
      ensures Records(View()) && Agrees(View())
    {
      hide ItemViews;
      var m := View();
      assert forall j | 0 <= j < |stateStack| :: stateStack[j].View() == m.items[j];
    }

    lemma StartsReplay(m: Machine<O, T>)
      requires Wf() && Shape(program, m) && |m.next| == nextThreadId
      requires forall p: nat | p < nextThreadId :: threadData[p] == ThreadData(0, m.threadClock[p])
      ensures ReplayedThreads(m, 0)
    {
    }

    method ResetExecutionData(ghost m: Machine<O, T>)
      requires Wf() && Records(m)
      modifies threadData
      ensures Wf() && ReplayedThreads(m, 0)
    {
      var tid := 0;
      while tid < nextThreadId
        invariant Wf() && tid <= nextThreadId
        invariant forall p: nat | p < nextThreadId ::
            threadData[p] == ThreadData(if p < tid then 0 else m.depth[p], m.threadClock[p])
      {
        threadData[tid] := threadData[tid].(executionDepth := 0);
        tid := tid + 1;
      }
      StartsReplay(m);
    }

    method RerunNext(i: nat, ghost m: Machine<O, T>)
      requires Wf() && Stacked(m) && i < |m.trans|
      requires ReplayedThreads(m, i) && currentObjects == Replay(program, m.initial, m.trans[..i])
      modifies this`currentObjects, threadData
      ensures Wf() && Stacked(m)
      ensures ReplayedThreads(m, i + 1) && currentObjects == Replay(program, m.initial, m.trans[..i + 1])
    {
      hide ReplayedClocks, Count, ThreadsBecame, Replay;
      ghost var before := threadData[..];
      assert transitionStack[i] == m.trans[i];
      VirtuallyRerunTransitionAtIndex(i);
      ReplayedOneMore(m, i, before);
      ReplayStep(program, m.initial, m.trans[..i], m.trans[i]);
      assert m.trans[..i + 1] == m.trans[..i] + [m.trans[i]];
    }

    method ReplayTo(k: nat, ghost m: Machine<O, T>)
      requires Wf() && Records(m) && k <= transitionStackTop + 1
      modifies this`currentObjects, threadData
      ensures Wf() && currentObjects == Replay(program, m.initial, m.trans[..k])
      ensures ReplayedThreads(m, k)
    {
      hide ReplayedThreads, Replay;
      ResetExecutionData(m);
      currentObjects := initialObjects;
      ReplayNothing(program, m.initial, m.trans[..0]);
      var i := 0;
      while i < k
        invariant 0 <= i <= k && Wf() && Stacked(m)
        invariant currentObjects == Replay(program, m.initial, m.trans[..i])
        invariant ReplayedThreads(m, i)
      {
        RerunNext(i, m);
        i := i + 1;
      }
    }

    /** The same after undoing the transitions of m from the last down to k. */
    ghost predicate UndoneThreads(m: Machine<O, T>, k: nat)
      requires Shape(program, m) && k <= |m.trans| && |m.next| == nextThreadId
      reads this`nextThreadId, threadData
    {
      nextThreadId <= threadData.Length &&
      forall p: nat | p < nextThreadId ::
        threadData[p] == ThreadData(m.depth[p] - (Count(program, m.trans, p) - Count(program, m.trans[..k], p)), UndoneClocks(program, m, k)[p])
    }

    lemma UndoneOneMore(m: Machine<O, T>, k: nat, before: seq<ThreadData>)
      requires Wf() && Shape(program, m) && k < |m.trans| && |m.next| == nextThreadId && |before| == threadData.Length
      requires forall p: nat | p < nextThreadId ::
          before[p] == ThreadData(m.depth[p] - (Count(program, m.trans, p) - Count(program, m.trans[..k + 1], p)), UndoneClocks(program, m, k + 1)[p])
      requires ThreadsBecame(before, program.tid(m.trans[k]), if program.counts(m.trans[k]) then -1 else 0, m.items[k + 1].clock)
      ensures UndoneThreads(m, k)
    {
      hide Count, UndoneClocks;
      forall p: nat | p < nextThreadId
        ensures threadData[p] == ThreadData(m.depth[p] - (Count(program, m.trans, p) - Count(program, m.trans[..k], p)), UndoneClocks(program, m, k)[p])
      {
        UndoneThread(program, m, k, p);
        assert threadData[p] == threadData[..][p];
      }
    }

    lemma StartsUndo(m: Machine<O, T>)
      requires Wf() && Shape(program, m) && |m.next| == nextThreadId
      requires forall p: nat | p < nextThreadId :: threadData[p] == ThreadData(m.depth[p], m.threadClock[p])
      ensures UndoneThreads(m, |m.trans|)
    {
      assert m.trans[..|m.trans|] == m.trans;
    }

    method RevertLast(i: nat, k: nat, ghost m: Machine<O, T>)
      requires Wf() && Stacked(m) && k <= i < |m.trans| && UndoneThreads(m, i + 1)
      modifies this`currentObjects, threadData
      ensures Wf() && Stacked(m) && UndoneThreads(m, i)
      ensures Undo(program, currentObjects, m.trans[..i], k) == Undo(program, old(currentObjects), m.trans[..i + 1], k)
    {
      hide UndoneClocks, Count, ThreadsBecame, Undo;
      ghost var before, objects := threadData[..], currentObjects;
      assert transitionStack[i] == m.trans[i];
      VirtuallyRevertTransitionAtIndex(i);
      UndoLast(program, objects, m.trans, i, k);
      UndoneOneMore(m, i, before);
    }

    method UndoTo(k: nat, ghost m: Machine<O, T>)
      requires Wf() && Records(m) && k <= transitionStackTop + 1
      modifies this`currentObjects, threadData
      ensures Wf() && currentObjects == Undo(program, m.current, m.trans, k)
      ensures UndoneThreads(m, k)
    {
      hide UndoneThreads, Undo;
      assert m.trans[..|m.trans|] == m.trans;
      StartsUndo(m);
      var i := transitionStackTop + 1;
      while i > k
        invariant k <= i <= |m.trans| && Wf() && Stacked(m)
        invariant Undo(program, currentObjects, m.trans[..i], k) == Undo(program, m.current, m.trans, k)
        invariant UndoneThreads(m, i)
      {
        i := i - 1;
        RevertLast(i, k, m);
      }
      UndoNone(program, currentObjects, m.trans[..k], k);
    }

    /** Scanning downwards, the last index written for a thread is that of its
        first step from k on. */
    method ClosestIndices(k: nat, ghost m: Machine<O, T>) returns (closest: map<Tid, nat>)
      requires Wf() && m.trans == transitionStack[..transitionStackTop + 1] && k <= |m.trans|
      ensures forall p: Tid :: p in closest <==> FirstRun(program, m.trans, k, p) < |m.trans|
      ensures forall p: Tid | p in closest :: closest[p] == FirstRun(program, m.trans, k, p)
    {
      closest := map[];
      var i := transitionStackTop;
      while i >= k
        invariant k - 1 <= i <= transitionStackTop
        invariant forall p: Tid :: p in closest <==> FirstRun(program, m.trans, i + 1, p) < |m.trans|
        invariant forall p: Tid | p in closest :: closest[p] == FirstRun(program, m.trans, i + 1, p)
      {
        closest := closest[program.tid(transitionStack[i]) := i];
        i := i - 1;
      }
    }

    /** What each thread was about to do at state k. */
    method RestoreNextTransitions(k: nat, ghost m: Machine<O, T>)
      requires Wf() && Shape(program, m) && k <= |m.trans|
      requires m.trans == transitionStack[..transitionStackTop + 1] && m.next == nextTransitions[..nextThreadId]
      modifies nextTransitions
      ensures Wf() && nextTransitions[..nextThreadId] == RewoundNext(program, m, k)
    {
      hide FirstRun, NextAt, RewoundNext;
      var closest := ClosestIndices(k, m);
      var rest := closest.Keys;
      while rest != {}
        invariant rest <= closest.Keys && Wf()
        invariant forall p: nat | p < nextThreadId ::
            nextTransitions[p] == if p in closest && p !in rest then m.trans[closest[p]] else m.next[p]
        decreases rest
      {
        var p :| p in rest;
        assert closest[p] == FirstRun(program, m.trans, k, p) && program.tid(m.trans[closest[p]]) == p;
        nextTransitions[p] := transitionStack[closest[p]];
        rest := rest - {p};
      }
      RewoundByClosest(m, k, closest, nextTransitions[..nextThreadId]);
    }

    lemma RewoundByClosest(m: Machine<O, T>, k: nat, closest: map<Tid, nat>, next: seq<T>)
      requires k <= |m.trans| && |next| == |m.next|
      requires forall p: Tid :: p in closest <==> FirstRun(program, m.trans, k, p) < |m.trans|
      requires forall p: Tid | p in closest :: closest[p] == FirstRun(program, m.trans, k, p)
      requires forall p: nat | p < |next| :: next[p] == if p in closest then m.trans[closest[p]] else m.next[p]
      ensures next == RewoundNext(program, m, k)
    {
      hide FirstRun, NextAt;
      forall p: nat | p < |next|
        ensures next[p] == NextAt(program, m, k, p)
      {
        NextAtIsFirstRun(program, m, k, p);
      }
    }

    lemma RewoundIsTame(m: Machine<O, T>, k: nat)
      requires Shape(program, m) && Tame(m) && 1 <= k <= |m.trans|
      ensures Shape(program, Reflected(program, m, k)) && Tame(Reflected(program, m, k))
    {
      forall p: nat | p < |m.next|
        ensures program.tid(NextAt(program, m, k, p)) == p
      {
        NextAtIsFirstRun(program, m, k, p);
      }
      KeepUpToIsExact(m.irreversible, k);
    }

    /** What the pieces of a rewind add up to. */
    lemma ReflectedTo(m: Machine<O, T>, k: nat)
      requires Wf() && Shape(program, m) && Tame(m) && 1 <= k <= |m.trans|
      requires transitionStack[..transitionStackTop + 1] == m.trans[..k] && ItemViews(stateStack) == m.items[..k + 1]
      requires nextTransitions[..nextThreadId] == RewoundNext(program, m, k)
      requires irreversibleStatesStack.contents == KeepUpTo(m.irreversible, k)
      requires |m.next| == nextThreadId && initialObjects == m.initial && explored == m.explored
      requires if CanReverse(m, k)
               then UndoneThreads(m, k) && currentObjects == Undo(program, m.current, m.trans, k)
               else ReplayedThreads(m, k) && currentObjects == Replay(program, m.initial, m.trans[..k])
      ensures Valid() && View() == Reflected(program, m, k)
    {
      hide ItemViews, Tame, Undo, Replay, Count, KeepUpTo;
      var r := Reflected(program, m, k);
      assert View().threadClock == r.threadClock;
      assert View().depth == r.depth;
      RewoundIsTame(m, k);
    }

    method ReflectStateAtTransitionIndex(index: nat)
      requires Valid() && index <= transitionStackTop
      modifies this`transitionStackTop, this`stateStack, this`currentObjects
      modifies nextTransitions, threadData, irreversibleStatesStack
      ensures Valid() && View() == Reflected(program, old(View()), index + 1)
      ensures stateStack == old(stateStack[..index + 2])
    {
      hide ItemViews, ClocksOf, DepthsOf, Tame, Records, Reflected, RewoundNext, UndoneThreads, ReplayedThreads, Undo, Replay, KeepUpTo;
      ghost var m, k := View(), index + 1;
      ViewRecords();
      var reverse := CanRunInReverseToStateAtIndex(index + 1);
      assert reverse == CanReverse(m, k);
      if reverse {
        UndoTo(index + 1, m);
      } else {
        ReplayTo(index + 1, m);
      }
      RestoreNextTransitions(index + 1, m);
      irreversibleStatesStack.PopGreaterThan(index + 1);
      transitionStackTop := index;
      ghost var states := stateStack;
      assert ItemViews(states) == m.items;
      stateStack := stateStack[..index + 2];
      assert ItemViews(stateStack) == m.items[..k + 1];
      assert transitionStack[..transitionStackTop + 1] == m.trans[..k];
      ReflectedTo(m, k);
    }
  }
}
