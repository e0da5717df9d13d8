/** The livelock test extends a finished run by cycles, one for each thread
    that is enabled and has not run in an earlier cycle. It is modelled for the
    room it takes on the transition stack; its verdict is a heuristic. */
module Livelocks {
  import opened ClockVectors
  import opened Limits
  import opened Programs
  import opened Machines
  import opened Sleeping
  import opened Searches
  import opened McStacks
  import opened Targets
  import opened Explorers

  /** What the test asks of transitions: is this a report of progress, is a
      pending transition causally related to the last one, and may a cycle stop
      early after this run. */
  datatype Probe<!T(!new)> = Probe(progress: T -> bool, related: (T, T) -> bool, stops: seq<T> -> bool)

  /** A cycle runs its first step whatever the limit. */
  function Longest(increasedDepth: int): (r: nat)
    ensures r >= 1 && r >= increasedDepth
  {
    if increasedDepth < 1 then 1 else increasedDepth
  }

  /** The most transitions that many cycles take. */
  function Room(cycles: nat, increasedDepth: int): nat {
    cycles * Longest(increasedDepth)
  }

  ghost predicate NeverBlocks<O(!new), T(!new)>(P: Program<O, T>, probe: Probe<T>) {
    (forall s, t :: P.enabled(s, t)) && (forall t :: !probe.progress(t)) && (forall run :: !probe.stops(run))
  }

  /** m is m0 after the threads of ran have run, each released at what it was
      about to do and answering as the target does. */
  ghost predicate Continued<O(!new), T(!new)>(P: Program<O, T>, target: Target<O, T>, m0: Machine<O, T>, m: Machine<O, T>, ran: seq<Tid>)
    decreases |ran|
  {
    if ran == [] then m == m0
    else
      var n := |ran| - 1;
      exists c, reply :: Continued(P, target, m0, c, ran[..n]) && Steps(P, target, c, ran[n], reply, m)
  }

  ghost predicate Steps<O(!new), T(!new)>(P: Program<O, T>, target: Target<O, T>, c: Machine<O, T>, p: Tid, reply: Reply<O, T>, m: Machine<O, T>) {
    Shape(P, c) && Released(target, c, p, reply) && m == Simulate(P, c, p, reply)
  }

  lemma ContinuesBy<O(!new), T(!new)>(P: Program<O, T>, target: Target<O, T>, m0: Machine<O, T>, c: Machine<O, T>, ran: seq<Tid>,
                                      p: Tid, reply: Reply<O, T>, m: Machine<O, T>)
    requires Continued(P, target, m0, c, ran) && Steps(P, target, c, p, reply, m)
    ensures Continued(P, target, m0, m, ran + [p])
  {
    hide Steps;
    var ran', n := ran + [p], |ran|;
    assert ran'[..n] == ran && ran'[n] == p;
    assert Continued(P, target, m0, c, ran'[..n]) && Steps(P, target, c, ran'[n], reply, m);
  }

  lemma NoneRan<O(!new), T(!new)>(P: Program<O, T>, target: Target<O, T>, m: Machine<O, T>)
    ensures Continued(P, target, m, m, [])
  {
  }

  /** The test leaves the run below it alone, and every step it adds is its
      thread's, at what the thread last answered. */
  lemma {:induction false} ContinuedRun<O(!new), T(!new)>(P: Program<O, T>, target: Target<O, T>, m0: Machine<O, T>, m: Machine<O, T>, ran: seq<Tid>)
    requires P.LawfulRelation() && AnswersAlike(target) && Continued(P, target, m0, m, ran) && Shape(P, m0) && Told(P, target, m0)
    ensures m0.trans <= m.trans && |m.trans| == |m0.trans| + |ran| && Told(P, target, m)
    ensures forall i | 0 <= i < |ran| :: var j := |m0.trans| + i; P.tid(m.trans[j]) == ran[i] && m.trans[j] == Reported(P, target, m.trans[..j], ran[i])
    decreases |ran|
  {
    hide Told, Reported, AnswersAlike, Steps, Program.LawfulRelation;
    if ran != [] {
      var n := |ran| - 1;
      var c, reply :| Continued(P, target, m0, c, ran[..n]) && Steps(P, target, c, ran[n], reply, m);
      ContinuedRun(P, target, m0, c, ran[..n]);
      StepOf(P, target, c, ran[n], reply, m);
      forall i | 0 <= i < n
        ensures m.trans[|m0.trans| + i] == c.trans[|m0.trans| + i] && m.trans[..|m0.trans| + i] == c.trans[..|m0.trans| + i] && ran[i] == ran[..n][i]
      {
      }
    }
  }

  lemma StepOf<O(!new), T(!new)>(P: Program<O, T>, target: Target<O, T>, c: Machine<O, T>, p: Tid, reply: Reply<O, T>, m: Machine<O, T>)
    requires P.LawfulRelation() && AnswersAlike(target) && Steps(P, target, c, p, reply, m) && Told(P, target, c)
    ensures Told(P, target, m)
    ensures m.trans == c.trans + [c.next[p]] && P.tid(c.next[p]) == p && c.next[p] == Reported(P, target, c.trans, p)
  {
    hide Reported, AnswersAlike;
    StepKeepsTold(P, target, c, p, reply);
    assert c.trans[..|c.trans|] == c.trans;
    NextAtTop(P, c, p);
  }

  /** The stack can be run, and it is m0's after the threads of ran ran. */
  ghost predicate Extends<O(!new), T(!new)>(stack: McStack<O, T>, target: Target<O, T>, m0: Machine<O, T>, numThreads: nat, ran: seq<Tid>)
    reads stack, stack.transitionStack, stack.nextTransitions, stack.threadData, stack.irreversibleStatesStack, stack.stateStack
  {
    && stack.Valid() && stack.program.LawfulRelation() && stack.program.LawfulStore() && LawfulTarget(stack.program, target)
    && Fits(stack.program, stack.View()) && Continued(stack.program, target, m0, stack.View(), ran)
    && stack.transitionStackTop == |m0.trans| - 1 + |ran| && numThreads <= stack.nextThreadId
    && stack.nextThreadId <= stack.nextTransitions.Length && stack.nextThreadId <= stack.threadData.Length
    && 0 <= stack.transitionStackTop < stack.transitionStack.Length
  }

  /** Thread p is enabled, whatever its depth limit. */
  predicate IsEnabled<O(!new), T(!new)>(stack: McStack<O, T>, p: Tid)
    requires p < stack.nextTransitions.Length
    reads stack, stack.nextTransitions
  {
    stack.program.enabled(stack.currentObjects, stack.nextTransitions[p])
  }

  ghost function SetOf(ran: seq<Tid>): (r: set<Tid>)
    ensures forall p :: p in r <==> p in ran
  {
    set p | p in ran
  }

  lemma SetOfMore(ran: seq<Tid>, p: Tid)
    ensures SetOf(ran + [p]) == SetOf(ran) + {p}
  {
    hide SetOf;
  }

  /** One more step in the traced program and in the model. */
  method Step<O(!new), T(!new)>(stack: McStack<O, T>, target: Target<O, T>, ghost m0: Machine<O, T>, ghost numThreads: nat, ghost ran: seq<Tid>, p: Tid)
    requires Extends(stack, target, m0, numThreads, ran) && p < numThreads && stack.transitionStackTop + 1 < TRANSITION_SLOTS
    modifies stack, stack.transitionStack, stack.nextTransitions, stack.threadData, stack.irreversibleStatesStack, stack.stateStack
    ensures Extends(stack, target, m0, numThreads, ran + [p])
    ensures forall i | 0 <= i < |stack.stateStack| :: stack.stateStack[i] in old(stack.stateStack) || fresh(stack.stateStack[i])
  {
    hide McStack.Wf, McStack.View, Shape, Tame, Simulate, LawfulTarget, Fits, ReplyFits, Continued, Released, Program.LawfulStore, Program.LawfulRelation;
    stack.Sizes();
    ghost var c := stack.View();
    ghost var reply := RunToNextVisibleOperation(stack, target, p);
    StepKeepsFits(stack.program, c, p, reply);
    ContinuesBy(stack.program, target, m0, c, ran, p, reply, stack.View());
    stack.Sizes();
  }

  method AddRelated<O(!new), T(!new)>(stack: McStack<O, T>, probe: Probe<T>, numThreads: nat, threads: set<Tid>) returns (r: set<Tid>)
    requires threads <= ThreadIds(numThreads) && numThreads <= stack.nextTransitions.Length
    requires 0 <= stack.transitionStackTop < stack.transitionStack.Length
    ensures r == threads + set p: Tid | 0 <= p < numThreads && probe.related(stack.nextTransitions[p], stack.transitionStack[stack.transitionStackTop])
    ensures r <= ThreadIds(numThreads)
  {
    r := threads;
    for p := 0 to numThreads
      invariant r == threads + set q: Tid | 0 <= q < p && probe.related(stack.nextTransitions[q], stack.transitionStack[stack.transitionStackTop])
    {
      if p !in r && probe.related(stack.nextTransitions[p], stack.transitionStack[stack.transitionStackTop]) {
        r := r + {p};
      }
    }
  }

  method FirstRelatedEnabled<O(!new), T(!new)>(stack: McStack<O, T>, numThreads: nat, threads: set<Tid>, next: Tid) returns (p: Tid)
    requires next < numThreads <= stack.nextTransitions.Length
    ensures p < numThreads
    ensures p != next ==> p in threads && IsEnabled(stack, p) && forall q: Tid | q < p && q in threads :: !IsEnabled(stack, q)
    ensures p == next && !IsEnabled(stack, next) ==> forall q: Tid | q < numThreads && q in threads :: !IsEnabled(stack, q)
  {
    for q := 0 to numThreads
      invariant forall j: Tid | j < q && j in threads :: !IsEnabled(stack, j)
    {
      if q in threads && IsEnabled(stack, q) {
        return q;
      }
    }
    return next;
  }

  /** The thread to go on with: the same, or else one related to it. */
  method ChooseNext<O(!new), T(!new)>(stack: McStack<O, T>, probe: Probe<T>, numThreads: nat, threads: set<Tid>, next: Tid)
      returns (r: set<Tid>, p: Tid)
    requires threads <= ThreadIds(numThreads) && next < numThreads <= stack.nextTransitions.Length
    requires 0 <= stack.transitionStackTop < stack.transitionStack.Length
    ensures r == threads + set q: Tid | 0 <= q < numThreads && probe.related(stack.nextTransitions[q], stack.transitionStack[stack.transitionStackTop])
    ensures r <= ThreadIds(numThreads) && p < numThreads
    ensures IsEnabled(stack, next) ==> p == next
    ensures !IsEnabled(stack, next) ==>
              if p != next then p in r && IsEnabled(stack, p) && forall q: Tid | q < p && q in r :: !IsEnabled(stack, q)
              else forall q: Tid | q < numThreads && q in r :: !IsEnabled(stack, q)
    ensures NeverBlocks(stack.program, probe) ==> p == next && IsEnabled(stack, p)
  {
    hide NeverBlocks;
    r := AddRelated(stack, probe, numThreads, threads);
    p := next;
    if !IsEnabled(stack, next) {
      assert !NeverBlocks(stack.program, probe) by { BlockedThread(stack.program, probe, stack.currentObjects, stack.nextTransitions[next]); }
      p := FirstRelatedEnabled(stack, numThreads, r, next);
    }
  }

  /** A thread below n whose pending transition reports progress. */
  ghost predicate ProgressPending<O(!new), T(!new)>(stack: McStack<O, T>, probe: Probe<T>, numThreads: nat)
    requires numThreads <= stack.nextTransitions.Length
    reads stack.nextTransitions
  {
    exists p: Tid :: p < numThreads && probe.progress(stack.nextTransitions[p])
  }

  /** One cycle, started by thread start: the threads that ran in it, or an end
      to the test because a thread is about to report progress. */
  method RunCycle<O(!new), T(!new)>(stack: McStack<O, T>, target: Target<O, T>, probe: Probe<T>, start: Tid, numThreads: nat, increasedDepth: int,
                                    ghost m0: Machine<O, T>, ghost ran: seq<Tid>)
      returns (progress: bool, threads: set<Tid>, ghost ran': seq<Tid>)
    requires Extends(stack, target, m0, numThreads, ran) && start < numThreads
    requires stack.transitionStackTop + Longest(increasedDepth) < TRANSITION_SLOTS
    modifies stack, stack.transitionStack, stack.nextTransitions, stack.threadData, stack.irreversibleStatesStack, stack.stateStack
    ensures Extends(stack, target, m0, numThreads, ran')
    ensures ran < ran' && |ran'| - |ran| <= Longest(increasedDepth)
    ensures SetOf(ran') == SetOf(ran) + threads && start in threads && threads <= ThreadIds(numThreads)
    ensures progress ==> ProgressPending(stack, probe, numThreads)
    ensures NeverBlocks(stack.program, probe) ==> !progress && |ran'| - |ran| == Longest(increasedDepth) && threads == {start}
    ensures forall i | 0 <= i < |stack.stateStack| :: stack.stateStack[i] in old(stack.stateStack) || fresh(stack.stateStack[i])
  {
    hide McStack.Wf, McStack.View, Shape, Tame, LawfulTarget, Fits, Continued, NeverBlocks, SetOf, IsEnabled, Program.LawfulStore, Program.LawfulRelation;
    var threadIsRelated := {start};
    Step(stack, target, m0, numThreads, ran, start);
    SetOfMore(ran, start);
    ran', threads, progress := ran + [start], {start}, false;
    var next: Tid := start;
    var i := 1;
    while i < increasedDepth
      invariant 1 <= i <= Longest(increasedDepth) && next < numThreads && threadIsRelated <= ThreadIds(numThreads)
      invariant Extends(stack, target, m0, numThreads, ran')
      invariant ran < ran' && |ran'| - |ran| <= i
      invariant SetOf(ran') == SetOf(ran) + threads && start in threads && threads <= ThreadIds(numThreads)
      invariant NeverBlocks(stack.program, probe) ==> |ran'| - |ran| == i && threads == {start} && next == start
      invariant forall i | 0 <= i < |stack.stateStack| :: stack.stateStack[i] in old(stack.stateStack) || fresh(stack.stateStack[i])
    {
      i := i + 1;
      threadIsRelated, next := ChooseNext(stack, probe, numThreads, threadIsRelated, next);
      if IsEnabled(stack, next) {
        if probe.progress(stack.nextTransitions[next]) {
          assert !NeverBlocks(stack.program, probe) by { ReportedProgress(stack.program, probe, stack.nextTransitions[next]); }
          progress := true;
          return;
        }
        Step(stack, target, m0, numThreads, ran', next);
        SetOfMore(ran', next);
        ran', threads := ran' + [next], threads + {next};
        if probe.stops(stack.transitionStack[..stack.transitionStackTop + 1]) {
          assert !NeverBlocks(stack.program, probe) by { StoppedEarly(stack.program, probe, stack.transitionStack[..stack.transitionStackTop + 1]); }
          return;
        }
      }
    }
  }

  lemma BlockedThread<O(!new), T(!new)>(P: Program<O, T>, probe: Probe<T>, s: seq<O>, t: T)
    requires !P.enabled(s, t)
    ensures !NeverBlocks(P, probe)
  {
  }

  lemma ReportedProgress<O(!new), T(!new)>(P: Program<O, T>, probe: Probe<T>, t: T)
    requires probe.progress(t)
    ensures !NeverBlocks(P, probe)
  {
  }

  lemma StoppedEarly<O(!new), T(!new)>(P: Program<O, T>, probe: Probe<T>, run: seq<T>)
    requires probe.stops(run)
    ensures !NeverBlocks(P, probe)
  {
  }

  /** What holds after that many cycles. */
  ghost predicate Cycled<O(!new), T(!new)>(P: Program<O, T>, probe: Probe<T>, ran: seq<Tid>, numThreads: nat, increasedDepth: int, explored: set<Tid>, cycles: nat) {
    && |ran| <= Room(cycles, increasedDepth)
    && explored == SetOf(ran) && explored <= ThreadIds(numThreads) && cycles <= |explored|
    && (NeverBlocks(P, probe) ==> |ran| == Room(cycles, increasedDepth) && cycles == |explored|)
  }

  lemma CycledFits<O(!new), T(!new)>(P: Program<O, T>, probe: Probe<T>, ran: seq<Tid>, numThreads: nat, increasedDepth: int, explored: set<Tid>, cycles: nat)
    requires Cycled(P, probe, ran, numThreads, increasedDepth, explored, cycles)
    ensures explored == SetOf(ran) && explored <= ThreadIds(numThreads)
    ensures cycles <= |explored| <= numThreads && |ran| <= Room(numThreads, increasedDepth)
    ensures forall p: Tid | p < numThreads && p !in explored ::
        |explored| < numThreads && |ran| + Longest(increasedDepth) <= Room(numThreads, increasedDepth)
    ensures NeverBlocks(P, probe) && explored == ThreadIds(numThreads) ==> |ran| == Room(numThreads, increasedDepth)
  {
    hide Room, NeverBlocks, SetOf, ThreadIds;
    ThreadIdsSize(numThreads, explored);
    EnoughRoom(cycles, numThreads, increasedDepth);
    if |explored| < numThreads {
      OneMoreCycle(cycles, increasedDepth);
      EnoughRoom(cycles + 1, numThreads, increasedDepth);
    }
  }

  lemma CycledMore<O(!new), T(!new)>(P: Program<O, T>, probe: Probe<T>, ran: seq<Tid>, ran': seq<Tid>, numThreads: nat, increasedDepth: int,
                                     explored: set<Tid>, cycles: nat, start: Tid, threads: set<Tid>)
    requires Cycled(P, probe, ran, numThreads, increasedDepth, explored, cycles) && start !in explored && start in threads
    requires |ran'| - |ran| <= Longest(increasedDepth) && SetOf(ran') == SetOf(ran) + threads && threads <= ThreadIds(numThreads)
    requires NeverBlocks(P, probe) ==> |ran'| - |ran| == Longest(increasedDepth) && threads == {start}
    ensures Cycled(P, probe, ran', numThreads, increasedDepth, explored + threads, cycles + 1)
    ensures |explored + threads| > |explored|
  {
    hide Room, NeverBlocks, SetOf;
    OneMoreCycle(cycles, increasedDepth);
    GrowsByOne(explored, explored + threads, start);
    ThreadIdsSize(numThreads, explored + threads);
  }

  /** Runs a cycle for each thread that is enabled and unexplored. Each cycle
      starts with a thread new to the explored set, so there are at most as
      many cycles as threads; if nothing ever blocks there are exactly as many. */
  method IsInLivelock<O(!new), T(!new)>(stack: McStack<O, T>, target: Target<O, T>, probe: Probe<T>, increasedDepth: int)
      returns (verdict: bool, ghost ran: seq<Tid>)
    requires stack.Valid() && stack.program.LawfulRelation() && stack.program.LawfulStore() && LawfulTarget(stack.program, target)
    requires Fits(stack.program, stack.View())
    requires stack.transitionStackTop >= 0 && stack.nextThreadId <= stack.nextTransitions.Length
    requires exists p: Tid :: p < stack.nextThreadId && IsEnabled(stack, p)
    requires stack.transitionStackTop + Room(stack.nextThreadId, increasedDepth) < TRANSITION_SLOTS
    modifies stack, stack.transitionStack, stack.nextTransitions, stack.threadData, stack.irreversibleStatesStack, stack.stateStack
    ensures stack.Valid() && old(stack.nextThreadId) <= stack.nextTransitions.Length
    ensures Continued(stack.program, target, old(stack.View()), stack.View(), ran)
    ensures stack.transitionStackTop == old(stack.transitionStackTop) + |ran| && |ran| <= Room(old(stack.nextThreadId), increasedDepth)
    ensures verdict ==> forall p: Tid | p < old(stack.nextThreadId) && IsEnabled(stack, p) :: p in ran
    ensures !verdict ==> ProgressPending(stack, probe, old(stack.nextThreadId))
    ensures NeverBlocks(stack.program, probe) ==> verdict && |ran| == Room(old(stack.nextThreadId), increasedDepth)
  {
    hide McStack.Wf, McStack.View, Shape, Tame, LawfulTarget, Fits, Continued, NeverBlocks, Room, Longest, SetOf, IsEnabled, ThreadIds, Cycled, Program.LawfulStore, Program.LawfulRelation;
    stack.Sizes();
    var numThreads := stack.nextThreadId;
    ghost var m0 := stack.View();
    var cycleStartIdx: seq<int> := [];
    var explored: set<Tid> := {};
    ran := [];
    NoCycles(stack.program, probe, numThreads, increasedDepth);
    NoneRan(stack.program, target, m0);
    var start: Tid := LastEnabled(stack, numThreads);
    var more := true;
    while more
      invariant Extends(stack, target, m0, numThreads, ran)
      invariant Cycled(stack.program, probe, ran, numThreads, increasedDepth, explored, |cycleStartIdx|)
      invariant more ==> start < numThreads && start !in explored
      invariant !more ==> forall p: Tid | p < numThreads && IsEnabled(stack, p) :: p in explored
      invariant forall i | 0 <= i < |stack.stateStack| :: stack.stateStack[i] in old(stack.stateStack) || fresh(stack.stateStack[i])
      decreases numThreads - |explored|, more
    {
      CycledFits(stack.program, probe, ran, numThreads, increasedDepth, explored, |cycleStartIdx|);
      if probe.progress(stack.nextTransitions[start]) {
        assert !NeverBlocks(stack.program, probe) by { ReportedProgress(stack.program, probe, stack.nextTransitions[start]); }
        return false, ran;
      }
      assert |cycleStartIdx| < MAX_THREADS;
      cycleStartIdx := cycleStartIdx + [stack.transitionStackTop + 1];
      ghost var before := ran;
      var progress, threads;
      progress, threads, ran := RunCycle(stack, target, probe, start, numThreads, increasedDepth, m0, ran);
      CycledMore(stack.program, probe, before, ran, numThreads, increasedDepth, explored, |cycleStartIdx| - 1, start, threads);
      explored := explored + threads;
      CycledFits(stack.program, probe, ran, numThreads, increasedDepth, explored, |cycleStartIdx|);
      if progress {
        return false, ran;
      }
      start, more := FirstUnexplored(stack, numThreads, explored);
    }
    CycledFits(stack.program, probe, ran, numThreads, increasedDepth, explored, |cycleStartIdx|);
    if NeverBlocks(stack.program, probe) {
      AllRan(stack, probe, numThreads, explored, ran);
    }
    return true, ran;
  }

  lemma AllRan<O(!new), T(!new)>(stack: McStack<O, T>, probe: Probe<T>, numThreads: nat, explored: set<Tid>, ran: seq<Tid>)
    requires numThreads <= stack.nextTransitions.Length && NeverBlocks(stack.program, probe)
    requires explored == SetOf(ran) && explored <= ThreadIds(numThreads)
    requires forall p: Tid | p < numThreads && IsEnabled(stack, p) :: p in explored
    ensures explored == ThreadIds(numThreads)
  {
    forall p: Tid | p < numThreads
      ensures p in explored
    {
      assert IsEnabled(stack, p);
    }
  }

  lemma NoCycles<O(!new), T(!new)>(P: Program<O, T>, probe: Probe<T>, numThreads: nat, increasedDepth: int)
    ensures Cycled(P, probe, [], numThreads, increasedDepth, {}, 0)
  {
  }

  lemma GrowsByOne(known: set<Tid>, explored: set<Tid>, start: Tid)
    requires known + {start} <= explored && start !in known
    ensures |explored| >= |known| + 1
    ensures explored == known + {start} ==> |explored| == |known| + 1
  {
    assert |known + {start}| == |known| + 1;
    SubsetSize(known + {start}, explored);
  }

  lemma OneMoreCycle(cycles: nat, increasedDepth: int)
    ensures Room(cycles, increasedDepth) + Longest(increasedDepth) == Room(cycles + 1, increasedDepth)
  {
  }

  lemma EnoughRoom(cycles: nat, threads: nat, increasedDepth: int)
    requires cycles <= threads
    ensures Room(cycles, increasedDepth) <= Room(threads, increasedDepth)
  {
    assert cycles * Longest(increasedDepth) <= threads * Longest(increasedDepth);
  }

  /** The loop over the threads does not stop at the first enabled one. */
  method LastEnabled<O(!new), T(!new)>(stack: McStack<O, T>, numThreads: nat) returns (start: Tid)
    requires numThreads <= stack.nextTransitions.Length
    requires exists p: Tid :: p < numThreads && IsEnabled(stack, p)
    ensures start < numThreads && IsEnabled(stack, start) && forall p: Tid | start < p < numThreads :: !IsEnabled(stack, p)
  {
    var found := false;
    start := 0;
    for p := 0 to numThreads
      invariant found ==> start < p && IsEnabled(stack, start)
      invariant forall q: Tid | q < p && (found ==> start < q) :: !IsEnabled(stack, q)
    {
      if IsEnabled(stack, p) {
        start, found := p, true;
      }
    }
  }

  method FirstUnexplored<O(!new), T(!new)>(stack: McStack<O, T>, numThreads: nat, explored: set<Tid>) returns (start: Tid, found: bool)
    requires numThreads <= stack.nextTransitions.Length
    ensures found ==> start < numThreads && start !in explored && IsEnabled(stack, start)
    ensures !found ==> forall p: Tid | p < numThreads && IsEnabled(stack, p) :: p in explored
  {
    for p := 0 to numThreads
      invariant forall q: Tid | q < p && IsEnabled(stack, q) :: q in explored
    {
      if p !in explored && IsEnabled(stack, p) {
        return p, true;
      }
    }
    return 0, false;
  }

  // ----- the limits -----------------------------------------------------

  datatype Setting = Default | Given(limit: nat)

  /** The limit on the top index of the transition stack, from the settings. */
  function MaxTotalDepth(checkLivelock: bool, total: Setting): nat {
    var limit := DEPTH_LIMIT_DEFAULT - 1 - if checkLivelock then MAX_THREADS * CYCLE_LIMIT else 0;
    match total
    case Default => limit
    case Given(n) => if n >= limit then limit else n
  }

  /** On top of any run of a search with the limit for livelock testing, the
      test with the default cycle limit has the room it demands. */
  lemma LivelockFits<O(!new), T(!new)>(explorer: Explorer<O, T>, total: Setting)
    requires explorer.Searched() && explorer.WithinLimit()
    requires explorer.stack.maxTotalTransitionsDepthLimit == MaxTotalDepth(true, total)
    ensures explorer.stack.transitionStackTop + Room(explorer.stack.nextThreadId, CYCLE_LIMIT) < TRANSITION_SLOTS
    ensures Fits(explorer.stack.program, explorer.stack.View())
  {
    hide McStack.Wf, McStack.View, IsSearch, SleepJustified, DoneExplored, Discipline, Answered;
    SearchLaws(explorer.stack.program, explorer.objects, explorer.moves, explorer.machines);
    SearchKeepsCore(explorer.stack.program, explorer.objects, explorer.moves, explorer.machines, |explorer.machines| - 1);
    explorer.stack.Sizes();
    EnoughRoom(explorer.stack.nextThreadId, MAX_THREADS, CYCLE_LIMIT);
  }

  /** It has it whatever the number of threads and the cycle limit exactly when
      the cycles of all threads take no more than the room set aside, given a
      run as long as the limit allows; with 20 threads and the default cycle
      limit they take all of it. Without the test a run can need every slot. */
  lemma LivelockFitsIff(numThreads: nat, increasedDepth: int)
    ensures MaxTotalDepth(true, Default) + Room(numThreads, increasedDepth) < TRANSITION_SLOTS
            <==> Room(numThreads, increasedDepth) <= MAX_THREADS * CYCLE_LIMIT
    ensures MaxTotalDepth(true, Default) + Room(MAX_THREADS, CYCLE_LIMIT) == TRANSITION_SLOTS - 1
    ensures MaxTotalDepth(false, Default) == TRANSITION_SLOTS - 1
  {
  }

  /** A search with the limit taken from any settings completes. */
  method SearchWithin<O(!new), T(!new)>(explorer: Explorer<O, T>, checkLivelock: bool, total: Setting) returns (complete: bool)
    requires explorer.Searched() && explorer.moves == []
    requires explorer.stack.maxTotalTransitionsDepthLimit == MaxTotalDepth(checkLivelock, total)
    modifies explorer, explorer.stack, explorer.stack.transitionStack, explorer.stack.nextTransitions, explorer.stack.threadData
    modifies explorer.stack.irreversibleStatesStack, explorer.stack.stateStack
    ensures complete && explorer.Searched() && explorer.WithinLimit()
  {
    complete := explorer.DoModelChecking();
  }
}
