/** Deadlocks of programs of mutexes, threads and global variables, told by the
    steps of an execution alone, and the search that finds them all. */
module Deadlocks {
  import opened ClockVectors
  import opened Programs
  import opened Machines
  import opened Searches
  import opened Traces
  import opened Transitions
  import opened Effects
  import opened Executions
  import opened Histories
  import opened Completeness
  import opened Targets

  /** What the threads are about to do is on objects of the right kinds. */
  ghost predicate WellTyped(home: Home, W: World<Object, Transition>, run: seq<Transition>) {
    forall p: Tid | IsThread(W.objects, home(p)) :: Typed(home, W.objects, W.pending(run, p))
  }

  /** Every thread has finished or was never created, or waits for a mutex that
      was taken and not released, or for a thread that has not finished, or is
      the main thread about to finish. */
  ghost predicate Deadlocked(home: Home, W: World<Object, Transition>, run: seq<Transition>) {
    forall p: Tid :: !Unblocked(home, W.objects, run, W.pending(run, p))
  }

  lemma {:induction false} ExecRunsReady<O(!new), T(!new)>(W: World<O, T>, run: seq<T>)
    requires W.Exec(run)
    ensures IsRun(W.program, W.objects, run)
    decreases |run|
  {
    if run != [] {
      ExecRunsReady(W, run[..|run| - 1]);
    }
  }

  lemma ProgramExecRuns(home: Home, W: World<Object, Transition>, w: seq<Transition>)
    requires W.program == TheProgram(home) && W.Exec(w)
    ensures Runs(home, W.objects, w)
  {
    ExecRunsReady(W, w);
  }

  lemma NoThreadNoStep(home: Home, s: seq<Object>, run: seq<Transition>, t: Transition)
    requires Runs(home, s, run) && !IsThread(s, home(t.tid))
    ensures !Enabled(home, After(home, s, run), t) && !Unblocked(home, s, run, t)
  {
    hide Runs, After;
    var a := Transition(t.tid, ThreadStart);
    TypesKept(home, s, run, a);
    if Effects.Lives(home, s, run, t.tid) {
      var i: nat :| i < |run| && run[i].op == ThreadCreate(t.tid);
      RunsPrefix(home, s, run, i);
      TypesKept(home, s, run[..i], run[i]);
      assert false;
    }
  }

  /** An execution cannot go on exactly when it ends in a deadlock. */
  lemma DeadlockIff(home: Home, W: World<Object, Transition>, w: seq<Transition>)
    requires Injective(home) && W.program == TheProgram(home) && W.Deterministic()
    requires W.Exec(w) && WellTyped(home, W, w)
    ensures Maximal(W, w) <==> Deadlocked(home, W, w)
  {
    hide World.Exec, Runs, Unblocked, Typed, Enabled, WellDefined, Proper;
    ProgramExecRuns(home, W, w);
    forall p: Tid
      ensures W.CanRun(w, p) <==> Unblocked(home, W.objects, w, W.pending(w, p))
    {
      assert W.pending(w, p).tid == p by { assert W.program.tid(W.pending(w, p)) == p; }
      if IsThread(W.objects, home(p)) {
        EnabledAfter(home, W.objects, w, W.pending(w, p));
      } else {
        NoThreadNoStep(home, W.objects, w, W.pending(w, p));
      }
    }
  }

  /** So every deadlock the program can run into is found: a search run to its
      end has a deadlock of the same trace on its stack. */
  lemma EveryDeadlockIsFound(home: Home, W: World<Object, Transition>, objects: seq<Object>,
                             moves: seq<Move<Object, Transition>>, ms: seq<Machine<Object, Transition>>,
                             w: seq<Transition>)
    requires Injective(home) && W.program == TheProgram(home) && W.Deterministic()
    requires IsSearch(W.program, objects, moves, ms) && Diligent(W.program, moves, ms)
    requires forall n: nat | n < |ms| :: Mirrors(W, ms[n])
    requires W.Exec(w) && WellTyped(home, W, w) && Deadlocked(home, W, w)
    ensures exists m: nat :: Visited(W, ms, w, m) && Deadlocked(home, W, ms[m].trans)
  {
    hide World.Deterministic, World.Lawful, World.Exec, Diligent, Mirrors, IsSearch, Deadlocked, LawfulRewind, LawfulCalls, Program.LawfulStore, Program.LawfulUndo, SameTrace;
    DeadlockIff(home, W, w);
    ProgramMissesNothing(home, W, objects, moves, ms, w);
    var m: nat :| Visited(W, ms, w, m);
    ProgramWorldIsLawful(home, W);
    MirroredIsFollowed(W, objects, moves, ms);
    FollowsFacts(W, objects, moves, ms, m);
    assert WellTyped(home, W, ms[m].trans);
    DeadlockIff(home, W, ms[m].trans);
    forall p: Tid
      ensures !W.CanRun(ms[m].trans, p)
    {
      assert !W.CanRun(w, p);
    }
  }

  // ----- by the answers of the traced program ---------------------------

  /** A thread that is about to create another makes it known. */
  ghost predicate TellsChildren(target: Target<Object, Transition>) {
    forall run, threads: nat, objects: nat, t ::
      var reply := target(run, threads, objects, t);
      reply.next.op.ThreadCreate? ==> reply.next.op.target < threads + reply.newThreads
  }

  ghost predicate OnlyMainLives(home: Home, s: seq<Object>) {
    forall p: Tid | ThreadIs(s, home(p), Alive) :: p == MAIN_THREAD
  }

  /** Then every thread that can run was made known before. */
  lemma ChildrenAreTold(home: Home, target: Target<Object, Transition>, all: seq<Object>)
    requires Injective(home) && LawfulTarget(TheProgram(home), target) && AnswersAlike(target)
    requires TellsChildren(target) && OnlyMainLives(home, all)
    ensures TellsThreads(Traced(TheProgram(home), target, all), target)
  {
    hide World.Exec, Announces, AnswersAlike, TellsChildren, LawfulTarget;
    var W := Traced(TheProgram(home), target, all);
    forall run, p: Tid | W.Exec(run) && W.CanRun(run, p)
      ensures p == 0 || AnnouncedIn(target, run, p)
    {
      if p != 0 {
        var j := ItsCreate(home, target, all, run, p);
        CreateWasTold(home, target, all, run, j, p);
      }
    }
  }

  lemma ItsCreate(home: Home, target: Target<Object, Transition>, all: seq<Object>, run: seq<Transition>, p: Tid) returns (j: nat)
    requires Injective(home) && LawfulTarget(TheProgram(home), target) && OnlyMainLives(home, all) && p != MAIN_THREAD
    requires Traced(TheProgram(home), target, all).Exec(run) && Traced(TheProgram(home), target, all).CanRun(run, p)
    ensures j < |run| && run[j].op == ThreadCreate(p)
  {
    hide World.Exec, Proper, Runs, Reported, LawfulTarget;
    var W := Traced(TheProgram(home), target, all);
    var t := W.pending(run, p);
    RelationIsLawful(home);
    ReportedIsOwn(TheProgram(home), target, run, p);
    assert t.tid == p && Enabled(home, After(home, all, run), t);
    ProgramExecRuns(home, W, run);
    if !IsThread(all, home(p)) {
      NoThreadNoStep(home, all, run, t);
      assert false;
    }
    ThreadAfter(home, all, run, p);
    j :| j < |run| && run[j].op == ThreadCreate(p);
  }

  lemma CreateWasTold(home: Home, target: Target<Object, Transition>, all: seq<Object>, run: seq<Transition>, j: nat, p: Tid)
    requires Traced(TheProgram(home), target, all).Exec(run) && j < |run| && run[j].op == ThreadCreate(p)
    requires AnswersAlike(target) && TellsChildren(target)
    ensures AnnouncedIn(target, run, p)
  {
    hide World.Exec, Reported;
    var P, W, q := TheProgram(home), Traced(TheProgram(home), target, all), run[j].tid;
    ExecPrefix(W, run, j);
    assert run[j] == Reported(P, target, run[..j], q);
    ReportOrigin(P, target, run[..j], q);
    var i: nat :| i < j && run[j] == target(run[..j][..i], 0, 0, run[..j][i]).next;
    assert run[..j][..i] == run[..i] && run[..j][i] == run[i];
    forall threads: nat, objects: nat
      ensures p < threads + target(run[..i], threads, objects, run[i]).newThreads
    {
      assert target(run[..i], threads, objects, run[i]).next == target(run[..i], 0, 0, run[i]).next;
    }
    assert Announces(target, run[..i], run[i], p);
  }

  /** What is asked of a traced program of mutexes, threads and global
      variables: it answers alike whenever asked, whatever the order of
      independent steps, tells of the objects and threads it uses, and makes
      well-defined calls only. */
  ghost predicate Traceable(home: Home, target: Target<Object, Transition>, all: seq<Object>) {
    && LawfulTarget(TheProgram(home), target) && AnswersAlike(target)
    && TellsObjects(target, all) && TellsChildren(target) && OnlyMainLives(home, all)
    && OrderBlind(Traced(TheProgram(home), target, all), target) && CallsProperly(Traced(TheProgram(home), target, all))
  }

  lemma TraceableIsTruthful(home: Home, target: Target<Object, Transition>, all: seq<Object>)
    requires Injective(home) && Traceable(home, target, all)
    ensures Truthful(TheProgram(home), target, all) && Traced(TheProgram(home), target, all).Deterministic()
  {
    hide World.Deterministic, World.Exec, LawfulTarget, AnswersAlike, TellsObjects, TellsThreads, TellsChildren, OrderBlind, CallsProperly;
    RelationIsLawful(home);
    ChildrenAreTold(home, target, all);
    TracedIsDeterministic(TheProgram(home), target, all);
  }

  /** Every deadlock of the traced program is found by a search that goes by its
      answers and is run to its end. */
  lemma AnsweredSearchFindsDeadlocks(home: Home, target: Target<Object, Transition>, all: seq<Object>, objects: seq<Object>,
                                     moves: seq<Move<Object, Transition>>, ms: seq<Machine<Object, Transition>>, w: seq<Transition>)
    requires Injective(home) && Traceable(home, target, all) && objects <= all
    requires IsDriven(TheProgram(home), target, objects, moves, ms) && Diligent(TheProgram(home), moves, ms)
    requires var W := Traced(TheProgram(home), target, all); W.Exec(w) && WellTyped(home, W, w) && Deadlocked(home, W, w)
    ensures var W := Traced(TheProgram(home), target, all);
            exists m: nat :: Visited(W, ms, w, m) && Deadlocked(home, W, ms[m].trans)
  {
    hide World.Deterministic, World.Lawful, World.Exec, Diligent, Mirrors, IsSearch, Answered, Deadlocked, WellTyped, LawfulRewind, LawfulCalls,
         Program.LawfulStore, Program.LawfulUndo, Visited, Traceable, Truthful;
    var W := Traced(TheProgram(home), target, all);
    TraceableIsTruthful(home, target, all);
    ProgramWorldIsLawful(home, W);
    AnsweredIsFollowed(TheProgram(home), target, all, objects, moves, ms);
    EveryDeadlockIsFound(home, W, objects, moves, ms, w);
  }

  // ----- the hypotheses can be met --------------------------------------

  /** Threads that start and are done, whatever they are asked. */
  ghost function Brief(): Target<Object, Transition> {
    (run: seq<Transition>, threads: nat, objects: nat, t: Transition) => Reply(Transition(t.tid, ThreadFinish), [], 0)
  }

  lemma BriefIsTraceable()
    ensures Injective(HOME) && Traceable(HOME, Brief(), [Thread(Alive)])
  {
    hide World.Exec;
    var P, all := TheProgram(HOME), [Thread(Alive)];
    var W := Traced(P, Brief(), all);
    forall run, p: Tid | W.Exec(run) && W.CanRun(run, p)
      ensures P.proper(W.After(run), W.pending(run, p))
    {
      ReportOrigin(P, Brief(), run, p);
    }
  }
}
