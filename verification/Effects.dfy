/** What the mutex, thread and global-variable transitions come to over a run.
    Each statement speaks of the steps of the run and of the objects at its
    start, not of the effect of single transitions. */
module Effects {
  import opened ClockVectors
  import opened Programs
  import opened Traces
  import opened Transitions

  // ----- steps of a run -------------------------------------------------

  /** A run of ready transitions from the objects s. */
  ghost predicate Runs(home: Home, s: seq<Object>, run: seq<Transition>) {
    IsRun(TheProgram(home), s, run)
  }

  ghost function After(home: Home, s: seq<Object>, run: seq<Transition>): seq<Object> {
    Replay(TheProgram(home), s, run)
  }

  lemma RunsStep(home: Home, s: seq<Object>, run: seq<Transition>, t: Transition)
    ensures Runs(home, s, run + [t]) <==>
              Runs(home, s, run) && Enabled(home, After(home, s, run), t) && Proper(home, After(home, s, run), t)
    ensures After(home, s, run + [t]) == Apply(home, After(home, s, run), t)
  {
    hide Enabled, Proper, Apply;
    IsRunStep(TheProgram(home), s, run, t);
  }

  lemma {:induction false} RunsPrefix(home: Home, s: seq<Object>, run: seq<Transition>, k: nat)
    requires Runs(home, s, run) && k <= |run|
    ensures Runs(home, s, run[..k])
    ensures k < |run| ==> Enabled(home, After(home, s, run[..k]), run[k]) && Proper(home, After(home, s, run[..k]), run[k])
    decreases |run|
  {
    hide Runs, Enabled, Proper, After;
    if k == |run| {
      assert run[..k] == run;
    } else {
      var n := |run| - 1;
      assert run == run[..n] + [run[n]] && run[..n][..k] == run[..k];
      RunsStep(home, s, run[..n], run[n]);
      if k < n {
        RunsPrefix(home, s, run[..n], k);
      }
    }
  }

  // ----- mutexes --------------------------------------------------------

  ghost predicate Frees(t: Transition, m: ObjId) {
    t.op == MutexInit(m) || t.op == MutexUnlock(m)
  }

  ghost predicate Takes(t: Transition, m: ObjId) {
    t.op == MutexLock(m) || t.op == MutexTrylock(m)
  }

  ghost predicate FreeFrom(free: bool, run: seq<Transition>, m: ObjId, from: nat) {
    && from <= |run| && (if from == 0 then free else Frees(run[from - 1], m))
    && forall k: nat | from <= k < |run| :: !Takes(run[k], m)
  }

  /** No thread has locked or trylocked the mutex since it was last initialised
      or unlocked, or at all where it was free at the start. */
  ghost predicate IsFree(free: bool, run: seq<Transition>, m: ObjId) {
    exists from: nat :: FreeFrom(free, run, m, from)
  }

  /** Step i takes the mutex: a lock, or a trylock that finds it free. */
  ghost predicate TakesHold(free: bool, run: seq<Transition>, m: ObjId, i: nat)
    requires i < |run|
  {
    run[i].op == MutexLock(m) || (run[i].op == MutexTrylock(m) && IsFree(free, run[..i], m))
  }

  ghost predicate HeldFrom(s: seq<Object>, run: seq<Transition>, m: ObjId, from: nat) {
    && from <= |run| && (if from == 0 then MutexIs(s, m, Locked) else TakesHold(MutexIs(s, m, Unlocked), run, m, from - 1))
    && forall k: nat | from <= k < |run| :: run[k].op != MutexUnlock(m)
  }

  /** Some step took the mutex, and it has not been unlocked since. */
  ghost predicate IsHeld(s: seq<Object>, run: seq<Transition>, m: ObjId) {
    exists from: nat :: HeldFrom(s, run, m, from)
  }

  ghost predicate Happened(run: seq<Transition>, op: Operation) {
    exists i: nat :: i < |run| && run[i].op == op
  }

  lemma HappenedStep(run: seq<Transition>, t: Transition, op: Operation)
    ensures Happened(run + [t], op) <==> Happened(run, op) || t.op == op
  {
    var r := run + [t];
    assert r[|run|] == t;
    if i: nat :| i < |run| && run[i].op == op {
      assert r[i] == run[i];
    }
  }

  lemma IsFreeStep(free: bool, run: seq<Transition>, t: Transition, m: ObjId)
    ensures IsFree(free, run + [t], m) <==> Frees(t, m) || (!Takes(t, m) && IsFree(free, run, m))
  {
    hide Frees, Takes;
    var r, n := run + [t], |run|;
    assert r[n] == t && forall k: nat | k < n :: r[k] == run[k];
    if IsFree(free, r, m) {
      var from: nat :| FreeFrom(free, r, m, from);
      if from <= n {
        assert !Takes(r[n], m);
        assert FreeFrom(free, run, m, from);
      }
    }
    if Frees(t, m) {
      assert FreeFrom(free, r, m, n + 1);
    } else if !Takes(t, m) && IsFree(free, run, m) {
      var from: nat :| FreeFrom(free, run, m, from);
      assert FreeFrom(free, r, m, from);
    }
  }

  lemma IsHeldStep(s: seq<Object>, run: seq<Transition>, t: Transition, m: ObjId)
    ensures IsHeld(s, run + [t], m)
            <==> || t.op == MutexLock(m) || (t.op == MutexTrylock(m) && IsFree(MutexIs(s, m, Unlocked), run, m))
                 || (t.op != MutexUnlock(m) && IsHeld(s, run, m))
  {
    hide IsFree;
    var r, n := run + [t], |run|;
    assert r[n] == t && r[..n] == run && forall k: nat | k < n :: r[k] == run[k] && r[..k] == run[..k];
    if IsHeld(s, r, m) {
      var from: nat :| HeldFrom(s, r, m, from);
      if from <= n {
        assert r[n].op != MutexUnlock(m);
        assert HeldFrom(s, run, m, from);
      }
    }
    if TakesHold(MutexIs(s, m, Unlocked), r, m, n) {
      assert HeldFrom(s, r, m, n + 1);
    } else if t.op != MutexUnlock(m) && IsHeld(s, run, m) {
      var from: nat :| HeldFrom(s, run, m, from);
      assert HeldFrom(s, r, m, from);
    }
  }

  lemma NoSteps(s: seq<Object>, free: bool, m: ObjId, op: Operation)
    ensures IsFree(free, [], m) <==> free
    ensures IsHeld(s, [], m) <==> MutexIs(s, m, Locked)
    ensures !Happened([], op)
  {
    assert FreeFrom(free, [], m, 0) <==> free;
    assert HeldFrom(s, [], m, 0) <==> MutexIs(s, m, Locked);
  }

  lemma StepOnMutex(home: Home, b: seq<Object>, t: Transition, m: ObjId)
    requires IsMutex(b, m) && Enabled(home, b, t) && Proper(home, b, t)
    ensures var b' := Apply(home, b, t);
            && IsMutex(b', m)
            && (MutexIs(b', m, Unlocked) <==> Frees(t, m) || (!Takes(t, m) && MutexIs(b, m, Unlocked)))
            && (MutexIs(b', m, Locked) <==>
                  || t.op == MutexLock(m) || (t.op == MutexTrylock(m) && MutexIs(b, m, Unlocked))
                  || (t.op != MutexUnlock(m) && MutexIs(b, m, Locked)))
            && (MutexIs(b', m, Undefined) <==> MutexIs(b, m, Undefined) && t.op != MutexInit(m))
  {
  }

  /** After any run a mutex is unlocked, locked or undefined exactly as the
      locks, trylocks, unlocks and initialisations of the run say. */
  lemma {:induction false} MutexAfter(home: Home, s: seq<Object>, run: seq<Transition>, m: ObjId)
    requires IsMutex(s, m) && Runs(home, s, run)
    ensures IsMutex(After(home, s, run), m)
    ensures MutexIs(After(home, s, run), m, Unlocked) <==> IsFree(MutexIs(s, m, Unlocked), run, m)
    ensures MutexIs(After(home, s, run), m, Locked) <==> IsHeld(s, run, m)
    ensures MutexIs(After(home, s, run), m, Undefined) <==> MutexIs(s, m, Undefined) && !Happened(run, MutexInit(m))
    decreases |run|
  {
    hide Runs, IsFree, IsHeld, Enabled, Proper, Apply, Happened;
    if run == [] {
      NoSteps(s, MutexIs(s, m, Unlocked), m, MutexInit(m));
    } else {
      var u, t := run[..|run| - 1], run[|run| - 1];
      assert run == u + [t];
      RunsStep(home, s, u, t);
      MutexAfter(home, s, u, m);
      StepOnMutex(home, After(home, s, u), t, m);
      IsFreeStep(MutexIs(s, m, Unlocked), u, t, m);
      IsHeldStep(s, u, t, m);
      HappenedStep(u, t, MutexInit(m));
    }
  }

  /** Mutual exclusion: between two steps that take one mutex it is unlocked. */
  lemma MutualExclusion(home: Home, s: seq<Object>, run: seq<Transition>, m: ObjId, i: nat, j: nat)
    requires IsMutex(s, m) && Runs(home, s, run) && i < j < |run|
    requires TakesHold(MutexIs(s, m, Unlocked), run, m, i) && TakesHold(MutexIs(s, m, Unlocked), run, m, j)
    ensures exists k: nat :: i < k < j && run[k].op == MutexUnlock(m)
  {
    hide IsFree, Runs, After, Proper;
    var r := run[..j];
    RunsPrefix(home, s, run, j);
    MutexAfter(home, s, r, m);
    assert MutexIs(After(home, s, r), m, Unlocked);
    assert r[..i] == run[..i];
    assert !IsHeld(s, r, m);
    assert !HeldFrom(s, r, m, i + 1);
  }

  // ----- threads --------------------------------------------------------

  ghost predicate Finished(run: seq<Transition>, p: Tid) {
    exists i: nat :: i < |run| && run[i] == Transition(p, ThreadFinish)
  }

  /** p was alive at the start or has been created, and has not finished. */
  ghost predicate Lives(home: Home, s: seq<Object>, run: seq<Transition>, p: Tid) {
    (ThreadIs(s, home(p), Alive) || Happened(run, ThreadCreate(p))) && !Finished(run, p)
  }

  lemma FinishedStep(run: seq<Transition>, t: Transition, p: Tid)
    ensures Finished(run + [t], p) <==> Finished(run, p) || t == Transition(p, ThreadFinish)
  {
    var r := run + [t];
    assert r[|run|] == t;
    if i: nat :| i < |run| && run[i] == Transition(p, ThreadFinish) {
      assert r[i] == run[i];
    }
  }

  lemma StepOnThread(home: Home, b: seq<Object>, t: Transition, p: Tid)
    requires Injective(home) && IsThread(b, home(p)) && Enabled(home, b, t) && Proper(home, b, t)
    ensures var b', x := Apply(home, b, t), home(p);
            && IsThread(b', x)
            && (ThreadIs(b', x, Alive) <==> (ThreadIs(b, x, Alive) || t.op == ThreadCreate(p)) && t != Transition(p, ThreadFinish))
            && (ThreadIs(b', x, Dead) <==> ThreadIs(b, x, Dead) || t == Transition(p, ThreadFinish))
            && (ThreadIs(b', x, Embryo) <==> ThreadIs(b, x, Embryo) && t.op != ThreadCreate(p))
  {
    assert t.tid != p ==> home(t.tid) != home(p);
    assert HasTarget(t.op) && t.op.target != p ==> home(t.op.target) != home(p);
  }

  /** After any run a thread is alive, dead or not yet created exactly as the
      creates and finishes of the run say. */
  lemma {:induction false} ThreadAfter(home: Home, s: seq<Object>, run: seq<Transition>, p: Tid)
    requires Injective(home) && IsThread(s, home(p)) && Runs(home, s, run)
    ensures IsThread(After(home, s, run), home(p))
    ensures ThreadIs(After(home, s, run), home(p), Alive) <==> Lives(home, s, run, p)
    ensures ThreadIs(After(home, s, run), home(p), Dead) <==> ThreadIs(s, home(p), Dead) || Finished(run, p)
    ensures ThreadIs(After(home, s, run), home(p), Embryo) <==> ThreadIs(s, home(p), Embryo) && !Happened(run, ThreadCreate(p))
    ensures Finished(run, p) ==> ThreadIs(s, home(p), Alive) || Happened(run, ThreadCreate(p))
    decreases |run|
  {
    hide Runs, Enabled, Proper, Apply, Finished, Happened;
    if run == [] {
      assert !Finished(run, p) && !Happened(run, ThreadCreate(p)) by { NothingRan(p, ThreadCreate(p)); }
    } else {
      var u, t := run[..|run| - 1], run[|run| - 1];
      assert run == u + [t];
      RunsStep(home, s, u, t);
      ThreadAfter(home, s, u, p);
      StepOnThread(home, After(home, s, u), t, p);
      FinishedStep(u, t, p);
      HappenedStep(u, t, ThreadCreate(p));
      if t == Transition(p, ThreadFinish) {
        EnabledIsAlive(home, After(home, s, u), t);
      }
      if t.op == ThreadCreate(p) {
        CreatedIsEmbryo(home, After(home, s, u), t);
      }
    }
  }

  lemma NothingRan(p: Tid, op: Operation)
    ensures !Finished([], p) && !Happened([], op)
  {
  }

  lemma EnabledIsAlive(home: Home, b: seq<Object>, t: Transition)
    requires Enabled(home, b, t)
    ensures ThreadIs(b, home(t.tid), Alive)
  {
  }

  lemma CreatedIsEmbryo(home: Home, b: seq<Object>, t: Transition)
    requires Proper(home, b, t) && t.op.ThreadCreate?
    ensures ThreadIs(b, home(t.op.target), Embryo)
  {
  }

  /** A join runs only after its target has finished. */
  lemma JoinFollowsFinish(home: Home, s: seq<Object>, run: seq<Transition>, j: nat, x: Tid)
    requires Injective(home) && Runs(home, s, run) && j < |run| && run[j].op == ThreadJoin(x)
    requires IsThread(s, home(x)) && !ThreadIs(s, home(x), Dead)
    ensures exists i: nat :: i < j && run[i] == Transition(x, ThreadFinish)
  {
    hide Runs, After, Proper;
    RunsPrefix(home, s, run, j);
    ThreadAfter(home, s, run[..j], x);
    var i: nat :| i < j && run[..j][i] == Transition(x, ThreadFinish);
    assert run[i] == Transition(x, ThreadFinish);
  }

  // ----- global variables -----------------------------------------------

  ghost predicate WritesTo(t: Transition, g: ObjId) {
    t.op.GlobalWrite? && t.op.global == g
  }

  ghost predicate WrittenLast(run: seq<Transition>, g: ObjId, i: nat) {
    i < |run| && WritesTo(run[i], g) && forall k: nat | i < k < |run| :: !WritesTo(run[k], g)
  }

  lemma StepOnGlobal(home: Home, b: seq<Object>, t: Transition, g: ObjId)
    requires IsGlobal(b, g)
    ensures IsGlobal(Apply(home, b, t), g)
    ensures WritesTo(t, g) ==> Apply(home, b, t)[g].value == t.op.written
    ensures !WritesTo(t, g) ==> Apply(home, b, t)[g] == b[g]
  {
  }

  /** The value of a global variable after a run is the one written last, or
      the one at the start where none was written. */
  lemma {:induction false} GlobalAfter(home: Home, s: seq<Object>, run: seq<Transition>, g: ObjId, i: nat)
    requires IsGlobal(s, g) && Runs(home, s, run)
    ensures IsGlobal(After(home, s, run), g)
    ensures WrittenLast(run, g, i) ==> After(home, s, run)[g].value == run[i].op.written
    ensures (forall k: nat | k < |run| :: !WritesTo(run[k], g)) ==> After(home, s, run)[g] == s[g]
    decreases |run|
  {
    hide Runs, Apply, Enabled, Proper, WritesTo;
    if run != [] {
      var n := |run| - 1;
      var u, t := run[..n], run[n];
      assert run == u + [t];
      RunsStep(home, s, u, t);
      GlobalAfter(home, s, u, g, i);
      StepOnGlobal(home, After(home, s, u), t, g);
      assert forall k: nat | k < n :: u[k] == run[k];
    }
  }

  // ----- what can run ---------------------------------------------------

  /** What a transition waits for, by the steps of the run so far. */
  ghost predicate Unblocked(home: Home, s: seq<Object>, run: seq<Transition>, t: Transition) {
    && Lives(home, s, run, t.tid)
    && (t.op.MutexLock? ==> IsFree(MutexIs(s, t.op.mutex, Unlocked), run, t.op.mutex))
    && (t.op.ThreadJoin? ==> ThreadIs(s, home(t.op.target), Dead) || Finished(run, t.op.target))
    && (t.op.ThreadFinish? ==> t.tid != MAIN_THREAD)
  }

  /** What makes a call well defined, by the steps of the run so far. */
  ghost predicate WellDefined(home: Home, s: seq<Object>, run: seq<Transition>, t: Transition) {
    && (t.op.MutexInit? ==> MutexIs(s, t.op.mutex, Undefined) && !Happened(run, MutexInit(t.op.mutex)))
    && (t.op.MutexUnlock? ==> IsHeld(s, run, t.op.mutex))
    && (t.op.ThreadCreate? ==> ThreadIs(s, home(t.op.target), Embryo) && !Happened(run, ThreadCreate(t.op.target)))
  }

  lemma {:induction false} TypesKept(home: Home, s: seq<Object>, run: seq<Transition>, t: Transition)
    ensures Typed(home, After(home, s, run), t) <==> Typed(home, s, t)
    ensures |After(home, s, run)| == |s|
    decreases |run|
  {
    hide Apply;
    if run != [] {
      var u, x := run[..|run| - 1], run[|run| - 1];
      TypesKept(home, s, u, t);
      ApplyFrame(home, After(home, s, u), x);
    }
  }

  /** A transition on objects of the right kinds is enabled after a run exactly
      when its thread lives and what it waits for has come: a free mutex for a
      lock, a finished thread for a join. */
  lemma EnabledAfter(home: Home, s: seq<Object>, run: seq<Transition>, t: Transition)
    requires Injective(home) && Runs(home, s, run) && Typed(home, s, t)
    ensures Enabled(home, After(home, s, run), t) <==> Unblocked(home, s, run, t)
    ensures Proper(home, After(home, s, run), t) <==> WellDefined(home, s, run, t)
  {
    hide Runs, After, IsFree, IsHeld, Finished, Happened;
    TypesKept(home, s, run, t);
    ThreadAfter(home, s, run, t.tid);
    if IsMutexOp(t.op) {
      MutexAfter(home, s, run, t.op.mutex);
    }
    if HasTarget(t.op) {
      ThreadAfter(home, s, run, t.op.target);
    }
  }

  /** So the runs of the program are told by their steps alone. */
  lemma {:induction false} RunsIff(home: Home, s: seq<Object>, run: seq<Transition>)
    requires Injective(home) && forall i | 0 <= i < |run| :: Typed(home, s, run[i])
    ensures Runs(home, s, run)
            <==> forall i: nat | i < |run| :: Unblocked(home, s, run[..i], run[i]) && WellDefined(home, s, run[..i], run[i])
    decreases |run|
  {
    hide Runs, After, Unblocked, WellDefined, Enabled, Proper, Apply;
    if run == [] {
      NoRun(home, s);
    } else {
      var n := |run| - 1;
      var u, t := run[..n], run[n];
      assert run == u + [t] && forall i: nat | i < n :: u[i] == run[i] && u[..i] == run[..i];
      RunsIff(home, s, u);
      RunsStep(home, s, u, t);
      if Runs(home, s, u) {
        EnabledAfter(home, s, u, t);
      }
    }
  }

  lemma NoRun(home: Home, s: seq<Object>)
    ensures Runs(home, s, [])
  {
  }
}
