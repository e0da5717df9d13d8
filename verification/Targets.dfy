/** The traced program as the engine meets it: asked what a thread does next, it
    answers. The executions it has are those its answers describe, and a search
    that goes by its answers is a search of them. */
module Targets {
  import opened ClockVectors
  import opened Limits
  import opened Programs
  import opened Chains
  import opened Machines
  import opened Obligations
  import opened Rewinding
  import opened Sleeping
  import opened Searches
  import opened Executions
  import opened Histories

  /** The program under test: given the run so far, how many threads and
      objects the model knows, and the transition that is released, what the
      thread reports when it reaches its next visible operation. */
  type Target<!O(!new), !T(!new)> = (seq<T>, nat, nat, T) -> Reply<O, T>

  /** A thread released at a transition the model can hold reports its own next
      one, on objects the model knows or is told of, and there are never more
      threads than the tables hold. */
  ghost predicate LawfulTarget<O(!new), T(!new)>(P: Program<O, T>, target: Target<O, T>) {
    && (forall run, threads: nat, objects: nat, t :: P.tid(target(run, threads, objects, t).next) == P.tid(t))
    && forall run, threads: nat, objects: nat, t | P.fits(objects, t) :: LawfulReply(P, threads, objects, t, target(run, threads, objects, t))
  }

  ghost predicate LawfulReply<O(!new), T(!new)>(P: Program<O, T>, threads: nat, objects: nat, t: T, reply: Reply<O, T>) {
    && (threads <= MAX_THREADS ==> threads + reply.newThreads <= MAX_THREADS)
    && P.fits(objects + |reply.objects|, reply.next)
    && forall q: nat | threads <= q < threads + reply.newThreads :: P.fits(objects + |reply.objects|, P.start(q))
  }

  // ----- what the answers describe --------------------------------------

  /** What thread p is about to do after a run: what it answered when it ran
      last, or its start. */
  ghost function Reported<O(!new), T(!new)>(P: Program<O, T>, target: Target<O, T>, run: seq<T>, p: Tid): T {
    if run == [] then P.start(p)
    else
      var n := |run| - 1;
      if P.tid(run[n]) == p then target(run[..n], 0, 0, run[n]).next else Reported(P, target, run[..n], p)
  }

  /** The traced process. */
  ghost function Traced<O(!new), T(!new)>(P: Program<O, T>, target: Target<O, T>, all: seq<O>): World<O, T> {
    World(P, all, (run: seq<T>, p: Tid) => Reported(P, target, run, p))
  }

  /** What a thread does next does not depend on what the model knows. */
  ghost predicate AnswersAlike<O(!new), T(!new)>(target: Target<O, T>) {
    forall run, a: nat, b: nat, c: nat, d: nat, t :: target(run, a, b, t).next == target(run, c, d, t).next
  }

  /** The objects told of are the ones of the program that come next. */
  ghost predicate TellsObjects<O(!new), T(!new)>(target: Target<O, T>, all: seq<O>) {
    forall run, threads: nat, objects: nat, t | objects <= |all| :: target(run, threads, objects, t).objects <= all[objects..]
  }

  /** The answer to t after run makes thread p known, whatever was known. */
  ghost predicate Announces<O(!new), T(!new)>(target: Target<O, T>, run: seq<T>, t: T, p: Tid) {
    forall threads: nat, objects: nat :: p < threads + target(run, threads, objects, t).newThreads
  }

  ghost predicate AnnouncedIn<O(!new), T(!new)>(target: Target<O, T>, run: seq<T>, p: Tid) {
    exists i: nat :: i < |run| && Announces(target, run[..i], run[i], p)
  }

  /** Any thread that can run, but the main one, was announced before. */
  ghost predicate TellsThreads<O(!new), T(!new)>(W: World<O, T>, target: Target<O, T>) {
    forall run, p: Tid | W.Exec(run) && W.CanRun(run, p) :: p == 0 || AnnouncedIn(target, run, p)
  }

  /** The answers are those of one program on the given objects. */
  ghost predicate Truthful<O(!new), T(!new)>(P: Program<O, T>, target: Target<O, T>, all: seq<O>) {
    AnswersAlike(target) && TellsObjects(target, all) && TellsThreads(Traced(P, target, all), target)
  }

  /** What a thread does next depends neither on the order of independent steps
      before it, nor on an independent step just before its own. */
  ghost predicate OrderBlind<O(!new), T(!new)>(W: World<O, T>, target: Target<O, T>) {
    && (forall u, x, y, v, t | !W.program.dep(x, y) && W.Exec(u + [x] + [y] + v + [t]) ::
          target(u + [x] + [y] + v, 0, 0, t).next == target(u + [y] + [x] + v, 0, 0, t).next)
    && (forall u, x, y | !W.program.dep(x, y) && W.Exec(u + [x] + [y]) ::
          target(u + [x], 0, 0, y).next == target(u, 0, 0, y).next && target(u, 0, 0, x).next == target(u + [y], 0, 0, x).next)
  }

  ghost predicate CallsProperly<O(!new), T(!new)>(W: World<O, T>) {
    forall run, p | W.Exec(run) && W.CanRun(run, p) :: W.program.proper(W.After(run), W.pending(run, p))
  }

  lemma ReportedStep<O(!new), T(!new)>(P: Program<O, T>, target: Target<O, T>, run: seq<T>, t: T, p: Tid)
    requires AnswersAlike(target)
    ensures P.tid(t) != p ==> Reported(P, target, run + [t], p) == Reported(P, target, run, p)
    ensures P.tid(t) == p ==> forall a: nat, b: nat :: Reported(P, target, run + [t], p) == target(run, a, b, t).next
  {
    assert (run + [t])[..|run|] == run;
  }

  lemma {:induction false} ReportedOfAbsent<O(!new), T(!new)>(P: Program<O, T>, target: Target<O, T>, run: seq<T>, p: Tid)
    requires forall i: nat | i < |run| :: P.tid(run[i]) != p
    ensures Reported(P, target, run, p) == P.start(p)
  {
    if run != [] {
      ReportedOfAbsent(P, target, run[..|run| - 1], p);
    }
  }

  lemma {:induction false} ReportedIsOwn<O(!new), T(!new)>(P: Program<O, T>, target: Target<O, T>, run: seq<T>, p: Tid)
    requires P.LawfulRelation() && LawfulTarget(P, target)
    ensures P.tid(Reported(P, target, run, p)) == p
  {
    if run != [] {
      ReportedIsOwn(P, target, run[..|run| - 1], p);
    }
  }

  lemma {:induction false} ReportedAfterSwap<O(!new), T(!new)>(P: Program<O, T>, target: Target<O, T>, all: seq<O>, u: seq<T>, x: T, y: T, v: seq<T>, p: Tid)
    requires P.LawfulRelation() && AnswersAlike(target) && OrderBlind(Traced(P, target, all), target)
    requires !P.dep(x, y) && Traced(P, target, all).Exec(u + [x] + [y] + v)
    ensures Reported(P, target, u + [x] + [y] + v, p) == Reported(P, target, u + [y] + [x] + v, p)
    decreases |v|
  {
    hide World.Exec, Reported;
    var W := Traced(P, target, all);
    assert P.tid(x) != P.tid(y);
    if v == [] {
      assert u + [x] + [y] + v == u + [x] + [y] && u + [y] + [x] + v == u + [y] + [x];
      ReportedStep(P, target, u + [x], y, p);
      ReportedStep(P, target, u, x, p);
      ReportedStep(P, target, u + [y], x, p);
      ReportedStep(P, target, u, y, p);
    } else {
      var v', t := v[..|v| - 1], v[|v| - 1];
      assert u + [x] + [y] + v == u + [x] + [y] + v' + [t] && u + [y] + [x] + v == u + [y] + [x] + v' + [t];
      ReportedStep(P, target, u + [x] + [y] + v', t, p);
      ReportedStep(P, target, u + [y] + [x] + v', t, p);
      if P.tid(t) != p {
        ExecStep(W, u + [x] + [y] + v', t);
        ReportedAfterSwap(P, target, all, u, x, y, v', p);
      }
    }
  }

  /** So the process the answers describe is deterministic. */
  lemma TracedIsDeterministic<O(!new), T(!new)>(P: Program<O, T>, target: Target<O, T>, all: seq<O>)
    requires P.LawfulRelation() && LawfulTarget(P, target) && AnswersAlike(target)
    requires OrderBlind(Traced(P, target, all), target) && CallsProperly(Traced(P, target, all))
    ensures Traced(P, target, all).Deterministic()
  {
    hide World.Exec, LawfulTarget, AnswersAlike, OrderBlind;
    var W := Traced(P, target, all);
    forall run, p
      ensures P.tid(W.pending(run, p)) == p
    {
      ReportedIsOwn(P, target, run, p);
    }
    forall run, x, q | P.tid(x) != q
      ensures W.pending(run + [x], q) == W.pending(run, q)
    {
      ReportedStep(P, target, run, x, q);
    }
    forall u, x, y, v, p | !P.dep(x, y) && W.Exec(u + [x] + [y] + v)
      ensures W.pending(u + [x] + [y] + v, p) == W.pending(u + [y] + [x] + v, p)
    {
      ReportedAfterSwap(P, target, all, u, x, y, v, p);
    }
  }

  /** Where a report comes from: the thread's start, or its answer when it ran
      last. */
  lemma {:induction false} ReportOrigin<O(!new), T(!new)>(P: Program<O, T>, target: Target<O, T>, run: seq<T>, p: Tid)
    ensures || Reported(P, target, run, p) == P.start(p)
            || exists i: nat :: i < |run| && P.tid(run[i]) == p && Reported(P, target, run, p) == target(run[..i], 0, 0, run[i]).next
  {
    if run != [] {
      var n := |run| - 1;
      if P.tid(run[n]) != p {
        ReportOrigin(P, target, run[..n], p);
        if i: nat :| i < n && P.tid(run[..n][i]) == p && Reported(P, target, run[..n], p) == target(run[..n][..i], 0, 0, run[..n][i]).next {
          assert run[..n][..i] == run[..i] && run[..n][i] == run[i];
        }
      }
    }
  }

  // ----- a search that goes by the answers ------------------------------

  /** The thread that runs was released at what it was about to do at the state
      it runs from, after the run that leads there. */
  ghost predicate Answers<O(!new), T(!new)>(P: Program<O, T>, target: Target<O, T>, m: Machine<O, T>, move: Move<O, T>) {
    var k := if move.Run? then |m.trans| else move.k;
    && k <= |m.trans| && move.p < |m.next|
    && move.reply == target(m.trans[..k], |m.next|, |m.initial|, NextAt(P, m, k, move.p))
  }

  /** Every reply in a search is the target's answer. */
  ghost predicate Answered<O(!new), T(!new)>(P: Program<O, T>, target: Target<O, T>, moves: seq<Move<O, T>>, ms: seq<Machine<O, T>>) {
    |ms| == |moves| + 1 && forall i: nat | i < |moves| :: Answers(P, target, ms[i], moves[i])
  }

  /** A search that goes by the answers. */
  ghost predicate IsDriven<O(!new), T(!new)>(P: Program<O, T>, target: Target<O, T>, objects: seq<O>, moves: seq<Move<O, T>>, ms: seq<Machine<O, T>>) {
    IsSearch(P, objects, moves, ms) && Answered(P, target, moves, ms)
  }

  /** At every state on the stack, every thread was about to do what it had
      answered. */
  ghost predicate Told<O(!new), T(!new)>(P: Program<O, T>, target: Target<O, T>, m: Machine<O, T>) {
    forall k: nat, q: Tid | k <= |m.trans| && q < |m.next| :: NextAt(P, m, k, q) == Reported(P, target, m.trans[..k], q)
  }

  /** Threads announced by a run are known; objects are those of the program. */
  ghost predicate Informed<O(!new), T(!new)>(target: Target<O, T>, all: seq<O>, m: Machine<O, T>) {
    && m.initial <= all && 0 < |m.next|
    && forall i: nat, p: Tid | i < |m.trans| && Announces(target, m.trans[..i], m.trans[i], p) :: p < |m.next|
  }

  /** The reply is the answer of thread p, released at what it is about to do
      after the run on the stack. */
  ghost predicate Released<O(!new), T(!new)>(target: Target<O, T>, c: Machine<O, T>, p: Tid, reply: Reply<O, T>) {
    p < |c.next| && reply == target(c.trans, |c.next|, |c.initial|, c.next[p])
  }

  lemma StepKeepsTold<O(!new), T(!new)>(P: Program<O, T>, target: Target<O, T>, c: Machine<O, T>, p: Tid, reply: Reply<O, T>)
    requires P.LawfulRelation() && AnswersAlike(target) && Shape(P, c) && Told(P, target, c) && Released(target, c, p, reply)
    ensures Told(P, target, Simulate(P, c, p, reply))
  {
    hide Reported, NextAt, Program.LawfulRelation;
    var s, n := Simulate(P, c, p, reply), |c.trans|;
    assert s.trans == c.trans + [c.next[p]] && P.tid(c.next[p]) == p;
    forall k: nat, q: Tid | k <= |s.trans| && q < |s.next|
      ensures NextAt(P, s, k, q) == Reported(P, target, s.trans[..k], q)
    {
      if k <= n {
        assert s.trans[..k] == c.trans[..k];
      } else {
        assert s.trans[..k] == s.trans;
      }
      if q >= |c.next| {
        NextAtOfNewThread(P, c, p, reply, k, q);
        ReportedOfAbsent(P, target, s.trans[..k], q);
      } else if k <= n {
        NextAtAfterStep(P, c, p, reply, k, q);
      } else {
        assert c.trans[..n] == c.trans && NextAt(P, c, n, q) == Reported(P, target, c.trans[..n], q);
        NextAtTop(P, c, q);
        NextAtTop(P, s, q);
        ReportedStep(P, target, c.trans, c.next[p], q);
      }
    }
  }

  lemma NextAtTop<O(!new), T(!new)>(P: Program<O, T>, m: Machine<O, T>, q: Tid)
    requires q < |m.next|
    ensures NextAt(P, m, |m.trans|, q) == m.next[q]
  {
  }

  lemma UpdateKeepsTold<O(!new), T(!new)>(P: Program<O, T>, target: Target<O, T>, all: seq<O>, s: Machine<O, T>, m': Machine<O, T>)
    requires Shape(P, s) && s.trans != [] && Updated(P, s, m') && Told(P, target, s) && Informed(target, all, s)
    ensures Told(P, target, m') && Informed(target, all, m')
  {
    hide Reported, NextAt, Announces;
    assert m'.trans == s.trans && m'.next == s.next && m'.initial == s.initial;
    forall k: nat, q: Tid | k <= |m'.trans| && q < |m'.next|
      ensures NextAt(P, m', k, q) == Reported(P, target, m'.trans[..k], q)
    {
      NextAtOfUpdate(P, s, m', k, q);
    }
  }

  lemma StepKeepsInformed<O(!new), T(!new)>(P: Program<O, T>, target: Target<O, T>, all: seq<O>, c: Machine<O, T>, p: Tid, reply: Reply<O, T>)
    requires TellsObjects(target, all) && Shape(P, c) && Informed(target, all, c) && Released(target, c, p, reply)
    ensures Informed(target, all, Simulate(P, c, p, reply))
  {
    var s, n := Simulate(P, c, p, reply), |c.trans|;
    assert s.trans == c.trans + [c.next[p]] && |s.next| == |c.next| + reply.newThreads;
    assert all == c.initial + all[|c.initial|..];
    forall i: nat, q: Tid | i < |s.trans| && Announces(target, s.trans[..i], s.trans[i], q)
      ensures q < |s.next|
    {
      assert s.trans[..i] == c.trans[..i];
      if i == n {
        assert c.trans[..n] == c.trans;
      } else {
        assert s.trans[i] == c.trans[i];
      }
    }
  }

  lemma CutKeepsTold<O(!new), T(!new)>(P: Program<O, T>, target: Target<O, T>, all: seq<O>, m: Machine<O, T>, c: Machine<O, T>, k: nat, p: Tid)
    requires Shape(P, m) && 1 <= k <= |m.trans| && IsCut(P, m, c, k, p) && Told(P, target, m) && Informed(target, all, m)
    ensures Shape(P, c) && Told(P, target, c) && Informed(target, all, c)
  {
    hide Reported, NextAt, Announces, Shape;
    CutKeepsShape(P, m, c, k, p);
    CutKeepsPending(P, m, c, k, p);
    forall i: nat, q: Tid | i < |c.trans| && Announces(target, c.trans[..i], c.trans[i], q)
      ensures q < |c.next|
    {
      assert c.trans[..i] == m.trans[..i] && c.trans[i] == m.trans[i];
    }
  }

  lemma MoveKeepsTold<O(!new), T(!new)>(P: Program<O, T>, target: Target<O, T>, all: seq<O>, m: Machine<O, T>, move: Move<O, T>, m': Machine<O, T>)
    requires P.LawfulRelation() && AnswersAlike(target) && TellsObjects(target, all)
    requires Makes(P, m, move, m') && Answers(P, target, m, move) && Told(P, target, m) && Informed(target, all, m)
    ensures Told(P, target, m') && Informed(target, all, m')
  {
    hide Told, Informed, Updated, Reflected, ReplyFits, NextAt, AnswersAlike, TellsObjects, Program.LawfulRelation;
    var p, reply := move.p, move.reply;
    var c := if move.Run? then m else Rewound(P, m, move.k, p);
    if move.Branch? {
      PoppedIsTransparent(P, m, move.k, p);
      CutKeepsTold(P, target, all, m, c, move.k, p);
    } else {
      assert m.trans[..|m.trans|] == m.trans;
      NextAtTop(P, m, p);
    }
    assert Released(target, c, p, reply);
    StepKeepsTold(P, target, c, p, reply);
    StepKeepsInformed(P, target, all, c, p, reply);
    SimulateGrows(P, c, p, reply);
    UpdateKeepsTold(P, target, all, Simulate(P, c, p, reply), m');
  }

  lemma SimulateGrows<O(!new), T(!new)>(P: Program<O, T>, c: Machine<O, T>, p: Tid, reply: Reply<O, T>)
    requires Shape(P, c) && p < |c.next|
    ensures Simulate(P, c, p, reply).trans != []
  {
  }

  /** In every search that goes by the answers, at every state on the stack
      every thread is about to do what it has answered, and every thread that
      was announced is known. */
  lemma {:induction false} SearchIsTold<O(!new), T(!new)>(P: Program<O, T>, target: Target<O, T>, all: seq<O>, objects: seq<O>,
                                                          moves: seq<Move<O, T>>, ms: seq<Machine<O, T>>, n: nat)
    requires IsDriven(P, target, objects, moves, ms) && n < |ms|
    requires AnswersAlike(target) && TellsObjects(target, all) && objects <= all
    ensures Told(P, target, ms[n]) && Informed(target, all, ms[n])
  {
    hide Told, Informed, Makes, Answers, AnswersAlike, TellsObjects, Program.LawfulRelation, Program.LawfulStore, Start;
    if n == 0 {
      StartIsTold(P, target, all, objects);
    } else {
      SearchIsTold(P, target, all, objects, moves, ms, n - 1);
      assert Answers(P, target, ms[n - 1], moves[n - 1]);
      MoveKeepsTold(P, target, all, ms[n - 1], moves[n - 1], ms[n]);
    }
  }

  lemma StartIsTold<O(!new), T(!new)>(P: Program<O, T>, target: Target<O, T>, all: seq<O>, objects: seq<O>)
    requires objects <= all
    ensures Told(P, target, Start(P, objects)) && Informed(target, all, Start(P, objects))
  {
    var m := Start(P, objects);
    assert m.trans[..0] == [];
  }

  // ----- it is a search of the traced process ---------------------------

  lemma ToldIsTracked<O(!new), T(!new)>(P: Program<O, T>, target: Target<O, T>, all: seq<O>, m: Machine<O, T>)
    requires Told(P, target, m) && Informed(target, all, m)
    ensures Tracks(Traced(P, target, all), m)
  {
    hide Reported, NextAt;
    assert m.trans[..|m.trans|] == m.trans;
    forall p: Tid | p < |m.next|
      ensures m.next[p] == Reported(P, target, m.trans, p)
    {
      NextAtTop(P, m, p);
    }
  }

  lemma InformedMirrors<O(!new), T(!new)>(P: Program<O, T>, target: Target<O, T>, all: seq<O>, m: Machine<O, T>)
    requires Tracks(Traced(P, target, all), m) && Informed(target, all, m)
    requires TellsThreads(Traced(P, target, all), target) && Traced(P, target, all).Exec(m.trans)
    ensures Mirrors(Traced(P, target, all), m)
  {
    hide World.Exec, World.CanRun, Tracks, Announces, Traced;
  }

  /** A search that goes by the answers of a truthful target is a search of the
      process those answers describe. */
  lemma AnsweredIsFollowed<O(!new), T(!new)>(P: Program<O, T>, target: Target<O, T>, all: seq<O>, objects: seq<O>,
                                             moves: seq<Move<O, T>>, ms: seq<Machine<O, T>>)
    requires IsDriven(P, target, objects, moves, ms) && Truthful(P, target, all) && objects <= all
    requires Traced(P, target, all).Lawful() && P.LawfulUndo() && LawfulRewind(P) && LawfulCalls(P)
    ensures Follows(Traced(P, target, all), objects, moves, ms)
  {
    hide IsSearch, Answered, Told, Informed, Tracks, Mirrors, AnswersAlike, TellsObjects, TellsThreads, Program.LawfulUndo, LawfulRewind, LawfulCalls, World.Lawful, World.Exec;
    var W := Traced(P, target, all);
    forall n: nat | n < |ms|
      ensures Tracks(W, ms[n]) && Informed(target, all, ms[n])
    {
      SearchIsTold(P, target, all, objects, moves, ms, n);
      ToldIsTracked(P, target, all, ms[n]);
    }
    assert Tracked(W, objects, moves, ms);
    forall n: nat | n < |ms|
      ensures Mirrors(W, ms[n])
    {
      FollowsFacts(W, objects, moves, ms, n);
      InformedMirrors(P, target, all, ms[n]);
    }
  }
}
