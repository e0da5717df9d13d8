/** What the engine needs to know about the program under test: the virtual
    methods of a transition, and the laws the engine relies on. */
module Programs {
  import opened ClockVectors

  /** O is the type of visible objects, T the type of transitions.

      tid        the thread that runs the transition
      dep, coen  dependence and co-enabledness of two transitions
      start      the initial transition of a thread
      enabled    can the transition run, given the objects
      apply      the effect on the objects, unapply the declared inverse
      reversible is unapply supported
      counts     does the transition count against the thread's depth
      fits       are all the objects it refers to among the first n registered
      proper     is the call well defined in the C API (no unlock of an unlocked mutex, ...) */
  datatype Program<!O(!new), !T(!new)> = Program(
    tid: T -> Tid,
    dep: (T, T) -> bool,
    coen: (T, T) -> bool,
    start: Tid -> T,
    enabled: (seq<O>, T) -> bool,
    apply: (seq<O>, T) -> seq<O>,
    unapply: (seq<O>, T) -> seq<O>,
    reversible: T -> bool,
    counts: T -> bool,
    fits: (nat, T) -> bool,
    proper: (seq<O>, T) -> bool)
  {
    ghost predicate Ready(s: seq<O>, t: T) {
      enabled(s, t) && proper(s, t)
    }

    /** The laws of the relation: symmetric, a thread's own transitions are
        dependent and never co-enabled, and a thread's start is never both
        dependent and co-enabled with another transition. */
    ghost predicate LawfulRelation() {
      && (forall a, b :: dep(a, b) == dep(b, a))
      && (forall a, b :: tid(a) == tid(b) ==> dep(a, b) && !coen(a, b))
      && (forall p :: tid(start(p)) == p)
      && (forall p, t :: dep(t, start(p)) ==> !coen(t, start(p)))
    }

    /** The laws of the store: a transition keeps the number of objects, and
        neither reads nor writes an object registered after it was built. */
    ghost predicate LawfulStore() {
      && (forall s, t :: |apply(s, t)| == |s|)
      && (forall m: nat, n: nat, t | m <= n && fits(m, t) :: fits(n, t))
      && (forall s, e, t | fits(|s|, t) :: apply(s + e, t) == apply(s, t) + e)
      && (forall s, e, t | fits(|s|, t) :: enabled(s + e, t) == enabled(s, t))
    }

    /** Undoing a reversible transition that was ready is exact. */
    ghost predicate LawfulUndo() {
      && (forall s, t | reversible(t) && Ready(s, t) :: unapply(apply(s, t), t) == s)
      && (forall p :: !reversible(start(p)))
    }

    /** Independent transitions can be exchanged. */
    ghost predicate LawfulExchange() {
      forall s, a, b | !dep(a, b) && Ready(s, a) && Ready(apply(s, a), b) ::
        Exchanges(s, a, b)
    }

    /** Nothing that depends on the transition is co-enabled with it. */
    ghost predicate Calm(t: T) {
      forall u :: dep(u, t) ==> !coen(u, t)
    }

    ghost predicate Exchanges(s: seq<O>, a: T, b: T) {
      && Ready(s, b)
      && Ready(apply(s, b), a)
      && apply(apply(s, b), a) == apply(apply(s, a), b)
    }
  }

  /** The objects after a run. */
  function Replay<O(!new), T(!new)>(P: Program<O, T>, s: seq<O>, run: seq<T>): seq<O>
  {
    if run == [] then s else P.apply(Replay(P, s, run[..|run| - 1]), run[|run| - 1])
  }

  lemma ReplayStep<O(!new), T(!new)>(P: Program<O, T>, s: seq<O>, run: seq<T>, t: T)
    ensures Replay(P, s, run + [t]) == P.apply(Replay(P, s, run), t)
  {
    assert (run + [t])[..|run|] == run;
  }

  /** Objects registered later do not disturb a replay. */
  lemma {:induction false} ReplayExtends<O(!new), T(!new)>(P: Program<O, T>, s: seq<O>, e: seq<O>, run: seq<T>)
    requires P.LawfulStore()
    requires forall i | 0 <= i < |run| :: P.fits(|s|, run[i])
    ensures |Replay(P, s, run)| == |s|
    ensures Replay(P, s + e, run) == Replay(P, s, run) + e
  {
    if run != [] {
      ReplayExtends(P, s, e, run[..|run| - 1]);
    }
  }

  lemma {:induction false} ReplayJoins<O(!new), T(!new)>(P: Program<O, T>, s: seq<O>, a: seq<T>, b: seq<T>)
    ensures Replay(P, Replay(P, s, a), b) == Replay(P, s, a + b)
  {
    if b == [] {
      assert a + b == a;
    } else {
      var n := |b| - 1;
      assert (a + b)[..|a| + n] == a + b[..n];
      ReplayJoins(P, s, a, b[..n]);
    }
  }

  /** The run can be performed from s, with well-defined calls, and undone
      again step by step. */
  ghost predicate PerformsUndoably<O(!new), T(!new)>(P: Program<O, T>, s: seq<O>, run: seq<T>) {
    forall i: nat | i < |run| :: P.reversible(run[i]) && P.Ready(Replay(P, s, run[..i]), run[i])
  }

  /** The law of reversible transitions: in a run of them, one that depends on
      the first step, by another thread, conflicts with nothing. */
  ghost predicate LawfulRewind<O(!new), T(!new)>(P: Program<O, T>) {
    forall s, run | run != [] && PerformsUndoably(P, s, run) && P.dep(run[0], run[|run| - 1]) && P.tid(run[0]) != P.tid(run[|run| - 1]) ::
      P.Calm(run[|run| - 1])
  }
}
