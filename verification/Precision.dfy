/** How fine the dependence relation of mutex and global-variable transitions
    is: two of them by different threads are reported dependent only where some
    state shows why, and co-enabled only where some state has both ready, with
    the exceptions named. */
module Precision {
  import opened ClockVectors
  import opened Programs
  import opened Transitions

  /** What a thread learns from its transition: whether a trylock locked, and
      the value read. */
  datatype Outcome = Nothing | Locks(got: bool) | Value(read: nat)

  function Learns(s: seq<Object>, t: Transition): Outcome {
    match t.op
    case MutexTrylock(m) => Locks(MutexIs(s, m, Unlocked))
    case GlobalRead(g) => if IsGlobal(s, g) then Value(s[g].value) else Nothing
    case MutexInit(_) => Nothing
    case MutexLock(_) => Nothing
    case MutexUnlock(_) => Nothing
    case ThreadCreate(_) => Nothing
    case ThreadStart => Nothing
    case ThreadFinish => Nothing
    case ThreadJoin(_) => Nothing
    case GlobalWrite(_, _) => Nothing
  }

  /** One of the two changes what the other does, learns, or whether it can
      run. */
  ghost predicate Interfere(home: Home, s: seq<Object>, a: Transition, b: Transition) {
    || !IndependentAt(home, s, a, b)
    || (Enabled(home, s, a) && Enabled(home, s, b)
        && (Learns(Apply(home, s, a), b) != Learns(s, b) || Learns(Apply(home, s, b), a) != Learns(s, a)))
  }

  lemma LearnsOnlyOfTouched(home: Home, a: seq<Object>, b: seq<Object>, t: Transition)
    requires AgreeOn(a, b, Touches(home, t))
    ensures Learns(a, t) == Learns(b, t)
  {
    assert IsMutexOp(t.op) ==> t.op.mutex in Touches(home, t);
    assert IsGlobalOp(t.op) ==> t.op.global in Touches(home, t);
  }

  /** Transitions reported independent do not interfere in what they learn
      either, in whatever state. */
  lemma IndependentLearnAlike(home: Home, s: seq<Object>, a: Transition, b: Transition)
    requires Injective(home) && !Dependent(a, b) && Typed(home, s, a) && Typed(home, s, b)
    ensures Learns(Apply(home, s, a), b) == Learns(s, b) && Learns(Apply(home, s, b), a) == Learns(s, a)
    ensures Interfere(home, s, a, b) <==> CreateJoinClash(home, s, a, b)
  {
    hide Apply, Enabled, Typed, Dependent, Changes, Touches, IndependentAt, CreateJoinClash, Learns;
    RelationIsValid(home, s, a, b);
    IndependentAreDisjoint(home, s, a, b);
    if SharesHarmlessly(a, b) {
      LearnsNothing(Apply(home, s, a), s, b);
      LearnsNothing(Apply(home, s, b), s, a);
    } else {
      ApplyFrame(home, s, a);
      ApplyFrame(home, s, b);
      LearnsOnlyOfTouched(home, Apply(home, s, a), s, b);
      LearnsOnlyOfTouched(home, Apply(home, s, b), s, a);
    }
  }

  lemma LearnsNothing(a: seq<Object>, b: seq<Object>, t: Transition)
    requires t.op.MutexUnlock? || HasTarget(t.op)
    ensures Learns(a, t) == Learns(b, t)
  {
  }

  // ----- no finer relation would do -------------------------------------

  predicate OnMutexOrGlobal(t: Transition) {
    IsMutexOp(t.op) || IsGlobalOp(t.op)
  }

  function ObjectOf(t: Transition): ObjId
    requires OnMutexOrGlobal(t)
  {
    if IsMutexOp(t.op) then t.op.mutex else t.op.global
  }

  /** Both leave the mutex unlocked, or the variable with one value, whichever
      comes first. */
  predicate LeaveTheSame(a: Transition, b: Transition) {
    || ((a.op.MutexInit? || a.op.MutexUnlock?) && (b.op.MutexInit? || b.op.MutexUnlock?))
    || (a.op.GlobalWrite? && b.op.GlobalWrite? && a.op.written == b.op.written)
  }

  /** A state with the two threads alive, and the given objects at x and y. */
  function Stage(home: Home, a: Tid, b: Tid, x: ObjId, o: Object, y: ObjId, q: Object): (s: seq<Object>)
    requires x == y ==> o == q
    ensures x < |s| && y < |s| && home(a) < |s| && home(b) < |s| && s[x] == o && s[y] == q
    ensures home(a) != x && home(a) != y ==> s[home(a)] == Thread(Alive)
    ensures home(b) != x && home(b) != y ==> s[home(b)] == Thread(Alive)
  {
    seq(home(a) + home(b) + x + y + 1, i => if i == x then o else if i == y then q else Thread(Alive))
  }

  /** The state that shows why a and b depend on each other. */
  function Telling(a: Transition, b: Transition): Object {
    if a.op.MutexInit? || b.op.MutexInit? then Mutex(Undefined)
    else if a.op.MutexUnlock? || b.op.MutexUnlock? then Mutex(Locked)
    else if IsMutexOp(a.op) then Mutex(Unlocked)
    else if a.op.GlobalWrite? then Global(a.op.written + 1)
    else if b.op.GlobalWrite? then Global(b.op.written + 1)
    else Global(0)
  }

  ghost predicate CanInterfere(home: Home, a: Transition, b: Transition) {
    exists s :: Typed(home, s, a) && Typed(home, s, b) && Interfere(home, s, a, b)
  }

  /** Mutex and global-variable transitions of two threads are reported
      dependent if and only if they interfere in some state, or leave their
      common object the same (two of initialise and unlock, except two unlocks,
      or two writes of one value). */
  lemma DependentIff(home: Home, a: Transition, b: Transition)
    requires Injective(home) && a.tid != b.tid && OnMutexOrGlobal(a) && OnMutexOrGlobal(b)
    requires ObjectOf(a) != home(a.tid) && ObjectOf(a) != home(b.tid)
    ensures CanInterfere(home, a, b) <==> Dependent(a, b) && !LeaveTheSame(a, b)
  {
    if !Dependent(a, b) {
      forall s | Typed(home, s, a) && Typed(home, s, b)
        ensures !Interfere(home, s, a, b)
      {
        IndependentLearnAlike(home, s, a, b);
      }
    } else if LeaveTheSame(a, b) {
      forall s | Typed(home, s, a) && Typed(home, s, b)
        ensures !Interfere(home, s, a, b)
      {
        SameInEitherOrder(home, s, a, b);
      }
    } else {
      StageTells(home, a, b);
    }
  }

  lemma SameInEitherOrder(home: Home, s: seq<Object>, a: Transition, b: Transition)
    requires Injective(home) && a.tid != b.tid && Typed(home, s, a) && Typed(home, s, b) && Dependent(a, b) && LeaveTheSame(a, b)
    ensures !Interfere(home, s, a, b)
  {
  }

  lemma StageTells(home: Home, a: Transition, b: Transition)
    requires Injective(home) && a.tid != b.tid && OnMutexOrGlobal(a) && OnMutexOrGlobal(b)
    requires ObjectOf(a) != home(a.tid) && ObjectOf(a) != home(b.tid)
    requires Dependent(a, b) && !LeaveTheSame(a, b)
    ensures CanInterfere(home, a, b)
  {
    var x, o := ObjectOf(a), Telling(a, b);
    var s := Stage(home, a.tid, b.tid, x, o, x, o);
    assert ObjectOf(b) == x;
    if a.op.MutexInit? || a.op.MutexUnlock? || a.op.GlobalWrite? {
      FirstTells(home, s, a, b);
    } else if b.op.MutexInit? || b.op.MutexUnlock? || b.op.GlobalWrite? {
      FirstTells(home, s, b, a);
      InterfereBoth(home, s, a, b);
    } else {
      TakingTells(home, s, a, b);
    }
    assert Typed(home, s, a) && Typed(home, s, b);
  }

  lemma InterfereBoth(home: Home, s: seq<Object>, a: Transition, b: Transition)
    ensures Interfere(home, s, a, b) <==> Interfere(home, s, b, a)
  {
  }

  /** A step that leaves the object as it likes, before one that minds. */
  lemma FirstTells(home: Home, s: seq<Object>, a: Transition, b: Transition)
    requires ThreadIs(s, home(a.tid), Alive) && ThreadIs(s, home(b.tid), Alive)
    requires OnMutexOrGlobal(a) && OnMutexOrGlobal(b) && ObjectOf(a) == ObjectOf(b) < |s| && !LeaveTheSame(a, b)
    requires if a.op.GlobalWrite? then IsGlobalOp(b.op)
             else (a.op.MutexInit? || a.op.MutexUnlock?) && (b.op.MutexLock? || b.op.MutexTrylock?)
    requires s[ObjectOf(a)] == Telling(a, b)
    ensures Interfere(home, s, a, b)
  {
    var x := ObjectOf(a);
    var sa, sb := Apply(home, s, a), Apply(home, s, b);
    assert Enabled(home, s, a) && x != home(b.tid);
    if b.op.MutexLock? {
      assert !Enabled(home, s, b) && Enabled(home, sa, b);
    } else {
      assert Enabled(home, s, b);
      if b.op.GlobalRead? {
        assert Learns(sa, b) == Value(a.op.written) != Learns(s, b);
      } else {
        assert Apply(home, sa, b)[x] != Apply(home, sb, a)[x];
      }
    }
  }

  /** Two steps that would take a free mutex. */
  lemma TakingTells(home: Home, s: seq<Object>, a: Transition, b: Transition)
    requires ThreadIs(s, home(a.tid), Alive) && ThreadIs(s, home(b.tid), Alive)
    requires (a.op.MutexLock? || a.op.MutexTrylock?) && (b.op.MutexLock? || b.op.MutexTrylock?)
    requires a.op.mutex == b.op.mutex && MutexIs(s, a.op.mutex, Unlocked)
    ensures Interfere(home, s, a, b)
  {
    var sa := Apply(home, s, a);
    assert Enabled(home, s, a) && Enabled(home, s, b) && MutexIs(sa, b.op.mutex, Locked);
    if b.op.MutexLock? {
      assert !Enabled(home, sa, b);
    } else {
      assert Learns(sa, b) == Locks(false) && Learns(s, b) == Locks(true);
    }
  }

  // ----- co-enabledness -------------------------------------------------

  ghost predicate CanMeet(home: Home, a: Transition, b: Transition) {
    exists s :: TheProgram(home).Ready(s, a) && TheProgram(home).Ready(s, b)
  }

  /** a initialises a mutex that b locks or unlocks. */
  predicate InitBeside(a: Transition, b: Transition) {
    a.op.MutexInit? && (b.op.MutexLock? || b.op.MutexUnlock?) && b.op.mutex == a.op.mutex
  }

  /** The state of its object that t is ready at. */
  function ReadyAt(t: Transition): Object
    requires OnMutexOrGlobal(t)
  {
    if IsGlobalOp(t.op) then Global(0)
    else if t.op.MutexInit? then Mutex(Undefined)
    else if t.op.MutexUnlock? then Mutex(Locked)
    else Mutex(Unlocked)
  }

  /** Of two on one mutex, a trylock is ready wherever the other is. */
  function MeetAt(a: Transition, b: Transition): Object
    requires OnMutexOrGlobal(a) && OnMutexOrGlobal(b)
  {
    if a.op.MutexTrylock? then ReadyAt(b) else ReadyAt(a)
  }

  lemma StageIsReady(home: Home, s: seq<Object>, t: Transition)
    requires OnMutexOrGlobal(t) && ThreadIs(s, home(t.tid), Alive) && ObjectOf(t) < |s|
    requires s[ObjectOf(t)] == ReadyAt(t) || (t.op.MutexTrylock? && s[ObjectOf(t)].Mutex?)
    ensures TheProgram(home).Ready(s, t)
  {
    assert Enabled(home, s, t) && Proper(home, s, t);
  }

  /** They are reported co-enabled if and only if they can be ready together, or
      one initialises the mutex that the other locks or unlocks. */
  lemma CoenabledIff(home: Home, a: Transition, b: Transition)
    requires Injective(home) && a.tid != b.tid && OnMutexOrGlobal(a) && OnMutexOrGlobal(b)
    requires ObjectOf(a) == ObjectOf(b) ==> (IsMutexOp(a.op) <==> IsMutexOp(b.op))
    requires forall t | t == a || t == b :: ObjectOf(t) != home(a.tid) && ObjectOf(t) != home(b.tid)
    ensures CanMeet(home, a, b) <==> Coenabled(a, b) && !InitBeside(a, b) && !InitBeside(b, a)
  {
    var P, x, y := TheProgram(home), ObjectOf(a), ObjectOf(b);
    if Coenabled(a, b) && !InitBeside(a, b) && !InitBeside(b, a) {
      var s := if x == y then Stage(home, a.tid, b.tid, x, MeetAt(a, b), x, MeetAt(a, b))
               else Stage(home, a.tid, b.tid, x, ReadyAt(a), y, ReadyAt(b));
      StageIsReady(home, s, a);
      StageIsReady(home, s, b);
      assert P.Ready(s, a) && P.Ready(s, b);
    }
  }

  // ----- threads --------------------------------------------------------

  predicate Names(a: Transition, b: Transition) {
    HasTarget(a.op) && a.op.target == b.tid
  }

  /** Where a transition of threads takes part, of two threads, the relation
      makes dependent, and not co-enabled, exactly those where one creates or
      joins the other's thread. */
  lemma ThreadsDependIff(a: Transition, b: Transition)
    requires a.tid != b.tid && !(OnMutexOrGlobal(a) && OnMutexOrGlobal(b))
    ensures Dependent(a, b) <==> Names(a, b) || Names(b, a)
    ensures Coenabled(a, b) <==> !Names(a, b) && !Names(b, a)
  {
  }
}
