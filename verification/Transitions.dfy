/** The transitions of mutexes, threads and global variables: their effect,
    when they are enabled, and the engine's dependence relation over them. */
module Transitions {
  import opened ClockVectors
  import opened Programs
  import opened Traces

  datatype ThreadState = Embryo | Alive | Sleeping | Dead

  datatype MutexState = Undefined | Unlocked | Locked | Destroyed

  datatype Object =
    | Thread(threadState: ThreadState)
    | Mutex(mutexState: MutexState)
    | Global(value: nat)

  type ObjId = nat

  datatype Operation =
    | MutexInit(mutex: ObjId)
    | MutexLock(mutex: ObjId)
    | MutexTrylock(mutex: ObjId)
    | MutexUnlock(mutex: ObjId)
    | ThreadCreate(target: Tid)
    | ThreadStart
    | ThreadFinish
    | ThreadJoin(target: Tid)
    | GlobalRead(global: ObjId)
    | GlobalWrite(global: ObjId, written: nat)

  datatype Transition = Transition(tid: Tid, op: Operation)

  const MAIN_THREAD: Tid := 0

  /** The object of each thread, as assigned when the thread was registered. */
  type Home = Tid -> ObjId

  ghost predicate Injective(home: Home) {
    forall p: Tid, q: Tid :: home(p) == home(q) ==> p == q
  }

  // ----- semantics ------------------------------------------------------

  predicate IsThread(s: seq<Object>, i: ObjId) {
    i < |s| && s[i].Thread?
  }

  predicate IsMutex(s: seq<Object>, i: ObjId) {
    i < |s| && s[i].Mutex?
  }

  predicate IsGlobal(s: seq<Object>, i: ObjId) {
    i < |s| && s[i].Global?
  }

  predicate ThreadIs(s: seq<Object>, i: ObjId, state: ThreadState) {
    IsThread(s, i) && s[i].threadState == state
  }

  predicate MutexIs(s: seq<Object>, i: ObjId, state: MutexState) {
    IsMutex(s, i) && s[i].mutexState == state
  }

  /** The thread must be alive, and the operation must not block. */
  predicate Enabled(home: Home, s: seq<Object>, t: Transition) {
    ThreadIs(s, home(t.tid), Alive) &&
    match t.op
    case MutexLock(m) => MutexIs(s, m, Unlocked)
    case ThreadFinish => t.tid != MAIN_THREAD
    case ThreadJoin(x) => ThreadIs(s, home(x), Dead)
    case _ => true
  }

  function SetThread(s: seq<Object>, i: ObjId, state: ThreadState): seq<Object> {
    if IsThread(s, i) then s[i := Thread(state)] else s
  }

  function SetMutex(s: seq<Object>, i: ObjId, state: MutexState): seq<Object> {
    if IsMutex(s, i) then s[i := Mutex(state)] else s
  }

  function SetGlobal(s: seq<Object>, i: ObjId, value: nat): seq<Object> {
    if IsGlobal(s, i) then s[i := Global(value)] else s
  }

  /** A trylock locks exactly when it finds the mutex unlocked. */
  function Apply(home: Home, s: seq<Object>, t: Transition): seq<Object> {
    match t.op
    case MutexInit(m) => SetMutex(s, m, Unlocked)
    case MutexLock(m) => SetMutex(s, m, Locked)
    case MutexTrylock(m) => if MutexIs(s, m, Unlocked) then SetMutex(s, m, Locked) else s
    case MutexUnlock(m) => SetMutex(s, m, Unlocked)
    case ThreadCreate(x) => SetThread(s, home(x), Alive)
    case ThreadStart => SetThread(s, home(t.tid), Alive)
    case ThreadFinish => SetThread(s, home(t.tid), Dead)
    case ThreadJoin(_) => s
    case GlobalRead(_) => s
    case GlobalWrite(g, v) => SetGlobal(s, g, v)
  }

  /** The declared inverse; only reversible transitions are ever unapplied. */
  function Unapply(home: Home, s: seq<Object>, t: Transition): seq<Object> {
    match t.op
    case MutexInit(m) => SetMutex(s, m, Undefined)
    case MutexLock(m) => SetMutex(s, m, Unlocked)
    case MutexUnlock(m) => SetMutex(s, m, Locked)
    case ThreadCreate(x) => SetThread(s, home(x), Embryo)
    case ThreadStart => SetThread(s, home(t.tid), Embryo)
    case ThreadFinish => SetThread(s, home(t.tid), Alive)
    case _ => s
  }

  predicate Reversible(t: Transition) {
    t.op.MutexInit? || t.op.MutexUnlock? || t.op.ThreadFinish? || t.op.ThreadJoin?
  }

  predicate Counts(t: Transition) {
    !t.op.ThreadStart? && !t.op.ThreadFinish?
  }

  predicate IsMutexOp(op: Operation) {
    op.MutexInit? || op.MutexLock? || op.MutexTrylock? || op.MutexUnlock?
  }

  predicate IsGlobalOp(op: Operation) {
    op.GlobalRead? || op.GlobalWrite?
  }

  predicate HasTarget(op: Operation) {
    op.ThreadCreate? || op.ThreadJoin?
  }

  /** The objects the transition refers to have the kinds it expects. */
  predicate Typed(home: Home, s: seq<Object>, t: Transition) {
    && IsThread(s, home(t.tid))
    && (IsMutexOp(t.op) ==> IsMutex(s, t.op.mutex))
    && (HasTarget(t.op) ==> IsThread(s, home(t.op.target)))
    && (IsGlobalOp(t.op) ==> IsGlobal(s, t.op.global))
  }

  /** The call is well defined: only an undefined mutex is initialised, only a
      locked one unlocked, and a created thread is new. */
  predicate Proper(home: Home, s: seq<Object>, t: Transition) {
    && Typed(home, s, t)
    && (t.op.MutexInit? ==> MutexIs(s, t.op.mutex, Undefined))
    && (t.op.MutexUnlock? ==> MutexIs(s, t.op.mutex, Locked))
    && (t.op.ThreadCreate? ==> ThreadIs(s, home(t.op.target), Embryo))
  }

  predicate FitsIn(home: Home, n: nat, t: Transition) {
    && home(t.tid) < n
    && (IsMutexOp(t.op) ==> t.op.mutex < n)
    && (HasTarget(t.op) ==> home(t.op.target) < n)
    && (IsGlobalOp(t.op) ==> t.op.global < n)
  }

  // ----- dependence -----------------------------------------------------

  /** The conditions common to all transitions, which look for a create first
      and for a join second, and decide on the first they find. */
  predicate DependentCommon(a: Transition, b: Transition) {
    if a.tid == b.tid then true
    else if a.op.ThreadCreate? then a.op.target == b.tid
    else if b.op.ThreadCreate? then b.op.target == a.tid
    else if a.op.ThreadJoin? then a.op.target == b.tid
    else b.op.ThreadJoin? && b.op.target == a.tid
  }

  predicate CoenabledCommon(a: Transition, b: Transition) {
    if a.tid == b.tid then false
    else if a.op.ThreadCreate? then a.op.target != b.tid
    else if b.op.ThreadCreate? then b.op.target != a.tid
    else if a.op.ThreadJoin? then a.op.target != b.tid
    else b.op.ThreadJoin? ==> b.op.target != a.tid
  }

  /** What a's own class says about b. */
  predicate DependentWith(a: Transition, b: Transition) {
    match a.op
    case MutexInit(m) => IsMutexOp(b.op) && b.op.mutex == m
    case MutexLock(m) => (b.op.MutexLock? || b.op.MutexUnlock?) && b.op.mutex == m
    case MutexTrylock(m) => (b.op.MutexLock? || b.op.MutexUnlock? || b.op.MutexTrylock?) && b.op.mutex == m
    case MutexUnlock(_) => false
    case ThreadCreate(x) => a.tid == b.tid || x == b.tid
    case ThreadStart => a.tid == b.tid
    case ThreadFinish => a.tid == b.tid
    case ThreadJoin(x) => a.tid == b.tid || x == b.tid
    case GlobalRead(g) => b.op.GlobalWrite? && b.op.global == g
    case GlobalWrite(g, _) => IsGlobalOp(b.op) && b.op.global == g
  }

  predicate CoenabledWith(a: Transition, b: Transition) {
    match a.op
    case MutexLock(m) => b.op.MutexUnlock? ==> b.op.mutex != m
    case ThreadCreate(x) => a.tid != b.tid && x != b.tid
    case ThreadStart => a.tid != b.tid
    case ThreadFinish => a.tid != b.tid
    case ThreadJoin(x) => a.tid != b.tid && x != b.tid
    case _ => true
  }

  predicate Dependent(a: Transition, b: Transition) {
    DependentCommon(a, b) || DependentWith(a, b) || DependentWith(b, a)
  }

  predicate Coenabled(a: Transition, b: Transition) {
    CoenabledCommon(a, b) && CoenabledWith(a, b) && CoenabledWith(b, a)
  }

  // ----- validity of the relation ---------------------------------------

  /** The formal definition of independence, at one state: neither transition
      enables or disables the other, and they commute. */
  ghost predicate IndependentAt(home: Home, s: seq<Object>, a: Transition, b: Transition) {
    && (Enabled(home, s, a) ==> (Enabled(home, s, b) <==> Enabled(home, Apply(home, s, a), b)))
    && (Enabled(home, s, b) ==> (Enabled(home, s, a) <==> Enabled(home, Apply(home, s, b), a)))
    && (Enabled(home, s, a) && Enabled(home, s, b) ==>
          Apply(home, Apply(home, s, a), b) == Apply(home, Apply(home, s, b), a))
  }

  /** One transition would create again the dead thread the other joins. */
  ghost predicate CreateJoinClash(home: Home, s: seq<Object>, a: Transition, b: Transition) {
    && Enabled(home, s, a) && Enabled(home, s, b)
    && HasTarget(a.op) && HasTarget(b.op) && a.op.target == b.op.target && a.op.ThreadCreate? != b.op.ThreadCreate?
  }

  /** The one object a transition may change, and the objects it looks at or
      changes. */
  function Changes(home: Home, t: Transition): set<ObjId> {
    match t.op
    case MutexInit(m) => {m}
    case MutexLock(m) => {m}
    case MutexTrylock(m) => {m}
    case MutexUnlock(m) => {m}
    case ThreadCreate(x) => {home(x)}
    case ThreadStart => {home(t.tid)}
    case ThreadFinish => {home(t.tid)}
    case ThreadJoin(_) => {}
    case GlobalRead(_) => {}
    case GlobalWrite(g, _) => {g}
  }

  function Touches(home: Home, t: Transition): set<ObjId> {
    {home(t.tid)}
    + (if IsMutexOp(t.op) then {t.op.mutex} else {})
    + (if HasTarget(t.op) then {home(t.op.target)} else {})
    + (if IsGlobalOp(t.op) then {t.op.global} else {})
  }

  ghost predicate AgreeOn(a: seq<Object>, b: seq<Object>, on: set<ObjId>) {
    |a| == |b| && forall i | i in on && i < |a| :: a[i] == b[i]
  }

  lemma ApplyFrame(home: Home, s: seq<Object>, t: Transition)
    ensures |Apply(home, s, t)| == |s|
    ensures forall i | 0 <= i < |s| && i !in Changes(home, t) :: Apply(home, s, t)[i] == s[i]
    ensures forall i | 0 <= i < |s| :: Apply(home, s, t)[i].Thread? == s[i].Thread?
                                      && Apply(home, s, t)[i].Mutex? == s[i].Mutex?
  {
  }

  lemma LooksOnlyAtTouched(home: Home, a: seq<Object>, b: seq<Object>, t: Transition)
    requires AgreeOn(a, b, Touches(home, t))
    ensures Enabled(home, a, t) == Enabled(home, b, t)
    ensures Proper(home, a, t) == Proper(home, b, t)
    ensures AgreeOn(Apply(home, a, t), Apply(home, b, t), Changes(home, t))
  {
    assert home(t.tid) in Touches(home, t);
    assert IsMutexOp(t.op) ==> t.op.mutex in Touches(home, t);
    assert HasTarget(t.op) ==> home(t.op.target) in Touches(home, t);
    assert IsGlobalOp(t.op) ==> t.op.global in Touches(home, t);
  }

  /** Transitions that change nothing the other touches commute. */
  lemma DisjointCommute(home: Home, s: seq<Object>, a: Transition, b: Transition)
    requires Changes(home, a) !! Touches(home, b) && Changes(home, b) !! Touches(home, a)
    ensures Apply(home, Apply(home, s, a), b) == Apply(home, Apply(home, s, b), a)
    ensures Enabled(home, Apply(home, s, a), b) == Enabled(home, s, b)
    ensures Enabled(home, Apply(home, s, b), a) == Enabled(home, s, a)
    ensures Proper(home, Apply(home, s, a), b) == Proper(home, s, b)
    ensures Proper(home, Apply(home, s, b), a) == Proper(home, s, a)
  {
    hide Apply, Enabled, Proper, Changes, Touches;
    var x, y := Apply(home, s, a), Apply(home, s, b);
    ApplyFrame(home, s, a);
    ApplyFrame(home, s, b);
    ApplyFrame(home, x, b);
    ApplyFrame(home, y, a);
    LooksOnlyAtTouched(home, s, x, b);
    LooksOnlyAtTouched(home, s, y, a);
    assert Changes(home, a) <= Touches(home, a) && Changes(home, b) <= Touches(home, b) by {
      ChangesAreTouched(home, a);
      ChangesAreTouched(home, b);
    }
    forall i | 0 <= i < |s|
      ensures Apply(home, x, b)[i] == Apply(home, y, a)[i]
    {
    }
  }

  lemma ChangesAreTouched(home: Home, t: Transition)
    ensures Changes(home, t) <= Touches(home, t)
  {
  }

  /** Typed transitions reported independent touch disjoint objects, apart
      from the few pairs that share one. */
  ghost predicate SharesHarmlessly(a: Transition, b: Transition) {
    || (a.op.MutexUnlock? && b.op.MutexUnlock? && a.op.mutex == b.op.mutex)
    || (HasTarget(a.op) && HasTarget(b.op) && a.op.target == b.op.target)
  }

  lemma IndependentAreDisjoint(home: Home, s: seq<Object>, a: Transition, b: Transition)
    requires Injective(home) && !Dependent(a, b) && Typed(home, s, a) && Typed(home, s, b)
    ensures SharesHarmlessly(a, b) || (Changes(home, a) !! Touches(home, b) && Changes(home, b) !! Touches(home, a))
  {
    if !SharesHarmlessly(a, b) {
      IndependentAreDisjointOneWay(home, s, a, b);
      IndependentAreDisjointOneWay(home, s, b, a);
    }
  }

  lemma IndependentAreDisjointOneWay(home: Home, s: seq<Object>, a: Transition, b: Transition)
    requires Injective(home) && Typed(home, s, a) && Typed(home, s, b)
    requires !Dependent(a, b) && !SharesHarmlessly(a, b)
    ensures Changes(home, a) !! Touches(home, b)
  {
    assert a.tid != b.tid && home(a.tid) != home(b.tid);
    match a.op
    case MutexInit(m) =>
    case MutexLock(m) =>
    case MutexTrylock(m) =>
    case MutexUnlock(m) =>
    case ThreadCreate(x) => assert x != b.tid;
    case ThreadStart => assert HasTarget(b.op) ==> b.op.target != a.tid;
    case ThreadFinish => assert HasTarget(b.op) ==> b.op.target != a.tid;
    case ThreadJoin(_) =>
    case GlobalRead(_) =>
    case GlobalWrite(g, _) =>
  }

  /** The relation is valid: at every state, transitions reported independent
      are independent, with one exception, a create of a thread that is
      already dead beside a join of it. */
  lemma RelationIsValid(home: Home, s: seq<Object>, a: Transition, b: Transition)
    requires Injective(home) && !Dependent(a, b) && Typed(home, s, a) && Typed(home, s, b)
    ensures IndependentAt(home, s, a, b) <==> !CreateJoinClash(home, s, a, b)
  {
    if SharesHarmlessly(a, b) {
      assert a.tid != b.tid && home(a.tid) != home(b.tid);
    } else {
      IndependentAreDisjoint(home, s, a, b);
      DisjointCommute(home, s, a, b);
    }
  }

  /** The exception is real. */
  lemma CreateOfDeadThreadIsNotIndependent()
    ensures var home: Home := (p: Tid) => p;
            var s := [Thread(Alive), Thread(Alive), Thread(Dead)];
            var a, b := Transition(0, ThreadCreate(2)), Transition(1, ThreadJoin(2));
            !Dependent(a, b) && !IndependentAt(home, s, a, b)
  {
    var home: Home := (p: Tid) => p;
    var s := [Thread(Alive), Thread(Alive), Thread(Dead)];
    var a, b := Transition(0, ThreadCreate(2)), Transition(1, ThreadJoin(2));
    assert Enabled(home, s, a) && Enabled(home, s, b) && !Enabled(home, Apply(home, s, a), b);
  }

  // ----- the laws of the engine -----------------------------------------

  /** The virtual methods of these transitions. */
  function TheProgram(home: Home): Program<Object, Transition> {
    Program(
      (t: Transition) => t.tid,
      Dependent,
      Coenabled,
      (p: Tid) => Transition(p, ThreadStart),
      (s: seq<Object>, t: Transition) => Enabled(home, s, t),
      (s: seq<Object>, t: Transition) => Apply(home, s, t),
      (s: seq<Object>, t: Transition) => Unapply(home, s, t),
      Reversible,
      Counts,
      (n: nat, t: Transition) => FitsIn(home, n, t),
      (s: seq<Object>, t: Transition) => Proper(home, s, t))
  }

  lemma RelationIsLawful(home: Home)
    ensures TheProgram(home).LawfulRelation()
  {
    var P := TheProgram(home);
    forall a: Transition, b: Transition
      ensures P.dep(a, b) == P.dep(b, a)
    {
    }
    forall p: Tid, t: Transition
      ensures P.dep(t, P.start(p)) ==> !P.coen(t, P.start(p))
    {
    }
  }

  lemma StoreIsLawful(home: Home)
    ensures TheProgram(home).LawfulStore()
  {
    var P := TheProgram(home);
    forall s, e, t: Transition | P.fits(|s|, t)
      ensures P.apply(s + e, t) == P.apply(s, t) + e
      ensures P.enabled(s + e, t) == P.enabled(s, t)
    {
      ExtendingIsTransparent(home, s, e, t);
    }
  }

  lemma ExtendingIsTransparent(home: Home, s: seq<Object>, e: seq<Object>, t: Transition)
    requires FitsIn(home, |s|, t)
    ensures Apply(home, s + e, t) == Apply(home, s, t) + e
    ensures Enabled(home, s + e, t) == Enabled(home, s, t)
  {
    var applied := Apply(home, s + e, t);
    assert |applied| == |s + e|;
    forall i | 0 <= i < |s| + |e|
      ensures applied[i] == (Apply(home, s, t) + e)[i]
    {
    }
  }

  /** Undoing a reversible transition restores the state exactly when the call
      was well defined. */
  lemma UndoIsExactIffProper(home: Home, s: seq<Object>, t: Transition)
    requires Reversible(t) && Enabled(home, s, t) && Typed(home, s, t)
    ensures Unapply(home, Apply(home, s, t), t) == s <==> Proper(home, s, t)
  {
    match t.op
    case MutexInit(m) => assert Unapply(home, Apply(home, s, t), t) == s[m := Mutex(Undefined)];
    case MutexUnlock(m) => assert Unapply(home, Apply(home, s, t), t) == s[m := Mutex(Locked)];
    case ThreadFinish => assert Unapply(home, Apply(home, s, t), t) == s[home(t.tid) := Thread(Alive)];
    case ThreadJoin(_) =>
  }

  lemma UndoIsLawful(home: Home)
    ensures TheProgram(home).LawfulUndo()
  {
    var P := TheProgram(home);
    forall s, t: Transition | P.reversible(t) && P.Ready(s, t)
      ensures P.unapply(P.apply(s, t), t) == s
    {
      UndoIsExactIffProper(home, s, t);
    }
  }

  lemma ExchangeOfIndependent(home: Home, s: seq<Object>, a: Transition, b: Transition)
    requires Injective(home) && !Dependent(a, b)
    requires TheProgram(home).Ready(s, a) && TheProgram(home).Ready(Apply(home, s, a), b)
    ensures TheProgram(home).Exchanges(s, a, b)
  {
    ApplyFrame(home, s, a);
    assert Typed(home, s, b) by {
      assert Typed(home, Apply(home, s, a), b);
    }
    if SharesHarmlessly(a, b) {
      assert a.tid != b.tid && home(a.tid) != home(b.tid);
    } else {
      IndependentAreDisjoint(home, s, a, b);
      DisjointCommute(home, s, a, b);
    }
  }

  lemma ExchangeIsLawful(home: Home)
    requires Injective(home)
    ensures TheProgram(home).LawfulExchange()
  {
    var P := TheProgram(home);
    forall s, a: Transition, b: Transition | !P.dep(a, b) && P.Ready(s, a) && P.Ready(P.apply(s, a), b)
      ensures P.Exchanges(s, a, b)
    {
      ExchangeOfIndependent(home, s, a, b);
    }
  }

  /** A create of a fresh thread is independent of whatever it is reported
      independent of: for well-defined calls the relation has no exception. */
  lemma ProperCallsAreIndependent(home: Home, s: seq<Object>, a: Transition, b: Transition)
    requires Injective(home) && !Dependent(a, b) && Proper(home, s, a) && Proper(home, s, b)
    ensures IndependentAt(home, s, a, b)
  {
    RelationIsValid(home, s, a, b);
  }

  /** All orders of a run that keep its dependent transitions in order are
      executable alike and reach the same objects. */
  lemma RunsOfOneTraceAgree(home: Home, s: seq<Object>, run: seq<Transition>, order: seq<nat>)
    requires Injective(home) && Linearises(TheProgram(home), run, order)
    ensures Equivalent(TheProgram(home), s, run, Reordered(run, order))
  {
    RelationIsLawful(home);
    ExchangeIsLawful(home);
    LinearisationsAgree(TheProgram(home), s, run, order);
  }

  // ----- undoing leaves no stale conflicts ------------------------------

  lemma UndoableStep(home: Home, s: seq<Object>, run: seq<Transition>, i: nat)
    requires i < |run| && PerformsUndoably(TheProgram(home), s, run)
    ensures var b := Replay(TheProgram(home), s, run[..i]);
            && Reversible(run[i]) && Enabled(home, b, run[i]) && Proper(home, b, run[i])
            && Replay(TheProgram(home), s, run[..i + 1]) == Apply(home, b, run[i])
  {
    hide Replay, Enabled, Proper, Apply;
    assert run[..i + 1] == run[..i] + [run[i]];
    ReplayStep(TheProgram(home), s, run[..i], run[i]);
    assert TheProgram(home).reversible(run[i]) && TheProgram(home).Ready(Replay(TheProgram(home), s, run[..i]), run[i]);
  }

  lemma StepLeavesUnlocked(home: Home, s: seq<Object>, t: Transition, m: ObjId)
    requires Reversible(t) && Proper(home, s, t) && MutexIs(s, m, Unlocked)
    ensures MutexIs(Apply(home, s, t), m, Unlocked)
  {
  }

  lemma StepLeavesDead(home: Home, s: seq<Object>, t: Transition, i: ObjId)
    requires Reversible(t) && ThreadIs(s, i, Dead)
    ensures ThreadIs(Apply(home, s, t), i, Dead)
  {
  }

  /** Where a mutex stands unlocked, no undoable well-defined step touches it. */
  lemma {:induction false} MutexStaysUnlocked(home: Home, s: seq<Object>, run: seq<Transition>, k: nat, n: nat, m: ObjId)
    requires k <= n <= |run| && PerformsUndoably(TheProgram(home), s, run)
    requires MutexIs(Replay(TheProgram(home), s, run[..k]), m, Unlocked)
    ensures MutexIs(Replay(TheProgram(home), s, run[..n]), m, Unlocked)
    decreases n
  {
    hide Replay;
    if k < n {
      MutexStaysUnlocked(home, s, run, k, n - 1, m);
      UndoableStep(home, s, run, n - 1);
      StepLeavesUnlocked(home, Replay(TheProgram(home), s, run[..n - 1]), run[n - 1], m);
    }
  }

  /** No undoable step brings a dead thread back. */
  lemma {:induction false} ThreadStaysDead(home: Home, s: seq<Object>, run: seq<Transition>, k: nat, n: nat, i: ObjId)
    requires k <= n <= |run| && PerformsUndoably(TheProgram(home), s, run)
    requires ThreadIs(Replay(TheProgram(home), s, run[..k]), i, Dead)
    ensures ThreadIs(Replay(TheProgram(home), s, run[..n]), i, Dead)
    decreases n
  {
    hide Replay;
    if k < n {
      ThreadStaysDead(home, s, run, k, n - 1, i);
      UndoableStep(home, s, run, n - 1);
      StepLeavesDead(home, Replay(TheProgram(home), s, run[..n - 1]), run[n - 1], i);
    }
  }

  /** A finish and a join conflict with nothing. */
  lemma FinishAndJoinAreCalm(home: Home, t: Transition)
    requires t.op.ThreadFinish? || t.op.ThreadJoin?
    ensures TheProgram(home).Calm(t)
  {
    forall u: Transition
      ensures Dependent(u, t) ==> !Coenabled(u, t)
    {
    }
  }

  /** Only initialising and unlocking a mutex can be undone and conflict with
      something, and neither is ever ordered after an undoable step of another
      thread. */
  lemma RewindIsLawful(home: Home)
    ensures LawfulRewind(TheProgram(home))
  {
    var P := TheProgram(home);
    forall s, run: seq<Transition> | run != [] && PerformsUndoably(P, s, run)
                                     && P.dep(run[0], run[|run| - 1]) && P.tid(run[0]) != P.tid(run[|run| - 1])
      ensures P.Calm(run[|run| - 1])
    {
      OrderedStepIsCalm(home, s, run);
    }
  }

  lemma OrderedStepIsCalm(home: Home, s: seq<Object>, run: seq<Transition>)
    requires |run| >= 2 && PerformsUndoably(TheProgram(home), s, run)
    requires Dependent(run[0], run[|run| - 1]) && run[0].tid != run[|run| - 1].tid
    ensures TheProgram(home).Calm(run[|run| - 1])
  {
    hide Replay;
    var P, n := TheProgram(home), |run| - 1;
    var a, z := run[0], run[n];
    UndoableStep(home, s, run, 0);
    UndoableStep(home, s, run, n);
    if z.op.ThreadFinish? || z.op.ThreadJoin? {
      FinishAndJoinAreCalm(home, z);
    } else if a.op.ThreadJoin? {
      ThreadStaysDead(home, s, run, 0, n, home(z.tid));
      assert false;
    } else {
      MutexStaysUnlocked(home, s, run, 1, n, z.op.mutex);
      assert false;
    }
  }
}
