/** Semaphores: a 32-bit count and a queue of waiting threads, woken in order
    of arrival. A thread that waits first enqueues, then passes. */
module Semaphores {
  import opened ClockVectors

  const COUNTS: nat := 0x1_0000_0000

  datatype Semaphore = Semaphore(count: nat, queue: seq<Tid>, initialized: bool)

  /** The transitions on one semaphore. */
  datatype Event = Init(t: Tid) | Post(t: Tid) | Enter(t: Tid) | Pass(t: Tid)

  // ----- the operations -------------------------------------------------

  /** Index of a thread in the queue; the length of the queue if absent. */
  function Position(queue: seq<Tid>, t: Tid): (i: nat)
    ensures i <= |queue|
    ensures i < |queue| ==> queue[i] == t
    ensures forall j | 0 <= j < i :: queue[j] != t
  {
    if queue == [] || queue[0] == t then 0 else 1 + Position(queue[1..], t)
  }

  /** A thread can pass when the count is not zero and it is found at the very
      start of the queue, which for an absent thread is also true of an empty
      queue. */
  predicate CanPass(s: Semaphore, t: Tid) {
    s.count > 0 && Position(s.queue, t) == 0
  }

  function Leave(queue: seq<Tid>, t: Tid): seq<Tid> {
    var i := Position(queue, t);
    if i == |queue| then queue else queue[..i] + queue[i + 1..]
  }

  function Do(s: Semaphore, e: Event): (r: Semaphore) {
    match e
    case Init(_) => s.(initialized := true)
    case Post(_) => s.(count := (s.count + 1) % COUNTS)
    case Enter(t) => s.(queue := s.queue + [t])
    case Pass(t) => s.(count := if s.count > 0 then s.count - 1 else 0, queue := Leave(s.queue, t))
  }

  /** What the wrappers and the engine let happen: a thread enters the queue
      once, and passes after that, when enabled. */
  ghost predicate Allowed(s: Semaphore, e: Event) {
    match e
    case Init(_) => true
    case Post(_) => true
    case Enter(t) => t !in s.queue
    case Pass(t) => t in s.queue && CanPass(s, t)
  }

  // ----- invariants and histories ---------------------------------------

  ghost predicate Orderly(s: Semaphore) {
    s.count < COUNTS && forall i, j | 0 <= i < j < |s.queue| :: s.queue[i] != s.queue[j]
  }

  ghost predicate IsHistory(start: Semaphore, run: seq<Event>, states: seq<Semaphore>) {
    && |states| == |run| + 1 && states[0] == start && start.queue == [] && start.count < COUNTS
    && forall i | 0 <= i < |run| :: Allowed(states[i], run[i]) && states[i + 1] == Do(states[i], run[i])
  }

  function Posts(run: seq<Event>, n: nat): nat
    requires n <= |run|
  {
    if n == 0 then 0 else Posts(run, n - 1) + if run[n - 1].Post? then 1 else 0
  }

  function Entered(run: seq<Event>, n: nat): seq<Tid>
    requires n <= |run|
  {
    if n == 0 then [] else Entered(run, n - 1) + if run[n - 1].Enter? then [run[n - 1].t] else []
  }

  function Passed(run: seq<Event>, n: nat): seq<Tid>
    requires n <= |run|
  {
    if n == 0 then [] else Passed(run, n - 1) + if run[n - 1].Pass? then [run[n - 1].t] else []
  }

  lemma LeaveFront(queue: seq<Tid>, t: Tid)
    requires queue != [] && Position(queue, t) == 0
    ensures queue[0] == t && Leave(queue, t) == queue[1..]
  {
    hide Position;
    assert queue[..0] + queue[0 + 1..] == queue[1..];
  }

  /** What a step takes from the front of the queue and adds at its back. */
  lemma QueueMoves(s: Semaphore, e: Event)
    requires Orderly(s) && Allowed(s, e)
    ensures Orderly(Do(s, e))
    ensures s.queue + (if e.Enter? then [e.t] else []) == (if e.Pass? then [e.t] else []) + Do(s, e).queue
  {
    hide Position, Leave;
    if e.Pass? {
      LeaveFront(s.queue, e.t);
      assert s.queue == [e.t] + s.queue[1..];
    }
  }

  lemma Regroup(a: seq<Tid>, q: seq<Tid>, x: seq<Tid>, y: seq<Tid>, q': seq<Tid>)
    requires q + x == y + q'
    ensures (a + q) + x == (a + y) + q'
  {
    assert (a + q) + x == a + (q + x);
    assert (a + y) + q' == a + (y + q');
  }

  /** Threads pass in the order they entered. */
  lemma {:induction false} PassesAreFifo(start: Semaphore, run: seq<Event>, states: seq<Semaphore>, n: nat)
    requires IsHistory(start, run, states) && n <= |run|
    ensures Orderly(states[n])
    ensures Entered(run, n) == Passed(run, n) + states[n].queue
  {
    hide Allowed, Do;
    if n > 0 {
      PassesAreFifo(start, run, states, n - 1);
      var b, e := states[n - 1], run[n - 1];
      assert Allowed(b, e) && states[n] == Do(b, e);
      QueueMoves(b, e);
      Regroup(Passed(run, n - 1), b.queue, if e.Enter? then [e.t] else [], if e.Pass? then [e.t] else [], states[n].queue);
    }
  }

  lemma WrapAround(c: nat, x: int)
    requires c < COUNTS
    ensures c == x ==> x % COUNTS == c
    ensures c == x % COUNTS ==> (c + 1) % COUNTS == (x + 1) % COUNTS
    ensures c == x % COUNTS && c > 0 ==> c - 1 == (x - 1) % COUNTS
  {
  }

  lemma CountMoves(s: Semaphore, e: Event)
    requires Allowed(s, e)
    ensures Do(s, e).count == if e.Post? then (s.count + 1) % COUNTS else if e.Pass? then s.count - 1 else s.count
    ensures e.Pass? ==> s.count > 0
  {
  }

  /** The count is the initial count, plus the posts, less the threads that
      passed, in 32 bits. */
  lemma {:induction false} CountIsConserved(start: Semaphore, run: seq<Event>, states: seq<Semaphore>, n: nat)
    requires IsHistory(start, run, states) && n <= |run|
    ensures states[n].count == (start.count + Posts(run, n) - |Passed(run, n)|) % COUNTS
  {
    hide Allowed, Do;
    if n > 0 {
      CountIsConserved(start, run, states, n - 1);
      var b, e := states[n - 1], run[n - 1];
      assert Allowed(b, e) && states[n] == Do(b, e);
      CountMoves(b, e);
      WrapAround(b.count, start.count + Posts(run, n - 1) - |Passed(run, n - 1)|);
    } else {
      WrapAround(start.count, start.count);
    }
  }

  /** So it is exact as long as it has not wrapped around. */
  lemma CountIsExact(start: Semaphore, run: seq<Event>, states: seq<Semaphore>, n: nat)
    requires IsHistory(start, run, states) && n <= |run|
    requires 0 <= start.count + Posts(run, n) - |Passed(run, n)| < COUNTS
    ensures states[n].count == start.count + Posts(run, n) - |Passed(run, n)|
  {
    hide IsHistory;
    CountIsConserved(start, run, states, n);
  }

  /** Who can pass, by the events alone: the first to have entered that has not
      passed, while the count, in 32 bits, is not zero. */
  lemma PassesIff(start: Semaphore, run: seq<Event>, states: seq<Semaphore>, n: nat, t: Tid)
    requires IsHistory(start, run, states) && n <= |run|
    ensures Allowed(states[n], Pass(t))
            <==> && (start.count + Posts(run, n) - |Passed(run, n)|) % COUNTS > 0
                 && |Passed(run, n)| < |Entered(run, n)| && Entered(run, n)[|Passed(run, n)|] == t
  {
    PassesAreFifo(start, run, states, n);
    CountIsConserved(start, run, states, n);
    assert states[n].queue != [] ==> Entered(run, n)[|Passed(run, n)|] == states[n].queue[0];
  }

  // ----- the dependence relation ----------------------------------------

  /** dependentWith of each transition, between transitions on one semaphore. */
  predicate DependentWith(a: Event, b: Event) {
    match a
    case Init(_) => false
    case Post(_) => b.Init?
    case Enter(_) => b.Init? || b.Enter?
    case Pass(_) => b.Init? || b.Pass?
  }

  predicate Dependent(a: Event, b: Event) {
    a.t == b.t || DependentWith(a, b) || DependentWith(b, a)
  }

  /** Both orders of two transitions that are enabled together are possible
      and lead to the same semaphore. */
  ghost predicate Diamond(s: Semaphore, a: Event, b: Event) {
    Allowed(Do(s, a), b) && Allowed(Do(s, b), a) && Do(Do(s, a), b) == Do(Do(s, b), a)
  }

  lemma PassPastEnter(queue: seq<Tid>, t: Tid, u: Tid)
    requires queue != [] && Position(queue, u) == 0 && t != u
    ensures Position(queue + [t], u) == 0 && Leave(queue + [t], u) == Leave(queue, u) + [t]
  {
    hide Leave;
    LeaveFront(queue, u);
    LeaveFront(queue + [t], u);
  }

  /** Transitions reported independent and enabled together commute, except
      where a post wraps the count around under a passing thread. */
  lemma IndependentMeansDiamond(s: Semaphore, a: Event, b: Event)
    requires Orderly(s) && Allowed(s, a) && Allowed(s, b) && !Dependent(a, b)
    ensures Diamond(s, a, b) <==> !(s.count == COUNTS - 1 && ((a.Post? && b.Pass?) || (a.Pass? && b.Post?)))
  {
    hide Position, Leave;
    if a.Pass? {
      LeaveFront(s.queue, a.t);
      PassPastEnter(s.queue, b.t, a.t);
    } else if b.Pass? {
      LeaveFront(s.queue, b.t);
      PassPastEnter(s.queue, a.t, b.t);
    }
  }

  /** Not every independent pair is harmless: a post enables the first waiter
      exactly when the count was zero. */
  lemma PostEnablesPass(s: Semaphore, t: Tid, u: Tid)
    requires Orderly(s) && t != u && u in s.queue
    ensures !Dependent(Post(t), Pass(u))
    ensures (!Allowed(s, Pass(u)) && Allowed(Do(s, Post(t)), Pass(u))) <==> s.count == 0 && s.queue[0] == u
  {
  }

  /** The test of the sleep position alone also admits a thread that never
      entered, exactly when nobody waits. */
  lemma AbsentThreadPassesEmptyQueue(s: Semaphore, t: Tid)
    requires t !in s.queue
    ensures CanPass(s, t) <==> s.count > 0 && s.queue == []
  {
  }

  // ----- the semaphore object -------------------------------------------

  class SemaphoreObject {
    var count: nat
    var waitingQueue: seq<Tid>
    var initialized: bool

    function View(): Semaphore
      reads this
    {
      Semaphore(count, waitingQueue, initialized)
    }

    constructor (count: nat)
      requires count < COUNTS
      ensures View() == Semaphore(count, [], false)
    {
      this.count, waitingQueue, initialized := count, [], false;
    }

    method Find(t: Tid) returns (i: nat)
      ensures i == Position(waitingQueue, t)
    {
      i := 0;
      while i < |waitingQueue| && waitingQueue[i] != t
        invariant 0 <= i <= |waitingQueue|
        invariant forall j | 0 <= j < i :: waitingQueue[j] != t
      {
        i := i + 1;
      }
    }

    method ThreadCanExit(t: Tid) returns (can: bool)
      ensures can == CanPass(View(), t)
    {
      var i := Find(t);
      return count != 0 && i == 0;
    }

    method ApplyInit(t: Tid)
      modifies this
      ensures View() == Do(old(View()), Init(t))
    {
      initialized := true;
    }

    method ApplyPost(t: Tid)
      modifies this
      ensures View() == Do(old(View()), Post(t))
    {
      count := (count + 1) % COUNTS;
    }

    method ApplyEnqueue(t: Tid)
      modifies this
      ensures View() == Do(old(View()), Enter(t))
    {
      waitingQueue := waitingQueue + [t];
    }

    /** Decrements, then leaves the queue. */
    method ApplyWait(t: Tid)
      modifies this
      ensures View() == Do(old(View()), Pass(t))
    {
      if count > 0 {
        count := count - 1;
      }
      var i := Find(t);
      if i != |waitingQueue| {
        waitingQueue := waitingQueue[..i] + waitingQueue[i + 1..];
      }
    }
  }
}
