/** The engine as a machine on values: what one state of the search is, and
    what each operation of the engine does to it. The class in McStack.dfy
    carries these operations out in place. */
module Machines {
  import opened ClockVectors
  import opened Programs
  import opened Chains

  /** A state on the state stack: the threads still to run from it, those
      that ran, those asleep, those cached as enabled, and the clock vector of
      the transition that produced it. */
  datatype Item = Item(backtrack: set<Tid>, done: set<Tid>, sleep: set<Tid>, enabled: set<Tid>, clock: ClockVector)

  /** What the model learns from the trace process after running a thread: its
      next transition, and the objects and threads seen for the first time. */
  datatype Reply<O, T> = Reply(next: T, objects: seq<O>, newThreads: nat)

  /** trans       the transition stack
      items       the state stack; items[k] is the state trans[k] departs from
      next        the pending transition of each known thread
      threadClock the clock vector of each thread, depth its execution depth
      irreversible indices of the states reached by irreversible transitions
      initial, current the objects as registered and as they are now
      explored    log of every (run, transition) pair ever executed */
  datatype Machine<O, T> = Machine(
    trans: seq<T>,
    items: seq<Item>,
    next: seq<T>,
    threadClock: seq<ClockVector>,
    depth: seq<int>,
    irreversible: seq<nat>,
    initial: seq<O>,
    current: seq<O>,
    explored: seq<(seq<T>, T)>)

  ghost predicate Shape<O(!new), T(!new)>(P: Program<O, T>, m: Machine<O, T>) {
    && |m.items| == |m.trans| + 1
    && 1 <= |m.next| == |m.threadClock| == |m.depth|
    && (m.trans == [] ==> |m.next| == 1)
    && (forall p: nat | p < |m.next| :: P.tid(m.next[p]) == p)
    && (forall i: nat | i < |m.trans| :: P.tid(m.trans[i]) < |m.next|)
  }

  function EmptyItem(clock: ClockVector): Item {
    Item({}, {}, {}, {}, clock)
  }

  /** The machine before the first transition: one state, and the main thread
      about to start. */
  ghost function Start<O(!new), T(!new)>(P: Program<O, T>, objects: seq<O>): Machine<O, T> {
    Machine([], [EmptyItem(map[])], [P.start(0)], [map[]], [0], [], objects, objects, [])
  }

  lemma StartHasShape<O(!new), T(!new)>(P: Program<O, T>, objects: seq<O>)
    requires P.LawfulRelation()
    ensures Shape(P, Start(P, objects))
  {
  }

  ghost function EnabledNow<O(!new), T(!new)>(P: Program<O, T>, m: Machine<O, T>): set<Tid> {
    set p | 0 <= p < |m.next| && P.enabled(m.current, m.next[p])
  }

  /** Clock vectors of the transitions: the one of trans[j] is kept in the
      state it leads to. */
  ghost function ItemClocks(items: seq<Item>): (r: seq<ClockVector>)
    requires |items| >= 1
    ensures |r| == |items| - 1
    ensures forall j | 0 <= j < |r| :: r[j] == items[j + 1].clock
  {
    seq(|items| - 1, j requires 0 <= j < |items| - 1 => items[j + 1].clock)
  }

  // ----- one step -------------------------------------------------------

  ghost function Inherited<O(!new), T(!new)>(P: Program<O, T>, m: Machine<O, T>, t: T): set<Tid>
    requires Shape(P, m)
  {
    set q | q in m.items[|m.trans|].sleep && q < |m.next| && !P.dep(m.next[q], t)
  }

  /** The departing state once its enabled threads are cached and the runner
      is marked as searched and put to sleep. */
  ghost function Departed(item: Item, enabled: set<Tid>, runner: Tid): Item {
    item.(backtrack := item.backtrack - {runner}, done := item.done + {runner},
          sleep := item.sleep + {runner}, enabled := item.enabled + enabled)
  }

  ghost function Starts<O(!new), T(!new)>(P: Program<O, T>, from: nat, count: nat): (r: seq<T>)
    ensures |r| == count
    ensures forall i | 0 <= i < count :: r[i] == P.start(from + i)
  {
    seq(count, i requires 0 <= i => P.start(from + i))
  }

  /** Running the pending transition of thread p. */
  ghost function Simulate<O(!new), T(!new)>(P: Program<O, T>, m: Machine<O, T>, p: Tid, reply: Reply<O, T>): Machine<O, T>
    requires Shape(P, m) && p < |m.next|
  {
    var t := m.next[p];
    var n := |m.trans|;
    var clock := NextClock(P, m.trans, ItemClocks(m.items), t);
    Machine(
      m.trans + [t],
      m.items[..n] + [Departed(m.items[n], EnabledNow(P, m), p), EmptyItem(clock).(sleep := Inherited(P, m, t))],
      m.next[p := reply.next] + Starts(P, |m.next|, reply.newThreads),
      m.threadClock[p := clock] + seq(reply.newThreads, _ => map[]),
      m.depth[p := if P.counts(t) then m.depth[p] + 1 else m.depth[p]] + seq(reply.newThreads, _ => 0),
      if P.reversible(t) then m.irreversible else m.irreversible + [n + 1],
      m.initial + reply.objects,
      P.apply(m.current, t) + reply.objects,
      m.explored + [(m.trans, t)])
  }

  // ----- backtrack points -----------------------------------------------

  /** happensBeforeThread: by the clock vector kept for thread p. */
  ghost predicate BeforeThread<O(!new), T(!new)>(P: Program<O, T>, m: Machine<O, T>, i: nat, p: Tid)
    requires i < |m.trans| && p < |m.threadClock|
  {
    i <= ValueFor(m.threadClock[p], P.tid(m.trans[i]))
  }

  ghost predicate RacesAfter<O(!new), T(!new)>(P: Program<O, T>, m: Machine<O, T>, i: nat, q: Tid, p: Tid)
    requires p < |m.threadClock|
  {
    exists j: nat :: i < j < |m.trans| && P.tid(m.trans[j]) == q && BeforeThread(P, m, j, p)
  }

  ghost predicate ShouldProcess<O(!new), T(!new)>(P: Program<O, T>, m: Machine<O, T>, i: nat, p: Tid)
    requires i < |m.trans| && p < |m.next| == |m.threadClock|
  {
    P.dep(m.trans[i], m.next[p]) && P.coen(m.trans[i], m.next[p]) && !BeforeThread(P, m, i, p)
  }

  ghost function Candidates<O(!new), T(!new)>(P: Program<O, T>, m: Machine<O, T>, item: Item, i: nat, p: Tid): set<Tid>
    requires p < |m.threadClock|
  {
    set q | q in item.enabled && q !in item.sleep && (q == p || RacesAfter(P, m, i, q, p))
  }

  /** The backtrack set of one state after looking at thread p: every awake
      enabled thread when there is no candidate, nothing new when a candidate
      is already scheduled, and otherwise one candidate of the code's choice.
      Threads already done are never added. */
  ghost predicate Processed<O(!new), T(!new)>(P: Program<O, T>, m: Machine<O, T>, i: nat, p: Tid, a: Item, b: Item)
    requires i < |m.trans| && p < |m.next| == |m.threadClock|
  {
    var E := Candidates(P, m, a, i, p);
    if !ShouldProcess(P, m, i, p) then b == a
    else if E == {} then b == a.(backtrack := a.backtrack + (a.enabled - a.sleep - a.done))
    else if E * a.backtrack != {} then b == a
    else exists q :: q in E && b == a.(backtrack := a.backtrack + ({q} - a.done))
  }

  /** Looking at the threads of order one after the other. */
  ghost predicate ProcessedAll<O(!new), T(!new)>(P: Program<O, T>, m: Machine<O, T>, i: nat, order: seq<Tid>, a: Item, b: Item)
    requires i < |m.trans| && |m.next| == |m.threadClock|
    requires forall p | p in order :: p < |m.next|
  {
    if order == [] then b == a
    else
      var n := |order| - 1;
      assert order[n] in order && forall p | p in order[..n] :: p in order;
      exists c :: ProcessedAll(P, m, i, order[..n], a, c) && Processed(P, m, i, order[n], c, b)
  }

  ghost predicate Lists(order: seq<Tid>, threads: set<Tid>) {
    && (forall p :: p in order <==> p in threads)
    && (forall i, j | 0 <= i < j < |order| :: order[i] != order[j])
  }

  function ThreadIds(n: nat): (r: set<Tid>)
    ensures forall p: Tid :: p in r <==> p < n
  {
    if n == 0 then {} else ThreadIds(n - 1) + {n - 1}
  }

  /** There are n thread ids below n, and no more. */
  lemma {:induction false} ThreadIdsSize(n: nat, s: set<Tid>)
    requires s <= ThreadIds(n)
    ensures |s| <= n && (|s| == n ==> s == ThreadIds(n))
    ensures |ThreadIds(n)| == n
  {
    if n > 0 {
      ThreadIdsSize(n - 1, s - {n - 1});
      ThreadIdsSize(n - 1, {});
      if n - 1 in s {
        assert s == s - {n - 1} + {n - 1};
      } else {
        assert s == s - {n - 1};
      }
    }
  }

  lemma {:induction false} SubsetSize<X>(a: set<X>, b: set<X>)
    requires a <= b
    ensures |a| <= |b|
    ensures a != b ==> |a| < |b|
  {
    if a != {} {
      var x :| x in a;
      SubsetSize(a - {x}, b - {x});
    }
  }

  ghost function Others<O(!new), T(!new)>(P: Program<O, T>, m: Machine<O, T>): set<Tid>
    requires m.trans != []
  {
    ThreadIds(|m.next|) - {P.tid(m.trans[|m.trans| - 1])}
  }

  /** The greatest index below n that must be processed for p, or -1. */
  ghost function LastConflict<O(!new), T(!new)>(P: Program<O, T>, m: Machine<O, T>, p: Tid, n: nat): (i: int)
    requires n <= |m.trans| && p < |m.next| == |m.threadClock|
    ensures -1 <= i < n
    ensures i >= 0 ==> ShouldProcess(P, m, i, p)
    ensures forall k | i < k < n :: !ShouldProcess(P, m, k, p)
  {
    if n == 0 then -1 else if ShouldProcess(P, m, n - 1, p) then n - 1 else LastConflict(P, m, p, n - 1)
  }

  /** The update after a step. The threads that did not run are looked at
      against the last transition only; the runner against the whole stack
      below it, stopping at the first transition it conflicts with. */
  ghost predicate Updated<O(!new), T(!new)>(P: Program<O, T>, m: Machine<O, T>, m': Machine<O, T>)
    requires Shape(P, m) && m.trans != []
  {
    var n := |m.trans| - 1;
    var runner := P.tid(m.trans[n]);
    var i := LastConflict(P, m, runner, n);
    && |m'.items| == |m.items|
    && m' == m.(items := m'.items)
    && (exists order :: Lists(order, Others(P, m)) && ProcessedAll(P, m, n, order, m.items[n], m'.items[n]))
    && (i >= 0 ==> Processed(P, m, i, runner, m.items[i], m'.items[i]))
    && (forall k: nat | k < |m.items| && k != n && k != i :: m'.items[k] == m.items[k])
  }

  // ----- rewinding ------------------------------------------------------

  /** The first transition p runs at or after index k, or its pending one. */
  ghost function NextAt<O(!new), T(!new)>(P: Program<O, T>, m: Machine<O, T>, k: nat, p: Tid): T
    requires k <= |m.trans| && p < |m.next|
    decreases |m.trans| - k
  {
    if k == |m.trans| then m.next[p]
    else if P.tid(m.trans[k]) == p then m.trans[k]
    else NextAt(P, m, k + 1, p)
  }

  /** Number of counted transitions of p in a run. */
  ghost function Count<O(!new), T(!new)>(P: Program<O, T>, run: seq<T>, p: Tid): nat {
    if run == [] then 0
    else
      var n := |run| - 1;
      Count(P, run[..n], p) + if P.tid(run[n]) == p && P.counts(run[n]) then 1 else 0
  }

  /** Indices of the states reached by an irreversible transition. */
  ghost function IrreversibleIn<O(!new), T(!new)>(P: Program<O, T>, run: seq<T>): seq<nat> {
    if run == [] then []
    else
      var n := |run| - 1;
      IrreversibleIn(P, run[..n]) + if P.reversible(run[n]) then [] else [n + 1]
  }

  /** The entries of a sorted stack that survive popGreaterThan. */
  function KeepUpTo(s: seq<nat>, bound: nat): seq<nat> {
    if s == [] || s[|s| - 1] <= bound then s else KeepUpTo(s[..|s| - 1], bound)
  }

  ghost predicate CanReverse<O, T>(m: Machine<O, T>, state: nat) {
    m.irreversible == [] || m.irreversible[|m.irreversible| - 1] <= state
  }

  /** Undoing the transitions of a run from the last one down to index k. */
  ghost function Undo<O(!new), T(!new)>(P: Program<O, T>, s: seq<O>, run: seq<T>, k: nat): seq<O>
    requires k <= |run|
    decreases |run|
  {
    if k == |run| then s
    else Undo(P, P.unapply(s, run[|run| - 1]), run[..|run| - 1], k)
  }

  ghost function RewoundNext<O(!new), T(!new)>(P: Program<O, T>, m: Machine<O, T>, k: nat): (r: seq<T>)
    requires k <= |m.trans|
    ensures |r| == |m.next|
    ensures forall p: nat | p < |r| :: r[p] == NextAt(P, m, k, p)
  {
    seq(|m.next|, p requires 0 <= p < |m.next| => NextAt(P, m, k, p))
  }

  /** What both ways of rewinding to state k do to the stacks and the table of
      pending transitions. */
  ghost function Cut<O(!new), T(!new)>(P: Program<O, T>, m: Machine<O, T>, k: nat): Machine<O, T>
    requires Shape(P, m) && k <= |m.trans|
  {
    m.(trans := m.trans[..k],
       items := m.items[..k + 1],
       next := RewoundNext(P, m, k),
       irreversible := KeepUpTo(m.irreversible, k))
  }

  ghost function ReplayedClocks<O(!new), T(!new)>(P: Program<O, T>, m: Machine<O, T>, k: nat): (r: seq<ClockVector>)
    requires Shape(P, m) && k <= |m.trans|
    ensures |r| == |m.next|
    ensures forall p: nat | p < |r| ::
        var j := LastRun(P, m.trans[..k], p);
        r[p] == if j < 0 then m.threadClock[p] else m.items[j + 1].clock
  {
    seq(|m.next|, p requires 0 <= p < |m.next| =>
      var j := LastRun(P, m.trans[..k], p);
      if j < 0 then m.threadClock[p] else m.items[j + 1].clock)
  }

  /** Rewinding by resetting every object and re-applying the first k
      transitions. */
  ghost function Replayed<O(!new), T(!new)>(P: Program<O, T>, m: Machine<O, T>, k: nat): Machine<O, T>
    requires Shape(P, m) && k <= |m.trans|
  {
    Cut(P, m, k).(
      threadClock := ReplayedClocks(P, m, k),
      depth := seq(|m.next|, p requires 0 <= p => Count(P, m.trans[..k], p)),
      current := Replay(P, m.initial, m.trans[..k]))
  }

  /** Index of the first transition of p at or after index k; the length of
      the run when there is none. */
  ghost function FirstRun<O(!new), T(!new)>(P: Program<O, T>, run: seq<T>, k: nat, p: Tid): (j: nat)
    requires k <= |run|
    ensures k <= j <= |run|
    ensures j < |run| ==> P.tid(run[j]) == p
    ensures forall i | k <= i < j :: P.tid(run[i]) != p
    decreases |run| - k
  {
    if k == |run| || P.tid(run[k]) == p then k else FirstRun(P, run, k + 1, p)
  }

  ghost function UndoneClocks<O(!new), T(!new)>(P: Program<O, T>, m: Machine<O, T>, k: nat): (r: seq<ClockVector>)
    requires Shape(P, m) && k <= |m.trans|
    ensures |r| == |m.next|
    ensures forall p: nat | p < |r| ::
        var j := FirstRun(P, m.trans, k, p);
        r[p] == if j == |m.trans| then m.threadClock[p] else m.items[j + 1].clock
  {
    seq(|m.next|, p requires 0 <= p < |m.next| =>
      var j := FirstRun(P, m.trans, k, p);
      if j == |m.trans| then m.threadClock[p] else m.items[j + 1].clock)
  }

  /** Rewinding by undoing the transitions above k. Each one leaves its own
      clock vector, not its predecessor's, with the thread that ran it. */
  ghost function Undone<O(!new), T(!new)>(P: Program<O, T>, m: Machine<O, T>, k: nat): Machine<O, T>
    requires Shape(P, m) && k <= |m.trans|
  {
    Cut(P, m, k).(
      threadClock := UndoneClocks(P, m, k),
      depth := seq(|m.next|, p requires 0 <= p < |m.next| =>
        m.depth[p] - (Count(P, m.trans, p) - Count(P, m.trans[..k], p))),
      current := Undo(P, m.current, m.trans, k))
  }

  /** reflectStateAtTransitionIndex(k - 1). */
  ghost function Reflected<O(!new), T(!new)>(P: Program<O, T>, m: Machine<O, T>, k: nat): Machine<O, T>
    requires Shape(P, m) && k <= |m.trans|
  {
    if CanReverse(m, k) then Undone(P, m, k) else Replayed(P, m, k)
  }

  /** Taking the least thread out of the backtrack set of state k. */
  ghost function Popped<O, T>(m: Machine<O, T>, k: nat, p: Tid): Machine<O, T>
    requires k < |m.items|
  {
    m.(items := m.items[k := m.items[k].(backtrack := m.items[k].backtrack - {p}, done := m.items[k].done + {p})])
  }
}
