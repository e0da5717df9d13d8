/** The reader/writer/writer lock: three class queues, one queue in order of
    arrival, and four preferences. A thread enqueues as one of three kinds,
    acquires when the lock admits it, and unlocks. */
module RwwLocks {
  import opened ClockVectors

  datatype Kind = Reader | Writer1 | Writer2

  datatype Preference = Writer1Preferred | Writer2Preferred | ReaderPreferred | NoPreference

  datatype Owner = Nobody | Owned(t: Tid)

  datatype Queues = Queues(reader: seq<Tid>, writer1: seq<Tid>, writer2: seq<Tid>)
  {
    function Of(k: Kind): seq<Tid> {
      match k
      case Reader => reader
      case Writer1 => writer1
      case Writer2 => writer2
    }

    function With(k: Kind, q: seq<Tid>): (r: Queues)
      ensures r.Of(k) == q && forall j | j != k :: r.Of(j) == Of(j)
    {
      match k
      case Reader => Queues(q, writer1, writer2)
      case Writer1 => Queues(reader, q, writer2)
      case Writer2 => Queues(reader, writer1, q)
    }

    function Size(): nat {
      |reader| + |writer1| + |writer2|
    }
  }

  datatype Lock = Lock(preference: Preference, writer1: Owner, writer2: Owner, readers: seq<Tid>, queues: Queues, acquire: seq<Tid>)

  // ----- the operations -------------------------------------------------

  predicate WriterLocked(l: Lock) {
    l.writer1.Owned? || l.writer2.Owned?
  }

  predicate Unlocked(l: Lock) {
    !WriterLocked(l) && l.readers == []
  }

  predicate Front(q: seq<Tid>, t: Tid) {
    q != [] && q[0] == t
  }

  /** The kind the lock prefers over kind k, if any thread of it waits. */
  predicate Deferred(l: Lock, k: Kind) {
    || (l.preference == Writer1Preferred && k != Writer1 && l.queues.writer1 != [])
    || (l.preference == Writer2Preferred && k != Writer2 && l.queues.writer2 != [])
    || (l.preference == ReaderPreferred && k != Reader && l.queues.reader != [])
  }

  predicate CanAcquire(l: Lock, k: Kind, t: Tid) {
    && !Deferred(l, k)
    && (if k == Reader then !WriterLocked(l) else Unlocked(l))
    && Front(if l.preference == NoPreference then l.acquire else l.queues.Of(k), t)
  }

  function Enqueue(l: Lock, k: Kind, t: Tid): Lock {
    l.(queues := l.queues.With(k, l.queues.Of(k) + [t]), acquire := l.acquire + [t])
  }

  /** What the asserts of the lock methods demand. */
  predicate MayLock(l: Lock, k: Kind, t: Tid) {
    && Front(l.queues.Of(k), t) && l.acquire != []
    && (k == Writer1 ==> l.writer1.Nobody?) && (k == Writer2 ==> l.writer2.Nobody?)
  }

  function Acquire(l: Lock, k: Kind, t: Tid): Lock
    requires MayLock(l, k, t)
  {
    var popped := l.(queues := l.queues.With(k, l.queues.Of(k)[1..]), acquire := l.acquire[1..]);
    match k
    case Reader => popped.(readers := l.readers + [t])
    case Writer1 => popped.(writer1 := Owned(t))
    case Writer2 => popped.(writer2 := Owned(t))
  }

  function Drop(s: seq<Tid>, t: Tid): seq<Tid> {
    if s == [] then [] else if s[0] == t then s[1..] else [s[0]] + Drop(s[1..], t)
  }

  /** What the asserts of unlock demand. */
  predicate MayUnlock(l: Lock, t: Tid) {
    if l.writer1.Owned? then l.writer1.t == t
    else if l.writer2.Owned? then l.writer2.t == t
    else t in l.readers
  }

  function Unlock(l: Lock, t: Tid): Lock
    requires MayUnlock(l, t)
  {
    if l.writer1.Owned? then l.(writer1 := Nobody)
    else if l.writer2.Owned? then l.(writer2 := Nobody)
    else l.(readers := Drop(l.readers, t))
  }

  // ----- invariants -----------------------------------------------------

  /** acquire is an interleaving of the three queues. */
  ghost predicate Interleaves(acquire: seq<Tid>, q: Queues)
    decreases |acquire|
  {
    if acquire == [] then q.Size() == 0
    else exists k: Kind :: Front(q.Of(k), acquire[0]) && Interleaves(acquire[1..], q.With(k, q.Of(k)[1..]))
  }

  ghost predicate WaitsOnce(q: Queues) {
    && (forall k: Kind, i, j | 0 <= i < j < |q.Of(k)| :: q.Of(k)[i] != q.Of(k)[j])
    && (forall k: Kind, j: Kind, t | t in q.Of(k) && t in q.Of(j) :: k == j)
  }

  /** At most one writer of either class, and none along with readers. */
  ghost predicate Exclusive(l: Lock) {
    && !(l.writer1.Owned? && l.writer2.Owned?)
    && (WriterLocked(l) ==> l.readers == [])
  }

  ghost predicate Consistent(l: Lock) {
    && Exclusive(l) && WaitsOnce(l.queues)
    && |l.acquire| == l.queues.Size()
    && (l.preference == NoPreference ==> Interleaves(l.acquire, l.queues))
  }

  /** Taking the front of one queue and adding at the back of one commute. */
  lemma PopPush(q: Queues, h: Kind, k: Kind, t: Tid)
    requires q.Of(h) != []
    ensures var rest, grown := q.With(h, q.Of(h)[1..]), q.With(k, q.Of(k) + [t]);
            Front(grown.Of(h), q.Of(h)[0]) && rest.With(k, rest.Of(k) + [t]) == grown.With(h, grown.Of(h)[1..])
  {
    assert (q.Of(h) + [t])[1..] == q.Of(h)[1..] + [t];
  }

  lemma {:induction false} InterleavesEnqueue(acquire: seq<Tid>, q: Queues, k: Kind, t: Tid)
    requires Interleaves(acquire, q)
    ensures Interleaves(acquire + [t], q.With(k, q.Of(k) + [t]))
    decreases |acquire|
  {
    var q' := q.With(k, q.Of(k) + [t]);
    if acquire == [] {
      InterleavesOne(q, k, t);
    } else {
      var h :| Front(q.Of(h), acquire[0]) && Interleaves(acquire[1..], q.With(h, q.Of(h)[1..]));
      InterleavesEnqueue(acquire[1..], q.With(h, q.Of(h)[1..]), k, t);
      PopPush(q, h, k, t);
      InterleavesFrom(acquire + [t], q', h, acquire[1..] + [t]);
    }
  }

  lemma InterleavesFrom(acquire: seq<Tid>, q: Queues, h: Kind, rest: seq<Tid>)
    requires acquire != [] && Front(q.Of(h), acquire[0]) && rest == acquire[1..] && Interleaves(rest, q.With(h, q.Of(h)[1..]))
    ensures Interleaves(acquire, q)
  {
  }

  lemma InterleavesOne(q: Queues, k: Kind, t: Tid)
    requires q.Size() == 0
    ensures Interleaves([] + [t], q.With(k, q.Of(k) + [t]))
  {
    var q' := q.With(k, q.Of(k) + [t]);
    assert q.Of(k) == [] && q'.Of(k) == [t];
    assert Interleaves([], q'.With(k, q'.Of(k)[1..]));
    InterleavesFrom([t], q', k, []);
  }

  /** The thread at the front of an interleaving is at the front of its own
      queue, and taking it from both keeps the interleaving. */
  lemma InterleavesAcquire(acquire: seq<Tid>, q: Queues, k: Kind, t: Tid)
    requires Interleaves(acquire, q) && Front(acquire, t) && t in q.Of(k) && WaitsOnce(q)
    ensures Front(q.Of(k), t) && Interleaves(acquire[1..], q.With(k, q.Of(k)[1..]))
  {
    var h :| Front(q.Of(h), acquire[0]) && Interleaves(acquire[1..], q.With(h, q.Of(h)[1..]));
    assert t in q.Of(h);
  }

  /** In a consistent lock, whoever the lock admits passes every assert of the
      method that locks it. */
  lemma AdmittedMayLock(l: Lock, k: Kind, t: Tid)
    requires Consistent(l) && t in l.queues.Of(k) && CanAcquire(l, k, t)
    ensures MayLock(l, k, t)
  {
    if l.preference == NoPreference {
      InterleavesAcquire(l.acquire, l.queues, k, t);
    }
    assert |l.queues.Of(k)| > 0;
  }

  lemma EnqueueKeepsConsistent(l: Lock, k: Kind, t: Tid)
    requires Consistent(l) && forall j: Kind :: t !in l.queues.Of(j)
    ensures Consistent(Enqueue(l, k, t))
  {
    if l.preference == NoPreference {
      InterleavesEnqueue(l.acquire, l.queues, k, t);
    }
    var q, q' := l.queues, Enqueue(l, k, t).queues;
    forall j: Kind, h: Kind, u | u in q'.Of(j) && u in q'.Of(h)
      ensures j == h
    {
      if u != t {
        assert u in q.Of(j) && u in q.Of(h);
      }
    }
    forall j: Kind, a, b | 0 <= a < b < |q'.Of(j)|
      ensures q'.Of(j)[a] != q'.Of(j)[b]
    {
      assert q'.Of(j)[a] in q.Of(j);
    }
  }

  lemma AcquireKeepsConsistent(l: Lock, k: Kind, t: Tid)
    requires Consistent(l) && t in l.queues.Of(k) && CanAcquire(l, k, t)
    ensures MayLock(l, k, t) && Consistent(Acquire(l, k, t))
  {
    AdmittedMayLock(l, k, t);
    if l.preference == NoPreference {
      InterleavesAcquire(l.acquire, l.queues, k, t);
    }
    var q, q' := l.queues, Acquire(l, k, t).queues;
    forall j: Kind, h: Kind, u | u in q'.Of(j) && u in q'.Of(h)
      ensures j == h
    {
      assert u in q.Of(j) && u in q.Of(h);
    }
  }

  /** t holds the lock as one of that kind. */
  ghost predicate HoldsAs(l: Lock, t: Tid, k: Kind) {
    match k
    case Reader => t in l.readers
    case Writer1 => l.writer1 == Owned(t)
    case Writer2 => l.writer2 == Owned(t)
  }

  ghost predicate Holds(l: Lock, t: Tid) {
    l.writer1 == Owned(t) || l.writer2 == Owned(t) || t in l.readers
  }

  /** How many times t holds the lock; a reader may hold it more than once. */
  ghost function Holdings(l: Lock, t: Tid): nat {
    multiset(l.readers)[t] + (if l.writer1 == Owned(t) then 1 else 0) + (if l.writer2 == Owned(t) then 1 else 0)
  }

  lemma {:induction false} DropTakesOne(s: seq<Tid>, t: Tid)
    requires t in s
    ensures multiset(Drop(s, t)) == multiset(s) - multiset{t}
  {
    assert s == [s[0]] + s[1..];
    if s[0] != t {
      DropTakesOne(s[1..], t);
    }
  }

  lemma {:induction false} DropsFirst(s: seq<Tid>, i: nat, t: Tid)
    requires i < |s| && s[i] == t && forall j | 0 <= j < i :: s[j] != t
    ensures Drop(s, t) == s[..i] + s[i + 1..]
  {
    if i > 0 {
      DropsFirst(s[1..], i - 1, t);
      assert s[1..][..i - 1] == s[1..i] && s[..i] == [s[0]] + s[1..i];
      assert s[1..][i..] == s[i + 1..];
    }
  }

  /** Unlocking takes one holding of that thread away, and leaves all others
      what they hold. */
  lemma UnlockKeepsConsistent(l: Lock, t: Tid)
    requires Consistent(l) && MayUnlock(l, t)
    ensures Consistent(Unlock(l, t))
    ensures forall u :: Holdings(Unlock(l, t), u) == Holdings(l, u) - if u == t then 1 else 0
    ensures forall u, k: Kind :: HoldsAs(Unlock(l, t), u, k) <==> HoldsAs(l, u, k) && (u == t ==> Holdings(l, t) > 1)
  {
    hide Holdings, HoldsAs;
    forall u
      ensures Holdings(Unlock(l, t), u) == Holdings(l, u) - if u == t then 1 else 0
    {
      UnlockTakesOne(l, t, u);
    }
    forall u, k: Kind
      ensures HoldsAs(Unlock(l, t), u, k) <==> HoldsAs(l, u, k) && (u == t ==> Holdings(l, t) > 1)
    {
      UnlockTakesOne(l, t, u);
    }
  }

  lemma UnlockTakesOne(l: Lock, t: Tid, u: Tid)
    requires Exclusive(l) && MayUnlock(l, t)
    ensures Holdings(Unlock(l, t), u) == Holdings(l, u) - if u == t then 1 else 0
    ensures forall k: Kind :: HoldsAs(Unlock(l, t), u, k) <==> HoldsAs(l, u, k) && (u == t ==> Holdings(l, t) > 1)
  {
    if !WriterLocked(l) {
      DropTakesOne(l.readers, t);
      assert u in Unlock(l, t).readers <==> multiset(Unlock(l, t).readers)[u] > 0;
    }
  }

  /** Acquiring gives one holding to that thread, as one of its kind. */
  lemma AcquireGivesOne(l: Lock, k: Kind, t: Tid, u: Tid)
    requires MayLock(l, k, t)
    ensures Holdings(Acquire(l, k, t), u) == Holdings(l, u) + if u == t then 1 else 0
    ensures forall j: Kind :: HoldsAs(Acquire(l, k, t), u, j) <==> HoldsAs(l, u, j) || (u == t && j == k)
  {
  }

  /** Whoever holds the lock passes every assert of unlock, and only they. */
  lemma HolderMayUnlock(l: Lock, t: Tid)
    requires Consistent(l)
    ensures Holds(l, t) <==> MayUnlock(l, t)
  {
  }

  // ----- progress -------------------------------------------------------

  ghost predicate Waiting(l: Lock, k: Kind, t: Tid) {
    t in l.queues.Of(k)
  }

  lemma FrontOfInterleaving(acquire: seq<Tid>, q: Queues) returns (k: Kind, t: Tid)
    requires Interleaves(acquire, q) && acquire != []
    ensures t in q.Of(k) && Front(acquire, t)
  {
    t := acquire[0];
    k :| Front(q.Of(k), acquire[0]) && Interleaves(acquire[1..], q.With(k, q.Of(k)[1..]));
  }

  /** When the lock is free and some thread waits, the lock admits a waiting
      thread, whatever the preference. */
  lemma FreeLockAdmitsSomeone(l: Lock, k: Kind, t: Tid)
    requires Consistent(l) && Unlocked(l) && Waiting(l, k, t)
    ensures exists j: Kind, u :: Waiting(l, j, u) && CanAcquire(l, j, u)
  {
    var q := l.queues;
    assert |q.Of(k)| > 0;
    if l.preference == NoPreference {
      var j, u := FrontOfInterleaving(l.acquire, q);
      assert Waiting(l, j, u) && CanAcquire(l, j, u);
    } else {
      var first := if l.preference == Writer1Preferred then Writer1 else if l.preference == Writer2Preferred then Writer2 else Reader;
      var j := if q.Of(first) != [] then first else k;
      assert Waiting(l, j, q.Of(j)[0]) && CanAcquire(l, j, q.Of(j)[0]);
    }
  }

  // ----- histories ------------------------------------------------------

  datatype Event = Enqueues(t: Tid, k: Kind) | Acquires(t: Tid, k: Kind) | Unlocks(t: Tid)

  /** What the wrappers let happen: a thread waits once at a time, acquires as
      the kind it waits as when it is enabled, and unlocks what it holds. */
  ghost predicate Allowed(l: Lock, e: Event) {
    match e
    case Enqueues(t, k) => forall j: Kind :: t !in l.queues.Of(j)
    case Acquires(t, k) => Waiting(l, k, t) && CanAcquire(l, k, t) && MayLock(l, k, t)
    case Unlocks(t) => Holds(l, t) && MayUnlock(l, t)
  }

  ghost function Do(l: Lock, e: Event): Lock
    requires Allowed(l, e)
  {
    match e
    case Enqueues(t, k) => Enqueue(l, k, t)
    case Acquires(t, k) => Acquire(l, k, t)
    case Unlocks(t) => Unlock(l, t)
  }

  /** The locks of a history, from a lock nobody holds or waits for. */
  ghost predicate IsHistory(preference: Preference, run: seq<Event>, locks: seq<Lock>) {
    && |locks| == |run| + 1
    && locks[0] == Lock(preference, Nobody, Nobody, [], Queues([], [], []), [])
    && forall i | 0 <= i < |run| :: Allowed(locks[i], run[i]) && locks[i + 1] == Do(locks[i], run[i])
  }

  /** The threads that enqueued as kind k among the first n events, in order,
      and those that acquired. */
  function Arrivals(run: seq<Event>, n: nat, k: Kind): seq<Tid>
    requires n <= |run|
  {
    if n == 0 then []
    else Arrivals(run, n - 1, k) + if run[n - 1].Enqueues? && run[n - 1].k == k then [run[n - 1].t] else []
  }

  function Admissions(run: seq<Event>, n: nat, k: Kind): seq<Tid>
    requires n <= |run|
  {
    if n == 0 then []
    else Admissions(run, n - 1, k) + if run[n - 1].Acquires? && run[n - 1].k == k then [run[n - 1].t] else []
  }

  /** The same over all kinds. */
  function AllArrivals(run: seq<Event>, n: nat): seq<Tid>
    requires n <= |run|
  {
    if n == 0 then [] else AllArrivals(run, n - 1) + if run[n - 1].Enqueues? then [run[n - 1].t] else []
  }

  function AllAdmissions(run: seq<Event>, n: nat): seq<Tid>
    requires n <= |run|
  {
    if n == 0 then [] else AllAdmissions(run, n - 1) + if run[n - 1].Acquires? then [run[n - 1].t] else []
  }

  /** In every state of every history the lock is consistent. */
  lemma {:induction false} HistoriesAreConsistent(preference: Preference, run: seq<Event>, locks: seq<Lock>, n: nat)
    requires IsHistory(preference, run, locks) && n <= |run|
    ensures Consistent(locks[n]) && locks[n].preference == preference
  {
    hide Consistent;
    if n == 0 {
      NewLockIsConsistent(preference);
    } else {
      var e, b := run[n - 1], locks[n - 1];
      HistoriesAreConsistent(preference, run, locks, n - 1);
      assert Allowed(b, e) && locks[n] == Do(b, e);
      match e
      case Enqueues(t, k) => EnqueueKeepsConsistent(b, k, t);
      case Acquires(t, k) => AcquireKeepsConsistent(b, k, t);
      case Unlocks(t) => UnlockKeepsConsistent(b, t);
    }
  }

  lemma NewLockIsConsistent(preference: Preference)
    ensures Consistent(Lock(preference, Nobody, Nobody, [], Queues([], [], []), []))
  {
  }

  lemma ClassQueueMoves(l: Lock, e: Event, k: Kind)
    requires Allowed(l, e)
    ensures l.queues.Of(k) + (if e.Enqueues? && e.k == k then [e.t] else [])
            == (if e.Acquires? && e.k == k then [e.t] else []) + Do(l, e).queues.Of(k)
  {
  }

  lemma AcquireQueueMoves(l: Lock, e: Event)
    requires Allowed(l, e) && l.preference == NoPreference
    ensures l.acquire + (if e.Enqueues? then [e.t] else []) == (if e.Acquires? then [e.t] else []) + Do(l, e).acquire
  {
  }

  lemma Regroup(a: seq<Tid>, q: seq<Tid>, x: seq<Tid>, y: seq<Tid>, q': seq<Tid>)
    requires q + x == y + q'
    ensures (a + q) + x == (a + y) + q'
  {
    assert (a + q) + x == a + (q + x);
    assert (a + y) + q' == a + (y + q');
  }

  /** Within a kind, threads are admitted in the order they came: those
      admitted, followed by those that wait, are those that came. */
  lemma {:induction false} KindsAreFifo(preference: Preference, run: seq<Event>, locks: seq<Lock>, n: nat, k: Kind)
    requires IsHistory(preference, run, locks) && n <= |run|
    ensures Arrivals(run, n, k) == Admissions(run, n, k) + locks[n].queues.Of(k)
  {
    hide Allowed, Do;
    if n > 0 {
      KindsAreFifo(preference, run, locks, n - 1, k);
      assert Allowed(locks[n - 1], run[n - 1]) && locks[n] == Do(locks[n - 1], run[n - 1]);
      var e := run[n - 1];
      ClassQueueMoves(locks[n - 1], e, k);
      Regroup(Admissions(run, n - 1, k), locks[n - 1].queues.Of(k), if e.Enqueues? && e.k == k then [e.t] else [],
              if e.Acquires? && e.k == k then [e.t] else [], locks[n].queues.Of(k));
    }
  }

  /** Without a preference, over all kinds. */
  lemma {:induction false} NoPreferenceIsFifo(run: seq<Event>, locks: seq<Lock>, n: nat)
    requires IsHistory(NoPreference, run, locks) && n <= |run|
    ensures AllArrivals(run, n) == AllAdmissions(run, n) + locks[n].acquire
  {
    hide Allowed, Do, Consistent;
    if n > 0 {
      NoPreferenceIsFifo(run, locks, n - 1);
      HistoriesAreConsistent(NoPreference, run, locks, n - 1);
      assert Allowed(locks[n - 1], run[n - 1]) && locks[n] == Do(locks[n - 1], run[n - 1]);
      var e := run[n - 1];
      AcquireQueueMoves(locks[n - 1], e);
      Regroup(AllAdmissions(run, n - 1), locks[n - 1].acquire, if e.Enqueues? then [e.t] else [],
              if e.Acquires? then [e.t] else [], locks[n].acquire);
    }
  }

  // ----- who holds the lock, by the events alone ------------------------

  /** How often t was admitted among the first n events, and how often it
      unlocked. */
  function TimesAdmitted(run: seq<Event>, n: nat, t: Tid): nat
    requires n <= |run|
  {
    if n == 0 then 0 else TimesAdmitted(run, n - 1, t) + if run[n - 1].Acquires? && run[n - 1].t == t then 1 else 0
  }

  function TimesUnlocked(run: seq<Event>, n: nat, t: Tid): nat
    requires n <= |run|
  {
    if n == 0 then 0 else TimesUnlocked(run, n - 1, t) + if run[n - 1] == Unlocks(t) then 1 else 0
  }

  /** t was last admitted as a thread of kind k. */
  ghost predicate LastAdmittedAs(run: seq<Event>, n: nat, t: Tid, k: Kind)
    requires n <= |run|
  {
    exists j: nat :: j < n && run[j] == Acquires(t, k) && forall i: nat | j < i < n :: !(run[i].Acquires? && run[i].t == t)
  }

  /** Admitted as k, and not unlocked since as often as admitted. */
  ghost predicate IsInside(run: seq<Event>, n: nat, t: Tid, k: Kind)
    requires n <= |run|
  {
    TimesAdmitted(run, n, t) > TimesUnlocked(run, n, t) && LastAdmittedAs(run, n, t, k)
  }

  lemma HoldingsMove(l: Lock, e: Event, t: Tid)
    requires Consistent(l) && Allowed(l, e)
    ensures Holdings(Do(l, e), t) == Holdings(l, t) + (if e.Acquires? && e.t == t then 1 else 0) - (if e == Unlocks(t) then 1 else 0)
    ensures forall k: Kind :: HoldsAs(Do(l, e), t, k) ==> HoldsAs(l, t, k) || e == Acquires(t, k)
    ensures forall k: Kind :: HoldsAs(l, t, k) && e != Unlocks(t) ==> HoldsAs(Do(l, e), t, k)
    ensures forall k: Kind :: e == Acquires(t, k) ==> HoldsAs(Do(l, e), t, k)
  {
    hide Consistent, Holdings, HoldsAs, Acquire, Unlock;
    match e
    case Enqueues(u, k) => EnqueueLeavesHolders(l, u, k, t);
    case Acquires(u, k) => AcquireGivesOne(l, k, u, t);
    case Unlocks(u) => UnlockKeepsConsistent(l, u);
  }

  lemma EnqueueLeavesHolders(l: Lock, u: Tid, k: Kind, t: Tid)
    ensures Holdings(Enqueue(l, k, u), t) == Holdings(l, t)
    ensures forall j: Kind :: HoldsAs(Enqueue(l, k, u), t, j) <==> HoldsAs(l, t, j)
  {
  }

  lemma HoldersFacts(l: Lock, t: Tid, k: Kind, j: Kind)
    requires Consistent(l)
    ensures HoldsAs(l, t, k) && HoldsAs(l, t, j) ==> k == j
    ensures Holdings(l, t) > 0 <==> HoldsAs(l, t, Reader) || HoldsAs(l, t, Writer1) || HoldsAs(l, t, Writer2)
  {
  }

  /** The lock is held exactly by the threads that were admitted more often than
      they unlocked, as often as that, and as the kind they were last admitted
      as. */
  lemma {:induction false} HoldersAreAdmitted(preference: Preference, run: seq<Event>, locks: seq<Lock>, n: nat, t: Tid, k: Kind)
    requires IsHistory(preference, run, locks) && n <= |run|
    ensures Holdings(locks[n], t) == TimesAdmitted(run, n, t) - TimesUnlocked(run, n, t)
    ensures HoldsAs(locks[n], t, k) <==> IsInside(run, n, t, k)
  {
    HoldingsAreCounted(preference, run, locks, n, t);
    HistoriesAreConsistent(preference, run, locks, n);
    if HoldsAs(locks[n], t, k) {
      HolderWasAdmitted(preference, run, locks, n, t, k);
    }
    HoldersFacts(locks[n], t, k, k);
    if IsInside(run, n, t, k) {
      var held: Kind :| HoldsAs(locks[n], t, held);
      HolderWasAdmitted(preference, run, locks, n, t, held);
      var i: nat :| i < n && run[i] == Acquires(t, k) && forall m: nat | i < m < n :: !(run[m].Acquires? && run[m].t == t);
      var j: nat :| j < n && run[j] == Acquires(t, held) && forall m: nat | j < m < n :: !(run[m].Acquires? && run[m].t == t);
      assert !(i < j) && !(j < i);
    }
  }

  lemma {:induction false} HoldingsAreCounted(preference: Preference, run: seq<Event>, locks: seq<Lock>, n: nat, t: Tid)
    requires IsHistory(preference, run, locks) && n <= |run|
    ensures Holdings(locks[n], t) == TimesAdmitted(run, n, t) - TimesUnlocked(run, n, t)
  {
    hide Consistent, Allowed, Do;
    if n > 0 {
      HoldingsAreCounted(preference, run, locks, n - 1, t);
      HistoriesAreConsistent(preference, run, locks, n - 1);
      assert Allowed(locks[n - 1], run[n - 1]) && locks[n] == Do(locks[n - 1], run[n - 1]);
      HoldingsMove(locks[n - 1], run[n - 1], t);
    }
  }

  lemma {:induction false} HolderWasAdmitted(preference: Preference, run: seq<Event>, locks: seq<Lock>, n: nat, t: Tid, k: Kind)
    requires IsHistory(preference, run, locks) && n <= |run| && HoldsAs(locks[n], t, k)
    ensures LastAdmittedAs(run, n, t, k)
  {
    hide Consistent, Allowed, Do, HoldsAs, Holdings;
    if n == 0 {
      NobodyHoldsNewLock(preference, t, k);
      assert false;
    } else {
      HistoriesAreConsistent(preference, run, locks, n - 1);
      HistoriesAreConsistent(preference, run, locks, n);
      assert Allowed(locks[n - 1], run[n - 1]) && locks[n] == Do(locks[n - 1], run[n - 1]);
      HoldingsMove(locks[n - 1], run[n - 1], t);
      if run[n - 1].Acquires? && run[n - 1].t == t {
        HoldersFacts(locks[n], t, k, run[n - 1].k);
      } else {
        HolderWasAdmitted(preference, run, locks, n - 1, t, k);
        var j: nat :| j < n - 1 && run[j] == Acquires(t, k) && forall i: nat | j < i < n - 1 :: !(run[i].Acquires? && run[i].t == t);
      }
    }
  }

  lemma NobodyHoldsNewLock(preference: Preference, t: Tid, k: Kind)
    ensures !HoldsAs(Lock(preference, Nobody, Nobody, [], Queues([], [], []), []), t, k)
  {
  }

  /** From its admission until it unlocks, a thread holds the lock. */
  lemma {:induction false} AdmittedStillHolds(preference: Preference, run: seq<Event>, locks: seq<Lock>, j: nat, n: nat, t: Tid, k: Kind)
    requires IsHistory(preference, run, locks) && j < n <= |run| && run[j] == Acquires(t, k)
    requires forall i | j < i < n :: run[i] != Unlocks(t)
    ensures HoldsAs(locks[n], t, k)
    decreases n
  {
    hide Consistent, Allowed, Do, HoldsAs, Holdings;
    HistoriesAreConsistent(preference, run, locks, n - 1);
    assert Allowed(locks[n - 1], run[n - 1]) && locks[n] == Do(locks[n - 1], run[n - 1]);
    HoldingsMove(locks[n - 1], run[n - 1], t);
    if j < n - 1 {
      AdmittedStillHolds(preference, run, locks, j, n - 1, t, k);
    }
  }

  /** What the lock is for: between a thread's admission and its own unlock, a
      thread is admitted only where both are readers. */
  lemma OnlyReadersShare(preference: Preference, run: seq<Event>, locks: seq<Lock>, j: nat, i: nat)
    requires IsHistory(preference, run, locks) && j < i < |run| && run[j].Acquires? && run[i].Acquires?
    requires forall m | j < m < i :: run[m] != Unlocks(run[j].t)
    ensures run[j].k == Reader && run[i].k == Reader
  {
    HistoriesAreConsistent(preference, run, locks, i);
    AdmittedStillHolds(preference, run, locks, j, i, run[j].t, run[j].k);
    assert Allowed(locks[i], run[i]);
  }

  // ----- who is admitted, by the events alone ---------------------------

  /** The first of kind k to have come that has not been admitted. */
  ghost predicate IsNext(run: seq<Event>, n: nat, k: Kind, t: Tid)
    requires n <= |run|
  {
    var i := |Admissions(run, n, k)|;
    i < |Arrivals(run, n, k)| && Arrivals(run, n, k)[i] == t
  }

  /** The same over all kinds. */
  ghost predicate IsNextOfAll(run: seq<Event>, n: nat, t: Tid)
    requires n <= |run|
  {
    var i := |AllAdmissions(run, n)|;
    i < |AllArrivals(run, n)| && AllArrivals(run, n)[i] == t
  }

  /** Some thread of kind k has come and not been admitted. */
  ghost predicate SomeWait(run: seq<Event>, n: nat, k: Kind)
    requires n <= |run|
  {
    exists t :: IsNext(run, n, k, t)
  }

  /** The kind that goes first under a preference. */
  predicate Prefers(preference: Preference, k: Kind) {
    match preference
    case Writer1Preferred => k == Writer1
    case Writer2Preferred => k == Writer2
    case ReaderPreferred => k == Reader
    case NoPreference => false
  }

  lemma NextIsFront(arrived: seq<Tid>, admitted: seq<Tid>, waiting: seq<Tid>, t: Tid)
    requires arrived == admitted + waiting
    ensures Front(waiting, t) <==> |admitted| < |arrived| && arrived[|admitted|] == t
  {
  }

  lemma NextIsAtFront(preference: Preference, run: seq<Event>, locks: seq<Lock>, n: nat, k: Kind, t: Tid)
    requires IsHistory(preference, run, locks) && n <= |run|
    ensures IsNext(run, n, k, t) <==> Front(locks[n].queues.Of(k), t)
    ensures SomeWait(run, n, k) <==> locks[n].queues.Of(k) != []
  {
    KindsAreFifo(preference, run, locks, n, k);
    var q := locks[n].queues.Of(k);
    NextIsFront(Arrivals(run, n, k), Admissions(run, n, k), q, t);
    if q != [] {
      NextIsFront(Arrivals(run, n, k), Admissions(run, n, k), q, q[0]);
      assert IsNext(run, n, k, q[0]);
    }
  }

  /** The admission policy, by the events alone: a thread is admitted as one of
      kind k if and only if it is the next of its kind (and, without a
      preference, the next of all), no thread of a preferred other kind waits,
      no writer is inside, and no reader either if it is to write. */
  lemma AdmittedIff(preference: Preference, run: seq<Event>, locks: seq<Lock>, n: nat, t: Tid, k: Kind)
    requires IsHistory(preference, run, locks) && n <= |run|
    ensures Allowed(locks[n], Acquires(t, k))
            <==> && IsNext(run, n, k, t) && (preference == NoPreference ==> IsNextOfAll(run, n, t))
                 && (forall j: Kind :: Prefers(preference, j) && j != k ==> !SomeWait(run, n, j))
                 && (forall u, j: Kind :: IsInside(run, n, u, j) ==> k == Reader && j == Reader)
  {
    hide Allowed, Do, IsInside, Consistent, IsNext, SomeWait, Arrivals, Admissions;
    var l := locks[n];
    HistoriesAreConsistent(preference, run, locks, n);
    NextIsAtFront(preference, run, locks, n, k, t);
    forall j: Kind
      ensures SomeWait(run, n, j) <==> l.queues.Of(j) != []
    {
      NextIsAtFront(preference, run, locks, n, j, t);
    }
    forall u, j: Kind
      ensures IsInside(run, n, u, j) <==> HoldsAs(l, u, j)
    {
      HoldersAreAdmitted(preference, run, locks, n, u, j);
    }
    if preference == NoPreference {
      NoPreferenceIsFifo(run, locks, n);
      NextIsFront(AllArrivals(run, n), AllAdmissions(run, n), l.acquire, t);
    }
    AdmissionTest(l, t, k);
  }

  /** The test, in terms of who holds the lock and who waits. */
  lemma AdmissionTest(l: Lock, t: Tid, k: Kind)
    requires Consistent(l)
    ensures Allowed(l, Acquires(t, k))
            <==> && Front(l.queues.Of(k), t) && (l.preference == NoPreference ==> Front(l.acquire, t))
                 && (forall j: Kind :: Prefers(l.preference, j) && j != k ==> l.queues.Of(j) == [])
                 && (forall u, j: Kind :: HoldsAs(l, u, j) ==> k == Reader && j == Reader)
  {
    if Allowed(l, Acquires(t, k)) {
      forall u, j: Kind | HoldsAs(l, u, j)
        ensures k == Reader && j == Reader
      {
      }
    } else if Front(l.queues.Of(k), t) && (l.preference == NoPreference ==> Front(l.acquire, t)) {
      assert Waiting(l, k, t);
      if CanAcquire(l, k, t) {
        AdmittedMayLock(l, k, t);
      } else if WriterLocked(l) {
        var j := if l.writer1.Owned? then Writer1 else Writer2;
        assert HoldsAs(l, if j == Writer1 then l.writer1.t else l.writer2.t, j);
      } else if l.readers != [] {
        assert HoldsAs(l, l.readers[0], Reader);
      }
      if Deferred(l, k) {
        assert Prefers(l.preference, Reader) || Prefers(l.preference, Writer1) || Prefers(l.preference, Writer2);
      }
    }
  }

  /** The guard the wrappers go by, without the asserts. */
  ghost predicate Enabled(l: Lock, e: Event) {
    match e
    case Enqueues(t, k) => forall j: Kind :: t !in l.queues.Of(j)
    case Acquires(t, k) => Waiting(l, k, t) && CanAcquire(l, k, t)
    case Unlocks(t) => Holds(l, t)
  }

  /** Wherever a history leads, the asserts of the lock never stop a step the
      wrappers let happen. */
  lemma AssertsNeverFail(preference: Preference, run: seq<Event>, locks: seq<Lock>, e: Event)
    requires IsHistory(preference, run, locks)
    ensures Enabled(locks[|run|], e) <==> Allowed(locks[|run|], e)
  {
    var l := locks[|run|];
    HistoriesAreConsistent(preference, run, locks, |run|);
    if e.Acquires? && Enabled(l, e) {
      AdmittedMayLock(l, e.k, e.t);
    } else if e.Unlocks? {
      HolderMayUnlock(l, e.t);
    }
  }

  // ----- the dependence relation ----------------------------------------

  /** A transition on one of several locks. */
  datatype Transition = On(lock: nat, e: Event)

  predicate IsReaderLock(e: Event) {
    e.Acquires? && e.k == Reader
  }

  /** dependentWith of each transition: reader locks are independent of each
      other, and all else on one lock is dependent. */
  predicate DependentWith(a: Transition, b: Transition) {
    if IsReaderLock(a.e) && IsReaderLock(b.e) then false else a.lock == b.lock
  }

  predicate Dependent(a: Transition, b: Transition) {
    a.e.t == b.e.t || DependentWith(a, b) || DependentWith(b, a)
  }

  ghost predicate AllowedIn(locks: seq<Lock>, x: Transition) {
    x.lock < |locks| && Allowed(locks[x.lock], x.e)
  }

  ghost function Apply(locks: seq<Lock>, x: Transition): seq<Lock>
    requires AllowedIn(locks, x)
  {
    locks[x.lock := Do(locks[x.lock], x.e)]
  }

  /** Both orders are possible and lead to the same locks. */
  ghost predicate Diamond(locks: seq<Lock>, a: Transition, b: Transition)
    requires AllowedIn(locks, a) && AllowedIn(locks, b)
  {
    && AllowedIn(Apply(locks, a), b) && AllowedIn(Apply(locks, b), a)
    && Apply(Apply(locks, a), b) == Apply(Apply(locks, b), a)
  }

  /** Transitions reported independent and enabled together commute: those on
      different locks because they touch different locks, and two reader locks
      on one lock because they are never enabled together. */
  lemma IndependentMeansDiamond(locks: seq<Lock>, a: Transition, b: Transition)
    requires AllowedIn(locks, a) && AllowedIn(locks, b) && !Dependent(a, b)
    ensures a.lock != b.lock && Diamond(locks, a, b)
  {
    hide Do, Allowed;
    if a.lock == b.lock {
      OneReaderAtATime(locks, a, b);
      assert false;
    }
    assert Apply(Apply(locks, a), b) == Apply(Apply(locks, b), a);
  }

  /** Two reader locks, reported independent, of different threads on one lock
      are never enabled together. */
  lemma OneReaderAtATime(locks: seq<Lock>, a: Transition, b: Transition)
    requires AllowedIn(locks, a) && AllowedIn(locks, b)
    requires IsReaderLock(a.e) && IsReaderLock(b.e) && a.lock == b.lock
    ensures a.e.t == b.e.t
  {
  }

  /** But one can enable the other, which is reported independent of it: it
      does exactly when the other thread is next in the queue that is looked
      at. */
  lemma ReaderEnablesNextReader(l: Lock, i: nat, t: Tid, u: Tid)
    requires Consistent(l) && t != u && Waiting(l, Reader, t) && Waiting(l, Reader, u) && CanAcquire(l, Reader, t)
    ensures !Dependent(On(i, Acquires(t, Reader)), On(i, Acquires(u, Reader)))
    ensures MayLock(l, Reader, t) && !CanAcquire(l, Reader, u)
    ensures var q := if l.preference == NoPreference then l.acquire else l.queues.reader;
            CanAcquire(Acquire(l, Reader, t), Reader, u) <==> |q| > 1 && q[1] == u
  {
    AdmittedMayLock(l, Reader, t);
  }

  // ----- the lock object ------------------------------------------------

  class RwwLock {
    const preference: Preference
    var activeWriter1: Owner
    var activeWriter2: Owner
    var activeReaders: seq<Tid>
    var readerQueue: seq<Tid>
    var writer1Queue: seq<Tid>
    var writer2Queue: seq<Tid>
    var acquireQueue: seq<Tid>

    function View(): Lock
      reads this
    {
      Lock(preference, activeWriter1, activeWriter2, activeReaders, Queues(readerQueue, writer1Queue, writer2Queue), acquireQueue)
    }

    constructor (preference: Preference)
      ensures View() == Lock(preference, Nobody, Nobody, [], Queues([], [], []), [])
    {
      this.preference := preference;
      activeWriter1, activeWriter2, activeReaders := Nobody, Nobody, [];
      readerQueue, writer1Queue, writer2Queue, acquireQueue := [], [], [], [];
    }

    predicate IsUnlocked()
      reads this
    {
      activeWriter1.Nobody? && activeWriter2.Nobody? && activeReaders == []
    }

    /** The three tests, for a thread that has enqueued. */
    predicate CanAcquireAsReader(t: Tid)
      requires Waiting(View(), Reader, t) && |acquireQueue| == View().queues.Size()
      reads this
      ensures CanAcquireAsReader(t) == CanAcquire(View(), Reader, t)
    {
      if preference == Writer1Preferred && writer1Queue != [] then false
      else if preference == Writer2Preferred && writer2Queue != [] then false
      else if preference == NoPreference then activeWriter1.Nobody? && activeWriter2.Nobody? && acquireQueue[0] == t
      else activeWriter1.Nobody? && activeWriter2.Nobody? && readerQueue[0] == t
    }

    predicate CanAcquireAsWriter1(t: Tid)
      requires Waiting(View(), Writer1, t) && |acquireQueue| == View().queues.Size()
      reads this
      ensures CanAcquireAsWriter1(t) == CanAcquire(View(), Writer1, t)
    {
      if preference == Writer2Preferred && writer2Queue != [] then false
      else if preference == ReaderPreferred && readerQueue != [] then false
      else if preference == NoPreference then IsUnlocked() && acquireQueue[0] == t
      else IsUnlocked() && writer1Queue[0] == t
    }

    predicate CanAcquireAsWriter2(t: Tid)
      requires Waiting(View(), Writer2, t) && |acquireQueue| == View().queues.Size()
      reads this
      ensures CanAcquireAsWriter2(t) == CanAcquire(View(), Writer2, t)
    {
      if preference == Writer1Preferred && writer1Queue != [] then false
      else if preference == ReaderPreferred && readerQueue != [] then false
      else if preference == NoPreference then IsUnlocked() && acquireQueue[0] == t
      else IsUnlocked() && writer2Queue[0] == t
    }

    method EnqueueAsReader(t: Tid)
      modifies this
      ensures View() == Enqueue(old(View()), Reader, t)
    {
      readerQueue := readerQueue + [t];
      acquireQueue := acquireQueue + [t];
    }

    method EnqueueAsWriter1(t: Tid)
      modifies this
      ensures View() == Enqueue(old(View()), Writer1, t)
    {
      writer1Queue := writer1Queue + [t];
      acquireQueue := acquireQueue + [t];
    }

    method EnqueueAsWriter2(t: Tid)
      modifies this
      ensures View() == Enqueue(old(View()), Writer2, t)
    {
      writer2Queue := writer2Queue + [t];
      acquireQueue := acquireQueue + [t];
    }

    method ReaderLock(t: Tid)
      requires Consistent(View()) && Waiting(View(), Reader, t) && CanAcquire(View(), Reader, t)
      modifies this
      ensures MayLock(old(View()), Reader, t) && View() == Acquire(old(View()), Reader, t) && Consistent(View())
      ensures HoldsAs(View(), t, Reader)
    {
      AcquireKeepsConsistent(View(), Reader, t);
      activeReaders := activeReaders + [t];
      assert readerQueue != [];
      assert acquireQueue != [];
      assert readerQueue[0] == t;
      readerQueue := readerQueue[1..];
      acquireQueue := acquireQueue[1..];
    }

    method Writer1Lock(t: Tid)
      requires Consistent(View()) && Waiting(View(), Writer1, t) && CanAcquire(View(), Writer1, t)
      modifies this
      ensures MayLock(old(View()), Writer1, t) && View() == Acquire(old(View()), Writer1, t) && Consistent(View())
    {
      AcquireKeepsConsistent(View(), Writer1, t);
      assert activeWriter1.Nobody?;
      assert writer1Queue != [];
      assert writer1Queue[0] == t;
      writer1Queue := writer1Queue[1..];
      acquireQueue := acquireQueue[1..];
      activeWriter1 := Owned(t);
    }

    method Writer2Lock(t: Tid)
      requires Consistent(View()) && Waiting(View(), Writer2, t) && CanAcquire(View(), Writer2, t)
      modifies this
      ensures MayLock(old(View()), Writer2, t) && View() == Acquire(old(View()), Writer2, t) && Consistent(View())
    {
      AcquireKeepsConsistent(View(), Writer2, t);
      assert activeWriter2.Nobody?;
      assert writer2Queue != [];
      assert writer2Queue[0] == t;
      writer2Queue := writer2Queue[1..];
      acquireQueue := acquireQueue[1..];
      activeWriter2 := Owned(t);
    }

    method UnlockBy(t: Tid)
      requires Consistent(View()) && Holds(View(), t)
      modifies this
      ensures MayUnlock(old(View()), t) && View() == Unlock(old(View()), t) && Consistent(View())
      ensures forall u :: Holdings(View(), u) == Holdings(old(View()), u) - if u == t then 1 else 0
    {
      HolderMayUnlock(View(), t);
      UnlockKeepsConsistent(View(), t);
      if activeWriter1.Owned? {
        assert activeWriter1.t == t;
        activeWriter1 := Nobody;
      } else if activeWriter2.Owned? {
        assert activeWriter2.t == t;
        activeWriter2 := Nobody;
      } else {
        assert activeReaders != [];
        EraseReader(t);
      }
    }

    /** The first entry of a reader that is there. */
    method EraseReader(t: Tid)
      requires t in activeReaders
      modifies this`activeReaders
      ensures activeReaders == Drop(old(activeReaders), t)
    {
      hide Drop;
      var i := 0;
      while i < |activeReaders| && activeReaders[i] != t
        invariant 0 <= i <= |activeReaders| && activeReaders == old(activeReaders)
        invariant forall j | 0 <= j < i :: activeReaders[j] != t
      {
        i := i + 1;
      }
      assert i != |activeReaders|;
      DropsFirst(activeReaders, i, t);
      activeReaders := activeReaders[..i] + activeReaders[i + 1..];
    }
  }
}
