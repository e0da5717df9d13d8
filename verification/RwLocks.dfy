/** The reader/writer lock with one class of writers. It is the
    reader/writer/writer lock of RwwLocks.dfy with the second class never used,
    which is proved operation by operation, so that what holds of the histories
    of that lock holds of this one. */
module RwLocks {
  import opened ClockVectors
  import Rww = RwwLocks

  datatype Preference = WriterPreferred | ReaderPreferred | NoPreference

  datatype Lock = Lock(preference: Preference, writer: Rww.Owner, readers: seq<Tid>, readerQueue: seq<Tid>, writerQueue: seq<Tid>, acquire: seq<Tid>)

  predicate Unlocked(l: Lock) {
    l.writer.Nobody? && l.readers == []
  }

  predicate CanAcquireAsReader(l: Lock, t: Tid) {
    if l.preference == WriterPreferred && l.writerQueue != [] then false
    else if l.preference == NoPreference then l.writer.Nobody? && Rww.Front(l.acquire, t)
    else l.writer.Nobody? && Rww.Front(l.readerQueue, t)
  }

  predicate CanAcquireAsWriter(l: Lock, t: Tid) {
    if l.preference == ReaderPreferred && l.readerQueue != [] then false
    else if l.preference == NoPreference then Unlocked(l) && Rww.Front(l.acquire, t)
    else Unlocked(l) && Rww.Front(l.writerQueue, t)
  }

  /** The asserts of the methods that lock and unlock. */
  predicate MayReaderLock(l: Lock, t: Tid) {
    Rww.Front(l.readerQueue, t) && l.acquire != []
  }

  predicate MayWriterLock(l: Lock, t: Tid) {
    l.writer.Nobody? && Rww.Front(l.writerQueue, t) && l.acquire != []
  }

  predicate MayUnlock(l: Lock, t: Tid) {
    if l.writer.Owned? then l.writer.t == t else t in l.readers
  }

  // ----- the embedding --------------------------------------------------

  function Embed(l: Lock): Rww.Lock {
    Rww.Lock(
      match l.preference
      case WriterPreferred => Rww.Writer1Preferred
      case ReaderPreferred => Rww.ReaderPreferred
      case NoPreference => Rww.NoPreference,
      l.writer, Rww.Nobody, l.readers, Rww.Queues(l.readerQueue, l.writerQueue, []), l.acquire)
  }

  function KindOf(writer: bool): Rww.Kind {
    if writer then Rww.Writer1 else Rww.Reader
  }

  predicate CanAcquire(l: Lock, writer: bool, t: Tid) {
    if writer then CanAcquireAsWriter(l, t) else CanAcquireAsReader(l, t)
  }

  predicate MayLock(l: Lock, writer: bool, t: Tid) {
    if writer then MayWriterLock(l, t) else MayReaderLock(l, t)
  }

  function Enqueue(l: Lock, writer: bool, t: Tid): Lock {
    if writer then l.(writerQueue := l.writerQueue + [t], acquire := l.acquire + [t])
    else l.(readerQueue := l.readerQueue + [t], acquire := l.acquire + [t])
  }

  function Acquire(l: Lock, writer: bool, t: Tid): Lock
    requires MayLock(l, writer, t)
  {
    if writer then l.(writerQueue := l.writerQueue[1..], acquire := l.acquire[1..], writer := Rww.Owned(t))
    else l.(readerQueue := l.readerQueue[1..], acquire := l.acquire[1..], readers := l.readers + [t])
  }

  function Unlock(l: Lock, t: Tid): Lock
    requires MayUnlock(l, t)
  {
    if l.writer.Owned? then l.(writer := Rww.Nobody) else l.(readers := Rww.Drop(l.readers, t))
  }

  /** Every test and every operation is that of the larger lock. */
  lemma EmbeddingAgrees(l: Lock, writer: bool, t: Tid)
    ensures CanAcquire(l, writer, t) <==> Rww.CanAcquire(Embed(l), KindOf(writer), t)
    ensures MayLock(l, writer, t) <==> Rww.MayLock(Embed(l), KindOf(writer), t)
    ensures MayUnlock(l, t) <==> Rww.MayUnlock(Embed(l), t)
    ensures Embed(Enqueue(l, writer, t)) == Rww.Enqueue(Embed(l), KindOf(writer), t)
    ensures MayLock(l, writer, t) ==> Embed(Acquire(l, writer, t)) == Rww.Acquire(Embed(l), KindOf(writer), t)
    ensures MayUnlock(l, t) ==> Embed(Unlock(l, t)) == Rww.Unlock(Embed(l), t)
  {
  }

  // ----- histories ------------------------------------------------------

  datatype Event = Enqueues(t: Tid, writer: bool) | Acquires(t: Tid, writer: bool) | Unlocks(t: Tid)

  ghost predicate Allowed(l: Lock, e: Event) {
    match e
    case Enqueues(t, writer) => t !in l.readerQueue && t !in l.writerQueue
    case Acquires(t, writer) => t in (if writer then l.writerQueue else l.readerQueue) && CanAcquire(l, writer, t) && MayLock(l, writer, t)
    case Unlocks(t) => (l.writer == Rww.Owned(t) || t in l.readers) && MayUnlock(l, t)
  }

  ghost function Do(l: Lock, e: Event): Lock
    requires Allowed(l, e)
  {
    match e
    case Enqueues(t, writer) => Enqueue(l, writer, t)
    case Acquires(t, writer) => Acquire(l, writer, t)
    case Unlocks(t) => Unlock(l, t)
  }

  ghost predicate IsHistory(preference: Preference, run: seq<Event>, locks: seq<Lock>) {
    && |locks| == |run| + 1
    && locks[0] == Lock(preference, Rww.Nobody, [], [], [], [])
    && forall i | 0 <= i < |run| :: Allowed(locks[i], run[i]) && locks[i + 1] == Do(locks[i], run[i])
  }

  function EmbedEvent(e: Event): Rww.Event {
    match e
    case Enqueues(t, writer) => Rww.Enqueues(t, KindOf(writer))
    case Acquires(t, writer) => Rww.Acquires(t, KindOf(writer))
    case Unlocks(t) => Rww.Unlocks(t)
  }

  function EmbedRun(run: seq<Event>): (r: seq<Rww.Event>)
    ensures |r| == |run| && forall i | 0 <= i < |r| :: r[i] == EmbedEvent(run[i])
  {
    seq(|run|, i requires 0 <= i < |run| => EmbedEvent(run[i]))
  }

  function EmbedLocks(locks: seq<Lock>): (r: seq<Rww.Lock>)
    ensures |r| == |locks| && forall i | 0 <= i < |r| :: r[i] == Embed(locks[i])
  {
    seq(|locks|, i requires 0 <= i < |locks| => Embed(locks[i]))
  }

  lemma StepEmbeds(l: Lock, e: Event)
    requires Allowed(l, e)
    ensures Rww.Allowed(Embed(l), EmbedEvent(e)) && Embed(Do(l, e)) == Rww.Do(Embed(l), EmbedEvent(e))
  {
    EmbeddingAgrees(l, !e.Unlocks? && e.writer, e.t);
  }

  /** A history of this lock is a history of the larger one. */
  lemma HistoriesEmbed(preference: Preference, run: seq<Event>, locks: seq<Lock>)
    requires IsHistory(preference, run, locks)
    ensures Rww.IsHistory(Embed(locks[0]).preference, EmbedRun(run), EmbedLocks(locks))
  {
    hide Allowed, Do, Rww.Allowed, Rww.Do;
    forall i | 0 <= i < |run|
      ensures Rww.Allowed(EmbedLocks(locks)[i], EmbedRun(run)[i])
              && EmbedLocks(locks)[i + 1] == Rww.Do(EmbedLocks(locks)[i], EmbedRun(run)[i])
    {
      assert Allowed(locks[i], run[i]) && locks[i + 1] == Do(locks[i], run[i]);
      StepEmbeds(locks[i], run[i]);
    }
  }

  /** The guard the wrappers go by, without the asserts. */
  ghost predicate Enabled(l: Lock, e: Event) {
    match e
    case Enqueues(t, writer) => t !in l.readerQueue && t !in l.writerQueue
    case Acquires(t, writer) => t in (if writer then l.writerQueue else l.readerQueue) && CanAcquire(l, writer, t)
    case Unlocks(t) => l.writer == Rww.Owned(t) || t in l.readers
  }

  /** In every reachable state: a writer excludes readers, the acquire queue is
      as long as the two class queues, and no assert stops an enabled step. */
  lemma HistoriesAreConsistent(preference: Preference, run: seq<Event>, locks: seq<Lock>, n: nat, e: Event)
    requires IsHistory(preference, run, locks) && n <= |run|
    ensures locks[n].writer.Owned? ==> locks[n].readers == []
    ensures |locks[n].acquire| == |locks[n].readerQueue| + |locks[n].writerQueue|
    ensures Enabled(locks[n], e) <==> Allowed(locks[n], e)
  {
    hide Rww.IsHistory, Rww.Interleaves;
    HistoriesEmbed(preference, run, locks);
    Rww.HistoriesAreConsistent(Embed(locks[0]).preference, EmbedRun(run), EmbedLocks(locks), n);
    var l := locks[n];
    if e.Acquires? && Enabled(l, e) {
      EmbeddingAgrees(l, e.writer, e.t);
      Rww.AdmittedMayLock(Embed(l), KindOf(e.writer), e.t);
    } else if e.Unlocks? {
      EmbeddingAgrees(l, false, e.t);
      Rww.HolderMayUnlock(Embed(l), e.t);
    }
  }

  /** When the lock is free and some thread waits, a waiting thread is
      admitted. */
  lemma FreeLockAdmitsSomeone(preference: Preference, run: seq<Event>, locks: seq<Lock>, n: nat)
    requires IsHistory(preference, run, locks) && n <= |run|
    requires Unlocked(locks[n]) && (locks[n].readerQueue != [] || locks[n].writerQueue != [])
    ensures exists t, writer :: t in (if writer then locks[n].writerQueue else locks[n].readerQueue) && CanAcquire(locks[n], writer, t)
  {
    hide Rww.IsHistory, Rww.Consistent;
    HistoriesEmbed(preference, run, locks);
    Rww.HistoriesAreConsistent(Embed(locks[0]).preference, EmbedRun(run), EmbedLocks(locks), n);
    var l := locks[n];
    var writer := l.readerQueue == [];
    var some := if writer then l.writerQueue[0] else l.readerQueue[0];
    Rww.FreeLockAdmitsSomeone(Embed(l), KindOf(writer), some);
    var k: Rww.Kind, u :| Rww.Waiting(Embed(l), k, u) && Rww.CanAcquire(Embed(l), k, u);
    EmbeddingAgrees(l, k == Rww.Writer1, u);
    assert CanAcquire(l, k == Rww.Writer1, u);
  }

  /** Without a preference threads are admitted in the order they came. */
  lemma NoPreferenceIsFifo(run: seq<Event>, locks: seq<Lock>, n: nat)
    requires IsHistory(NoPreference, run, locks) && n <= |run|
    ensures Rww.AllArrivals(EmbedRun(run), n) == Rww.AllAdmissions(EmbedRun(run), n) + locks[n].acquire
  {
    hide Rww.IsHistory;
    HistoriesEmbed(NoPreference, run, locks);
    Rww.NoPreferenceIsFifo(EmbedRun(run), EmbedLocks(locks), n);
  }

  /** Within a class, threads are admitted in the order they came. */
  lemma KindsAreFifo(preference: Preference, run: seq<Event>, locks: seq<Lock>, n: nat, writer: bool)
    requires IsHistory(preference, run, locks) && n <= |run|
    ensures Rww.Arrivals(EmbedRun(run), n, KindOf(writer))
            == Rww.Admissions(EmbedRun(run), n, KindOf(writer)) + (if writer then locks[n].writerQueue else locks[n].readerQueue)
  {
    hide Rww.IsHistory;
    HistoriesEmbed(preference, run, locks);
    Rww.KindsAreFifo(Embed(locks[0]).preference, EmbedRun(run), EmbedLocks(locks), n, KindOf(writer));
  }

  // ----- who holds the lock, by the events alone ------------------------

  function TimesAdmitted(run: seq<Event>, n: nat, t: Tid): nat
    requires n <= |run|
  {
    if n == 0 then 0 else TimesAdmitted(run, n - 1, t) + if run[n - 1].Acquires? && run[n - 1].t == t then 1 else 0
  }

  function TimesUnlocked(run: seq<Event>, n: nat, t: Tid): nat
    requires n <= |run|
  {
    if n == 0 then 0 else TimesUnlocked(run, n - 1, t) + if run[n - 1] == Unlocks(t) then 1 else 0
  }

  /** Admitted as a writer or a reader, and not unlocked since as often as
      admitted. */
  ghost predicate IsInside(run: seq<Event>, n: nat, t: Tid, writer: bool)
    requires n <= |run|
  {
    && TimesAdmitted(run, n, t) > TimesUnlocked(run, n, t)
    && exists j: nat :: j < n && run[j] == Acquires(t, writer) && forall i: nat | j < i < n :: !(run[i].Acquires? && run[i].t == t)
  }

  ghost predicate HoldsAs(l: Lock, t: Tid, writer: bool) {
    if writer then l.writer == Rww.Owned(t) else t in l.readers
  }

  /** How many times t holds the lock; a reader may hold it more than once. */
  ghost function Holdings(l: Lock, t: Tid): nat {
    multiset(l.readers)[t] + if l.writer == Rww.Owned(t) then 1 else 0
  }

  lemma {:induction false} TimesEmbed(run: seq<Event>, n: nat, t: Tid)
    requires n <= |run|
    ensures Rww.TimesAdmitted(EmbedRun(run), n, t) == TimesAdmitted(run, n, t)
    ensures Rww.TimesUnlocked(EmbedRun(run), n, t) == TimesUnlocked(run, n, t)
  {
    if n > 0 {
      TimesEmbed(run, n - 1, t);
    }
  }

  lemma InsideEmbeds(run: seq<Event>, n: nat, t: Tid, writer: bool)
    requires n <= |run|
    ensures Rww.IsInside(EmbedRun(run), n, t, KindOf(writer)) <==> IsInside(run, n, t, writer)
  {
    TimesEmbed(run, n, t);
    var r := EmbedRun(run);
    assert forall i: nat | i < n :: r[i].Acquires? <==> run[i].Acquires?;
    if j: nat :| j < n && run[j] == Acquires(t, writer) && forall i: nat | j < i < n :: !(run[i].Acquires? && run[i].t == t) {
      assert r[j] == Rww.Acquires(t, KindOf(writer));
    }
    if j: nat :| j < n && r[j] == Rww.Acquires(t, KindOf(writer)) && forall i: nat | j < i < n :: !(r[i].Acquires? && r[i].t == t) {
      assert run[j] == Acquires(t, writer);
      assert forall i: nat | j < i < n :: !(run[i].Acquires? && run[i].t == t);
    }
  }

  /** The lock is held exactly by the threads that were admitted more often than
      they unlocked, as often as that, and as they were last admitted. */
  lemma HoldersAreAdmitted(preference: Preference, run: seq<Event>, locks: seq<Lock>, n: nat, t: Tid, writer: bool)
    requires IsHistory(preference, run, locks) && n <= |run|
    ensures Holdings(locks[n], t) == TimesAdmitted(run, n, t) - TimesUnlocked(run, n, t)
    ensures HoldsAs(locks[n], t, writer) <==> IsInside(run, n, t, writer)
  {
    hide Rww.IsHistory, Rww.IsInside, IsInside;
    HistoriesEmbed(preference, run, locks);
    Rww.HoldersAreAdmitted(Embed(locks[0]).preference, EmbedRun(run), EmbedLocks(locks), n, t, KindOf(writer));
    TimesEmbed(run, n, t);
    InsideEmbeds(run, n, t, writer);
  }

  /** What the lock is for: between a thread's admission and its own unlock, a
      thread is admitted only where both are readers. */
  lemma OnlyReadersShare(preference: Preference, run: seq<Event>, locks: seq<Lock>, j: nat, i: nat)
    requires IsHistory(preference, run, locks) && j < i < |run| && run[j].Acquires? && run[i].Acquires?
    requires forall m | j < m < i :: run[m] != Unlocks(run[j].t)
    ensures !run[j].writer && !run[i].writer
  {
    hide Rww.IsHistory;
    HistoriesEmbed(preference, run, locks);
    assert forall m | j < m < i :: EmbedRun(run)[m] == EmbedEvent(run[m]);
    Rww.OnlyReadersShare(Embed(locks[0]).preference, EmbedRun(run), EmbedLocks(locks), j, i);
  }

  /** Some thread that came to write, or to read, has not been admitted. */
  ghost predicate SomeWait(run: seq<Event>, n: nat, writer: bool)
    requires n <= |run|
  {
    exists t :: Rww.IsNext(EmbedRun(run), n, KindOf(writer), t)
  }

  predicate Prefers(preference: Preference, writer: bool) {
    match preference
    case WriterPreferred => writer
    case ReaderPreferred => !writer
    case NoPreference => false
  }

  /** The admission policy, by the events alone: a thread is admitted to write,
      or to read, if and only if it is the next to do so (and, without a
      preference, the next of all), no thread with the preferred other purpose
      waits, no writer is inside, and no reader either if it is to write. */
  lemma AdmittedIff(preference: Preference, run: seq<Event>, locks: seq<Lock>, n: nat, t: Tid, writer: bool)
    requires IsHistory(preference, run, locks) && n <= |run|
    ensures Allowed(locks[n], Acquires(t, writer))
            <==> && Rww.IsNext(EmbedRun(run), n, KindOf(writer), t)
                 && (preference == NoPreference ==> Rww.IsNextOfAll(EmbedRun(run), n, t))
                 && (Prefers(preference, !writer) ==> !SomeWait(run, n, !writer))
                 && (forall u, w :: IsInside(run, n, u, w) ==> !writer && !w)
  {
    hide Rww.IsHistory, Rww.IsInside, IsInside, Rww.IsNext, Rww.IsNextOfAll, Rww.CanAcquire, Rww.MayLock, CanAcquire, MayLock;
    HistoriesEmbed(preference, run, locks);
    var l, r, ls, pref, k := locks[n], EmbedRun(run), EmbedLocks(locks), Embed(locks[0]).preference, KindOf(writer);
    EmbeddingAgrees(l, writer, t);
    Rww.AdmittedIff(pref, r, ls, n, t, k);
    assert Rww.Allowed(Embed(l), Rww.Acquires(t, k)) <==> Allowed(l, Acquires(t, writer));
    forall u, w
      ensures Rww.IsInside(r, n, u, KindOf(w)) <==> IsInside(run, n, u, w)
    {
      InsideEmbeds(run, n, u, w);
    }
    forall u
      ensures !Rww.IsInside(r, n, u, Rww.Writer2)
    {
      Rww.HoldersAreAdmitted(pref, r, ls, n, u, Rww.Writer2);
    }
    assert forall u, j: Rww.Kind :: Rww.IsInside(r, n, u, j) ==> j == KindOf(false) || j == KindOf(true);
    PreferencesEmbed(preference, run, locks, n, writer);
  }

  lemma PreferencesEmbed(preference: Preference, run: seq<Event>, locks: seq<Lock>, n: nat, writer: bool)
    requires IsHistory(preference, run, locks) && n <= |run|
    ensures (forall j: Rww.Kind :: Rww.Prefers(Embed(locks[0]).preference, j) && j != KindOf(writer) ==> !Rww.SomeWait(EmbedRun(run), n, j))
            <==> (Prefers(preference, !writer) ==> !SomeWait(run, n, !writer))
  {
    hide Rww.IsNext;
    forall w
      ensures Rww.SomeWait(EmbedRun(run), n, KindOf(w)) <==> SomeWait(run, n, w)
    {
    }
  }

  // ----- the dependence relation ----------------------------------------

  datatype Transition = On(lock: nat, e: Event)

  predicate IsReaderLock(e: Event) {
    e.Acquires? && !e.writer
  }

  /** dependentWith of each transition of this lock. */
  predicate DependentWith(a: Transition, b: Transition) {
    if IsReaderLock(a.e) && IsReaderLock(b.e) then false else a.lock == b.lock
  }

  predicate Dependent(a: Transition, b: Transition) {
    a.e.t == b.e.t || DependentWith(a, b) || DependentWith(b, a)
  }

  function EmbedTransition(x: Transition): Rww.Transition {
    Rww.On(x.lock, EmbedEvent(x.e))
  }

  ghost predicate AllowedIn(locks: seq<Lock>, x: Transition) {
    x.lock < |locks| && Allowed(locks[x.lock], x.e)
  }

  ghost function Apply(locks: seq<Lock>, x: Transition): seq<Lock>
    requires AllowedIn(locks, x)
  {
    locks[x.lock := Do(locks[x.lock], x.e)]
  }

  /** The relation is that of the larger lock, and so are its diamonds. */
  lemma IndependentMeansDiamond(locks: seq<Lock>, a: Transition, b: Transition)
    requires AllowedIn(locks, a) && AllowedIn(locks, b) && !Dependent(a, b)
    ensures !Rww.Dependent(EmbedTransition(a), EmbedTransition(b)) && a.lock != b.lock
    ensures AllowedIn(Apply(locks, a), b) && AllowedIn(Apply(locks, b), a)
    ensures Apply(Apply(locks, a), b) == Apply(Apply(locks, b), a)
  {
    hide Allowed, Do, Rww.Allowed, Rww.Do;
    StepEmbeds(locks[a.lock], a.e);
    StepEmbeds(locks[b.lock], b.e);
    Rww.IndependentMeansDiamond(EmbedLocks(locks), EmbedTransition(a), EmbedTransition(b));
    assert Apply(Apply(locks, a), b) == Apply(Apply(locks, b), a);
  }

  /** A reader lock enables another one, reported independent of it, exactly
      when the other thread is next in the queue that is looked at. */
  lemma ReaderEnablesNextReader(l: Lock, i: nat, t: Tid, u: Tid)
    requires Rww.Consistent(Embed(l)) && t != u && t in l.readerQueue && u in l.readerQueue && CanAcquireAsReader(l, t)
    ensures !Dependent(On(i, Acquires(t, false)), On(i, Acquires(u, false)))
    ensures MayReaderLock(l, t) && !CanAcquireAsReader(l, u)
    ensures var q := if l.preference == NoPreference then l.acquire else l.readerQueue;
            CanAcquireAsReader(Acquire(l, false, t), u) <==> |q| > 1 && q[1] == u
  {
    EmbeddingAgrees(l, false, t);
    EmbeddingAgrees(l, false, u);
    Rww.ReaderEnablesNextReader(Embed(l), i, t, u);
    EmbeddingAgrees(Acquire(l, false, t), false, u);
  }

  // ----- the lock object ------------------------------------------------

  class RwLock {
    const preference: Preference
    var activeWriter: Rww.Owner
    var activeReaders: seq<Tid>
    var readerQueue: seq<Tid>
    var writerQueue: seq<Tid>
    var acquireQueue: seq<Tid>

    function View(): Lock
      reads this
    {
      Lock(preference, activeWriter, activeReaders, readerQueue, writerQueue, acquireQueue)
    }

    constructor (preference: Preference)
      ensures View() == Lock(preference, Rww.Nobody, [], [], [], [])
    {
      this.preference := preference;
      activeWriter, activeReaders, readerQueue, writerQueue, acquireQueue := Rww.Nobody, [], [], [], [];
    }

    method EnqueueAsReader(t: Tid)
      modifies this
      ensures View() == Enqueue(old(View()), false, t)
    {
      readerQueue := readerQueue + [t];
      acquireQueue := acquireQueue + [t];
    }

    method EnqueueAsWriter(t: Tid)
      modifies this
      ensures View() == Enqueue(old(View()), true, t)
    {
      writerQueue := writerQueue + [t];
      acquireQueue := acquireQueue + [t];
    }

    method ReaderLock(t: Tid)
      requires Rww.Consistent(Embed(View())) && t in readerQueue && CanAcquireAsReader(View(), t)
      modifies this
      ensures MayLock(old(View()), false, t) && View() == Acquire(old(View()), false, t)
      ensures Rww.Consistent(Embed(View()))
    {
      EmbeddingAgrees(View(), false, t);
      Rww.AcquireKeepsConsistent(Embed(View()), Rww.Reader, t);
      activeReaders := activeReaders + [t];
      assert readerQueue != [];
      assert acquireQueue != [];
      assert readerQueue[0] == t;
      readerQueue := readerQueue[1..];
      acquireQueue := acquireQueue[1..];
    }

    method WriterLock(t: Tid)
      requires Rww.Consistent(Embed(View())) && t in writerQueue && CanAcquireAsWriter(View(), t)
      modifies this
      ensures MayLock(old(View()), true, t) && View() == Acquire(old(View()), true, t)
      ensures Rww.Consistent(Embed(View()))
    {
      EmbeddingAgrees(View(), true, t);
      Rww.AcquireKeepsConsistent(Embed(View()), Rww.Writer1, t);
      assert activeWriter.Nobody?;
      assert writerQueue != [];
      assert writerQueue[0] == t;
      writerQueue := writerQueue[1..];
      acquireQueue := acquireQueue[1..];
      activeWriter := Rww.Owned(t);
    }

    method UnlockBy(t: Tid)
      requires Rww.Consistent(Embed(View())) && (activeWriter == Rww.Owned(t) || t in activeReaders)
      modifies this
      ensures MayUnlock(old(View()), t) && View() == Unlock(old(View()), t)
      ensures Rww.Consistent(Embed(View()))
      ensures forall u :: Rww.Holdings(Embed(View()), u) == Rww.Holdings(Embed(old(View())), u) - if u == t then 1 else 0
    {
      EmbeddingAgrees(View(), false, t);
      Rww.HolderMayUnlock(Embed(View()), t);
      Rww.UnlockKeepsConsistent(Embed(View()), t);
      if activeWriter.Owned? {
        assert activeWriter.t == t;
        activeWriter := Rww.Nobody;
      } else {
        assert activeReaders != [];
        activeReaders := Rww.Drop(activeReaders, t);
      }
    }
  }
}
