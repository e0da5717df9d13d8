/** The wake policy of condition variables: who may leave pthread_cond_wait.
    A signal makes a wake group of everyone who waits at that moment; one of
    them may consume it. A broadcast makes everyone who waits eligible. */
module WakePolicies {
  import opened ClockVectors

  datatype Policy = Policy(queue: seq<Tid>, groups: seq<seq<Tid>>, eligible: set<Tid>)

  const NOBODY := Policy([], [], {})

  // ----- sequences of threads -------------------------------------------

  function RemoveAll(s: seq<Tid>, t: Tid): (r: seq<Tid>)
    ensures forall q :: q in r <==> q in s && q != t
  {
    if s == [] then []
    else
      var n := |s| - 1;
      assert s == s[..n] + [s[n]];
      RemoveAll(s[..n], t) + if s[n] == t then [] else [s[n]]
  }

  function RemoveFirst(s: seq<Tid>, t: Tid): seq<Tid> {
    if s == [] then [] else if s[0] == t then s[1..] else [s[0]] + RemoveFirst(s[1..], t)
  }

  ghost predicate Distinct(s: seq<Tid>) {
    forall i, j | 0 <= i < j < |s| :: s[i] != s[j]
  }

  lemma {:induction false} RemoveAllJoins(a: seq<Tid>, b: seq<Tid>, t: Tid)
    ensures RemoveAll(a + b, t) == RemoveAll(a, t) + RemoveAll(b, t)
  {
    if b == [] {
      assert a + b == a;
    } else {
      var n := |b| - 1;
      assert (a + b)[..|a| + n] == a + b[..n];
      RemoveAllJoins(a, b[..n], t);
    }
  }

  lemma {:induction false} RemoveAllAbsent(s: seq<Tid>, t: Tid)
    requires t !in s
    ensures RemoveAll(s, t) == s
  {
    if s != [] {
      assert s == s[..|s| - 1] + [s[|s| - 1]];
      RemoveAllAbsent(s[..|s| - 1], t);
    }
  }

  lemma {:induction false} RemoveFirstOfDistinct(s: seq<Tid>, t: Tid)
    requires Distinct(s)
    ensures RemoveFirst(s, t) == RemoveAll(s, t)
  {
    if s != [] {
      assert s == [s[0]] + s[1..];
      RemoveAllJoins([s[0]], s[1..], t);
      assert RemoveAll([s[0]], t) == if s[0] == t then [] else [s[0]] by {
        assert [s[0]][..0] == [];
      }
      if s[0] == t {
        RemoveAllAbsent(s[1..], t);
      } else {
        RemoveFirstOfDistinct(s[1..], t);
      }
    }
  }

  lemma {:induction false} RemoveAllKeepsDistinct(s: seq<Tid>, t: Tid)
    requires Distinct(s)
    ensures Distinct(RemoveAll(s, t))
  {
    if s != [] {
      var n := |s| - 1;
      RemoveAllKeepsDistinct(s[..n], t);
      var r := RemoveAll(s[..n], t);
      assert forall i | 0 <= i < |r| :: r[i] in s[..n];
      assert s[n] !in s[..n];
    }
  }

  lemma RemoveAllKeepsPrefix(a: seq<Tid>, b: seq<Tid>, t: Tid)
    requires a <= b
    ensures RemoveAll(a, t) <= RemoveAll(b, t)
  {
    assert b == a + b[|a|..];
    RemoveAllJoins(a, b[|a|..], t);
  }

  // ----- the operations -------------------------------------------------

  function AddWaiter(p: Policy, t: Tid): Policy {
    p.(queue := p.queue + [t])
  }

  function Signal(p: Policy): Policy {
    if p.queue == [] then p else p.(groups := p.groups + [p.queue])
  }

  ghost function Members(groups: seq<seq<Tid>>): (r: set<Tid>)
    ensures forall t :: t in r <==> exists i :: 0 <= i < |groups| && t in groups[i]
  {
    set i, t | 0 <= i < |groups| && t in groups[i] :: t
  }

  ghost function Broadcast(p: Policy): Policy {
    Policy(p.queue, [], p.eligible + Members(p.groups) + set t | t in p.queue)
  }

  /** The first group t is in; the number of groups when there is none. */
  function FirstGroup(groups: seq<seq<Tid>>, t: Tid): (g: nat)
    ensures g <= |groups|
    ensures g < |groups| ==> t in groups[g]
    ensures forall i | 0 <= i < g :: t !in groups[i]
  {
    if groups == [] || t in groups[0] then 0 else 1 + FirstGroup(groups[1..], t)
  }

  ghost predicate CanExit(p: Policy, t: Tid) {
    t in p.eligible || exists i :: 0 <= i < |p.groups| && t in p.groups[i]
  }

  function Consumed(groups: seq<seq<Tid>>, g: nat): (r: seq<seq<Tid>>)
    requires g < |groups|
    ensures |r| == |groups| - 1
    ensures forall i | 0 <= i < |r| :: r[i] == groups[Skip(g, i)]
  {
    groups[..g] + groups[g + 1..]
  }

  /** Index in the old list of what is at index i once index g is gone. */
  function Skip(g: nat, i: nat): nat {
    if i < g then i else i + 1
  }

  function Purged(groups: seq<seq<Tid>>, t: Tid): (r: seq<seq<Tid>>)
    ensures |r| == |groups|
    ensures forall i | 0 <= i < |r| :: r[i] == RemoveAll(groups[i], t)
  {
    seq(|groups|, i requires 0 <= i < |groups| => RemoveAll(groups[i], t))
  }

  ghost function Wake(p: Policy, t: Tid): Policy
    requires CanExit(p, t)
  {
    var rest := if t in p.eligible then p.groups else Consumed(p.groups, FirstGroup(p.groups, t));
    Policy(RemoveFirst(p.queue, t), Purged(rest, t), p.eligible - {t})
  }

  /** The threads of s but for t. */
  ghost predicate AllBut(r: seq<Tid>, s: seq<Tid>, t: Tid) {
    forall q :: q in r <==> q in s && q != t
  }

  lemma WakeOfEligible(p: Policy, t: Tid)
    requires t in p.eligible
    ensures var w := Wake(p, t);
            w.eligible == p.eligible - {t} && |w.groups| == |p.groups| && forall i | 0 <= i < |w.groups| :: AllBut(w.groups[i], p.groups[i], t)
  {
  }

  lemma WakeBySignal(p: Policy, t: Tid)
    requires t !in p.eligible && CanExit(p, t)
    ensures var w, g := Wake(p, t), FirstGroup(p.groups, t);
            && w.eligible == p.eligible && g < |p.groups| && |w.groups| == |p.groups| - 1
            && forall i | 0 <= i < |w.groups| :: AllBut(w.groups[i], p.groups[Skip(g, i)], t)
  {
  }

  // ----- the invariant --------------------------------------------------

  /** A thread waits once, eligible threads wait, and the wake groups are an
      ascending chain of prefixes of the queue. */
  ghost predicate Orderly(p: Policy) {
    && Distinct(p.queue)
    && (forall t | t in p.eligible :: t in p.queue)
    && (forall i | 0 <= i < |p.groups| :: p.groups[i] <= p.queue)
    && (forall i, j | 0 <= i < j < |p.groups| :: p.groups[i] <= p.groups[j])
  }

  lemma AddWaiterKeepsOrder(p: Policy, t: Tid)
    requires Orderly(p) && t !in p.queue
    ensures Orderly(AddWaiter(p, t))
  {
    forall i | 0 <= i < |p.groups|
      ensures p.groups[i] <= p.queue + [t]
    {
      assert p.groups[i] <= p.queue;
    }
  }

  lemma SignalKeepsOrder(p: Policy)
    requires Orderly(p)
    ensures Orderly(Signal(p))
  {
  }

  lemma BroadcastKeepsOrder(p: Policy)
    requires Orderly(p)
    ensures Orderly(Broadcast(p))
    ensures forall t :: t in Broadcast(p).eligible <==> t in p.queue
  {
    forall t | t in Members(p.groups)
      ensures t in p.queue
    {
      var i :| 0 <= i < |p.groups| && t in p.groups[i];
      assert p.groups[i] <= p.queue;
    }
  }

  lemma PurgedKeepsChain(rest: seq<seq<Tid>>, queue: seq<Tid>, t: Tid)
    requires forall i | 0 <= i < |rest| :: rest[i] <= queue
    requires forall i, j | 0 <= i < j < |rest| :: rest[i] <= rest[j]
    ensures forall i | 0 <= i < |rest| :: Purged(rest, t)[i] <= RemoveAll(queue, t)
    ensures forall i, j | 0 <= i < j < |rest| :: Purged(rest, t)[i] <= Purged(rest, t)[j]
  {
    forall i | 0 <= i < |rest|
      ensures Purged(rest, t)[i] <= RemoveAll(queue, t)
    {
      RemoveAllKeepsPrefix(rest[i], queue, t);
    }
    forall i, j | 0 <= i < j < |rest|
      ensures Purged(rest, t)[i] <= Purged(rest, t)[j]
    {
      RemoveAllKeepsPrefix(rest[i], rest[j], t);
    }
  }

  lemma WakeKeepsOrder(p: Policy, t: Tid)
    requires Orderly(p) && CanExit(p, t)
    ensures Orderly(Wake(p, t))
    ensures Wake(p, t).queue == RemoveAll(p.queue, t)
  {
    hide RemoveFirst, FirstGroup, Purged;
    RemoveFirstOfDistinct(p.queue, t);
    RemoveAllKeepsDistinct(p.queue, t);
    var rest := if t in p.eligible then p.groups else Consumed(p.groups, FirstGroup(p.groups, t));
    PurgedKeepsChain(rest, p.queue, t);
  }

  // ----- consuming the first signal is optimal --------------------------

  /** The threads of order can leave, in that order. */
  ghost predicate WakesAll(p: Policy, order: seq<Tid>)
    decreases |order|
  {
    order == [] || (CanExit(p, order[0]) && WakesAll(Wake(p, order[0]), order[1..]))
  }

  /** Every thread of order that is not eligible has a signal of its own that
      was sent while it waited. */
  ghost predicate Matched(p: Policy, order: seq<Tid>, m: seq<nat>) {
    && |m| == |order|
    && (forall i | 0 <= i < |order| && order[i] !in p.eligible :: m[i] < |p.groups| && order[i] in p.groups[m[i]])
    && (forall i, j | 0 <= i < j < |order| && order[i] !in p.eligible && order[j] !in p.eligible :: m[i] != m[j])
  }

  /** The matching left once the first thread took its first signal: whoever
      was matched to that signal takes the one the first thread was matched to. */
  function Rematched(m: seq<nat>, g: nat): (r: seq<nat>)
    requires m != []
    ensures |r| == |m| - 1
    ensures forall i | 0 <= i < |r| :: r[i] == var k := if m[i + 1] == g then m[0] else m[i + 1];
                                               if k < g then k else if k == 0 then 0 else k - 1
  {
    seq(|m| - 1, i requires 0 <= i < |m| - 1 =>
      var k := if m[i + 1] == g then m[0] else m[i + 1];
      if k < g then k else if k == 0 then 0 else k - 1)
  }

  lemma MatchingSurvives(p: Policy, order: seq<Tid>, m: seq<nat>)
    requires Orderly(p) && order != [] && Distinct(order) && Matched(p, order, m)
    ensures CanExit(p, order[0])
    ensures exists m' :: Matched(Wake(p, order[0]), order[1..], m')
  {
    hide Wake, FirstGroup, Rematched;
    var t := order[0];
    if t in p.eligible {
      WakeOfEligible(p, t);
      assert Matched(Wake(p, t), order[1..], m[1..]);
    } else {
      var g := FirstGroup(p.groups, t);
      assert t in p.groups[m[0]] && g <= m[0];
      WakeBySignal(p, t);
      RematchedIsMatched(p, order, m, g, Wake(p, t));
    }
  }

  lemma RematchedIsMatched(p: Policy, order: seq<Tid>, m: seq<nat>, g: nat, w: Policy)
    requires Orderly(p) && order != [] && Distinct(order) && Matched(p, order, m) && order[0] !in p.eligible
    requires g <= m[0] && g < |p.groups| && w.eligible == p.eligible && |w.groups| == |p.groups| - 1
    requires forall i | 0 <= i < |w.groups| :: AllBut(w.groups[i], p.groups[Skip(g, i)], order[0])
    ensures Matched(w, order[1..], Rematched(m, g))
  {
    var rest, m' := order[1..], Rematched(m, g);
    forall i | 0 <= i < |rest| && rest[i] !in w.eligible
      ensures m'[i] < |w.groups| && rest[i] in w.groups[m'[i]]
    {
      var k := if m[i + 1] == g then m[0] else m[i + 1];
      assert order[i + 1] in p.groups[m[i + 1]];
      assert p.groups[m[i + 1]] <= p.groups[k];
      assert order[i + 1] in p.groups[k];
      assert m[i + 1] != m[0];
      assert Skip(g, m'[i]) == k;
      assert AllBut(w.groups[m'[i]], p.groups[k], order[0]);
    }
    forall i, j | 0 <= i < j < |rest| && rest[i] !in w.eligible && rest[j] !in w.eligible
      ensures m'[i] != m'[j]
    {
      assert m[i + 1] != m[j + 1] && m[0] != m[i + 1] && m[0] != m[j + 1];
    }
  }

  lemma MatchingExtends(p: Policy, order: seq<Tid>, m': seq<nat>) returns (m: seq<nat>)
    requires Orderly(p) && order != [] && Distinct(order) && CanExit(p, order[0])
    requires Matched(Wake(p, order[0]), order[1..], m')
    ensures Matched(p, order, m)
  {
    hide Wake, FirstGroup;
    var t := order[0];
    var w := Wake(p, t);
    if t in p.eligible {
      WakeOfEligible(p, t);
      m := [0] + m';
      forall i | 0 <= i < |order| && order[i] !in p.eligible
        ensures m[i] < |p.groups| && order[i] in p.groups[m[i]]
      {
        assert order[1..][i - 1] == order[i];
        assert AllBut(w.groups[m'[i - 1]], p.groups[m'[i - 1]], t);
      }
      forall i, j | 0 <= i < j < |order| && order[i] !in p.eligible && order[j] !in p.eligible
        ensures m[i] != m[j]
      {
        assert order[1..][i - 1] == order[i] && order[1..][j - 1] == order[j];
      }
    } else {
      WakeBySignal(p, t);
      m := SkippingMatches(p, order, m', FirstGroup(p.groups, t), w);
    }
  }

  lemma SkippingMatches(p: Policy, order: seq<Tid>, m': seq<nat>, g: nat, w: Policy) returns (m: seq<nat>)
    requires order != [] && order[0] !in p.eligible && g < |p.groups| && order[0] in p.groups[g]
    requires w.eligible == p.eligible && |w.groups| == |p.groups| - 1
    requires forall i | 0 <= i < |w.groups| :: AllBut(w.groups[i], p.groups[Skip(g, i)], order[0])
    requires Matched(w, order[1..], m')
    ensures Matched(p, order, m)
  {
    m := [g] + seq(|m'|, i requires 0 <= i < |m'| => Skip(g, m'[i]));
    forall i | 0 <= i < |order| && order[i] !in p.eligible
      ensures m[i] < |p.groups| && order[i] in p.groups[m[i]]
    {
      if i > 0 {
        assert order[1..][i - 1] == order[i];
        assert AllBut(w.groups[m'[i - 1]], p.groups[m[i]], order[0]);
      }
    }
    forall i, j | 0 <= i < j < |order| && order[i] !in p.eligible && order[j] !in p.eligible
      ensures m[i] != m[j]
    {
      assert order[1..][j - 1] == order[j];
      if i > 0 {
        assert order[1..][i - 1] == order[i];
      }
    }
  }

  /** Waiters can leave in some given order exactly when the signals sent
      while they waited can be shared out among them: always consuming the
      first signal never costs a wake-up. */
  lemma {:induction false} FirstFitIsOptimal(p: Policy, order: seq<Tid>)
    requires Orderly(p) && Distinct(order)
    ensures WakesAll(p, order) <==> exists m :: Matched(p, order, m)
    decreases |order|
  {
    if order == [] {
      assert Matched(p, order, []);
    } else {
      assert Distinct(order[1..]);
      if CanExit(p, order[0]) {
        WakeKeepsOrder(p, order[0]);
        FirstFitIsOptimal(Wake(p, order[0]), order[1..]);
      }
      if WakesAll(p, order) {
        var m' :| Matched(Wake(p, order[0]), order[1..], m');
        var m := MatchingExtends(p, order, m');
      }
      if exists m :: Matched(p, order, m) {
        var m :| Matched(p, order, m);
        MatchingSurvives(p, order, m);
      }
    }
  }

  ghost function IndexOf(s: seq<Tid>, t: Tid): (i: nat)
    requires t in s
    ensures i < |s| && s[i] == t
  {
    if s[0] == t then 0 else 1 + IndexOf(s[1..], t)
  }

  lemma MatchingPermutes(p: Policy, a: seq<Tid>, b: seq<Tid>, m: seq<nat>) returns (m': seq<nat>)
    requires Distinct(b) && (forall t :: t in a <==> t in b) && |a| == |b| && Matched(p, a, m)
    ensures Matched(p, b, m')
  {
    hide IndexOf;
    assert forall i | 0 <= i < |b| :: b[i] in a;
    m' := seq(|b|, i requires 0 <= i < |b| => m[IndexOf(a, b[i])]);
    forall i, j | 0 <= i < j < |b| && b[i] !in p.eligible && b[j] !in p.eligible
      ensures m'[i] != m'[j]
    {
      assert b[i] != b[j];
      assert IndexOf(a, b[i]) != IndexOf(a, b[j]);
    }
  }

  /** So whether a set of waiters can leave does not depend on the order. */
  lemma AnyOrderWillDo(p: Policy, a: seq<Tid>, b: seq<Tid>)
    requires Orderly(p) && Distinct(a) && Distinct(b) && (forall t :: t in a <==> t in b) && |a| == |b|
    requires WakesAll(p, a)
    ensures WakesAll(p, b)
  {
    hide Matched, Orderly, Distinct, Wake;
    FirstFitIsOptimal(p, a);
    var m :| Matched(p, a, m);
    var m' := MatchingPermutes(p, a, b, m);
    FirstFitIsOptimal(p, b);
  }

  // ----- histories ------------------------------------------------------

  datatype Event = Waits(t: Tid) | Signals | Broadcasts | Wakes(t: Tid)

  ghost predicate Allowed(p: Policy, e: Event) {
    (e.Waits? ==> e.t !in p.queue) && (e.Wakes? ==> CanExit(p, e.t))
  }

  ghost function Do(p: Policy, e: Event): Policy
    requires Allowed(p, e)
  {
    match e
    case Waits(t) => AddWaiter(p, t)
    case Signals => Signal(p)
    case Broadcasts => Broadcast(p)
    case Wakes(t) => Wake(p, t)
  }

  /** The indices, in the history, of the signals that made the groups. */
  ghost function Retag(p: Policy, tags: seq<nat>, e: Event, now: nat): (r: seq<nat>)
    requires Allowed(p, e) && |tags| == |p.groups|
    ensures |r| == |Do(p, e).groups|
  {
    match e
    case Waits(_) => tags
    case Signals => if p.queue == [] then tags else tags + [now]
    case Broadcasts => []
    case Wakes(t) =>
      if t in p.eligible then tags
      else
        var g := FirstGroup(p.groups, t);
        tags[..g] + tags[g + 1..]
  }

  datatype Tagged = Tagged(p: Policy, tags: seq<nat>)

  /** The state after a history; None when the history is not possible. */
  datatype Outcome = Impossible | At(state: Tagged)

  ghost function After(run: seq<Event>): (r: Outcome)
    ensures r.At? ==> |r.state.tags| == |r.state.p.groups|
  {
    if run == [] then At(Tagged(NOBODY, []))
    else
      var n := |run| - 1;
      match After(run[..n])
      case Impossible => Impossible
      case At(s) => if Allowed(s.p, run[n]) then At(Tagged(Do(s.p, run[n]), Retag(s.p, s.tags, run[n], n))) else Impossible
  }

  /** A possible history. */
  ghost predicate Legal(run: seq<Event>) {
    After(run).At?
  }

  ghost function PolicyAt(run: seq<Event>): Policy
    requires Legal(run)
  {
    After(run).state.p
  }

  ghost function TagsAt(run: seq<Event>): (r: seq<nat>)
    requires Legal(run)
    ensures |r| == |PolicyAt(run).groups|
  {
    After(run).state.tags
  }

  lemma {:induction false} PrefixIsLegal(run: seq<Event>, k: nat)
    requires Legal(run) && k <= |run|
    ensures Legal(run[..k])
    ensures k < |run| ==> Allowed(PolicyAt(run[..k]), run[k])
  {
    if k == |run| {
      assert run[..k] == run;
    } else {
      var n := |run| - 1;
      if k < n {
        PrefixIsLegal(run[..n], k);
        assert run[..n][..k] == run[..k];
      }
    }
  }

  /** Thread t has waited since event w. */
  ghost predicate WaitsSince(run: seq<Event>, t: Tid, w: nat) {
    w < |run| && run[w] == Waits(t) && forall i | w < i < |run| :: run[i] != Waits(t) && run[i] != Wakes(t)
  }

  /** What the tags mean. */
  ghost predicate TagsMean(run: seq<Event>)
    requires Legal(run)
  {
    var p, tags := PolicyAt(run), TagsAt(run);
    && (forall t | t in p.queue :: exists w :: WaitsSince(run, t, w))
    && (forall i | 0 <= i < |tags| :: tags[i] < |run| && run[tags[i]] == Signals)
    && InOrder(tags)
    && (forall i, t, w | 0 <= i < |tags| && t in p.groups[i] && WaitsSince(run, t, w) :: w < tags[i])
    && (forall t, w | t in p.eligible && WaitsSince(run, t, w) :: FreedSince(run, w))
  }

  ghost predicate InOrder(tags: seq<nat>) {
    forall i, j | 0 <= i < j < |tags| :: tags[i] < tags[j]
  }

  ghost predicate FreedSince(run: seq<Event>, w: nat) {
    exists b :: w < b < |run| && run[b] == Broadcasts
  }

  lemma StillWaits(run: seq<Event>, e: Event, t: Tid, w: nat)
    requires w < |run|
    ensures WaitsSince(run + [e], t, w) <==> WaitsSince(run, t, w) && e != Waits(t) && e != Wakes(t)
    ensures FreedSince(run, w) ==> FreedSince(run + [e], w)
  {
    var run' := run + [e];
    if WaitsSince(run', t, w) {
      assert run'[|run|] == e;
      forall i | w < i < |run|
        ensures run[i] != Waits(t) && run[i] != Wakes(t)
      {
        assert run'[i] == run[i];
      }
    }
    if FreedSince(run, w) {
      var b :| w < b < |run| && run[b] == Broadcasts;
      assert run'[b] == Broadcasts;
    }
  }

  /** Whoever waits after an event waited before it, unless it is the event. */
  lemma WaitedBefore(run: seq<Event>, e: Event, t: Tid, w: nat)
    requires WaitsSince(run + [e], t, w) && e != Waits(t)
    ensures WaitsSince(run, t, w) && e != Wakes(t)
    ensures FreedSince(run, w) ==> FreedSince(run + [e], w)
  {
    assert (run + [e])[|run|] == e;
    StillWaits(run, e, t, w);
  }

  lemma AfterOneMore(run: seq<Event>, e: Event)
    requires Legal(run) && Allowed(PolicyAt(run), e)
    ensures Legal(run + [e])
    ensures PolicyAt(run + [e]) == Do(PolicyAt(run), e) && TagsAt(run + [e]) == Retag(PolicyAt(run), TagsAt(run), e, |run|)
  {
    assert (run + [e])[..|run|] == run;
  }

  lemma TagsAfterWait(run: seq<Event>, t: Tid)
    requires Legal(run) && TagsMean(run) && Orderly(PolicyAt(run)) && Allowed(PolicyAt(run), Waits(t))
    ensures Legal(run + [Waits(t)]) && TagsMean(run + [Waits(t)])
  {
    hide After;
    var e, p, tags := Waits(t), PolicyAt(run), TagsAt(run);
    var run' := run + [e];
    AfterOneMore(run, e);
    assert WaitsSince(run', t, |run|);
    forall u | u in p.queue
      ensures exists w :: WaitsSince(run', u, w)
    {
      var w :| WaitsSince(run, u, w);
      StillWaits(run, e, u, w);
    }
    forall i, u, w | 0 <= i < |tags| && u in p.groups[i] && WaitsSince(run', u, w)
      ensures w < tags[i]
    {
      assert p.groups[i] <= p.queue;
      WaitedBefore(run, e, u, w);
    }
    forall u, w | u in p.eligible && WaitsSince(run', u, w)
      ensures FreedSince(run', w)
    {
      WaitedBefore(run, e, u, w);
    }
    assert forall i | 0 <= i < |tags| :: run'[tags[i]] == run[tags[i]];
  }

  lemma TagsAfterSignal(run: seq<Event>)
    requires Legal(run) && TagsMean(run)
    ensures Legal(run + [Signals]) && TagsMean(run + [Signals])
  {
    hide After;
    var e, p, tags := Signals, PolicyAt(run), TagsAt(run);
    var run' := run + [e];
    AfterOneMore(run, e);
    var p', tags' := PolicyAt(run'), TagsAt(run');
    forall u | u in p.queue
      ensures exists w :: WaitsSince(run', u, w)
    {
      var w :| WaitsSince(run, u, w);
      StillWaits(run, e, u, w);
    }
    forall i, u, w | 0 <= i < |tags'| && u in p'.groups[i] && WaitsSince(run', u, w)
      ensures w < tags'[i]
    {
      WaitedBefore(run, e, u, w);
    }
    forall u, w | u in p.eligible && WaitsSince(run', u, w)
      ensures FreedSince(run', w)
    {
      WaitedBefore(run, e, u, w);
    }
    assert forall i | 0 <= i < |tags| :: run'[tags[i]] == run[tags[i]];
  }

  lemma TagsAfterBroadcast(run: seq<Event>)
    requires Legal(run) && TagsMean(run)
    ensures Legal(run + [Broadcasts]) && TagsMean(run + [Broadcasts])
  {
    hide After;
    var e, p := Broadcasts, PolicyAt(run);
    var run' := run + [e];
    AfterOneMore(run, e);
    forall u | u in p.queue
      ensures exists w :: WaitsSince(run', u, w)
    {
      var w :| WaitsSince(run, u, w);
      StillWaits(run, e, u, w);
    }
    forall u, w | WaitsSince(run', u, w)
      ensures FreedSince(run', w)
    {
      WaitedBefore(run, e, u, w);
      assert run'[|run|] == Broadcasts;
    }
  }

  /** Group i of w, and its tag, come from group j of p. */
  ghost predicate ComesFrom(w: Policy, r: seq<nat>, i: nat, p: Policy, tags: seq<nat>, j: nat, t: Tid)
    requires |r| == |w.groups| && |tags| == |p.groups|
  {
    i < |r| && j < |tags| && r[i] == tags[j] && AllBut(w.groups[i], p.groups[j], t)
  }

  /** Where group i of the policy after a wake-up was before it. */
  ghost function Origin(p: Policy, t: Tid, i: nat): nat {
    if t in p.eligible then i else Skip(FirstGroup(p.groups, t), i)
  }

  lemma RetagSkips(tags: seq<nat>, g: nat) returns (r: seq<nat>)
    requires g < |tags|
    ensures r == tags[..g] + tags[g + 1..] && |r| == |tags| - 1
    ensures forall i | 0 <= i < |r| :: r[i] == tags[Skip(g, i)]
    ensures InOrder(tags) ==> InOrder(r)
  {
    r := tags[..g] + tags[g + 1..];
  }

  /** After a wake-up every pending signal was pending before, for the same
      threads but one, and they are still in order. */
  lemma RetagOfWake(p: Policy, tags: seq<nat>, t: Tid, now: nat)
    requires CanExit(p, t) && |tags| == |p.groups|
    ensures var w, r := Wake(p, t), Retag(p, tags, Wakes(t), now);
            && |r| == |w.groups|
            && (forall i: nat | i < |r| :: ComesFrom(w, r, i, p, tags, Origin(p, t, i), t))
            && (InOrder(tags) ==> InOrder(r))
  {
    hide Wake, FirstGroup;
    var w, r, g := Wake(p, t), Retag(p, tags, Wakes(t), now), FirstGroup(p.groups, t);
    if t in p.eligible {
      WakeOfEligible(p, t);
    } else {
      WakeBySignal(p, t);
      var r' := RetagSkips(tags, g);
    }
  }

  lemma TagsAfterWake(run: seq<Event>, t: Tid)
    requires Legal(run) && TagsMean(run) && Orderly(PolicyAt(run)) && Allowed(PolicyAt(run), Wakes(t))
    ensures Legal(run + [Wakes(t)]) && TagsMean(run + [Wakes(t)])
  {
    hide After, Wake, Retag, RemoveAll, InOrder, Origin;
    var e, p, tags := Wakes(t), PolicyAt(run), TagsAt(run);
    var run' := run + [e];
    AfterOneMore(run, e);
    WakeKeepsOrder(p, t);
    assert Wake(p, t).eligible <= p.eligible by {
      if t in p.eligible { WakeOfEligible(p, t); } else { WakeBySignal(p, t); }
    }
    RetagOfWake(p, tags, t, |run|);
    var p', tags' := PolicyAt(run'), TagsAt(run');
    forall u | u in p'.queue
      ensures exists w :: WaitsSince(run', u, w)
    {
      var w :| WaitsSince(run, u, w);
      StillWaits(run, e, u, w);
    }
    forall i: nat | i < |tags'|
      ensures tags'[i] < |run'| && run'[tags'[i]] == Signals
      ensures forall u, w: nat | u in p'.groups[i] && WaitsSince(run', u, w) :: w < tags'[i]
    {
      var j := Origin(p, t, i);
      assert ComesFrom(p', tags', i, p, tags, j, t);
      assert run[tags[j]] == Signals;
      forall u, w: nat | u in p'.groups[i] && WaitsSince(run', u, w)
        ensures w < tags'[i]
      {
        WaitedBefore(run, e, u, w);
      }
    }
    forall u, w | u in p'.eligible && WaitsSince(run', u, w)
      ensures FreedSince(run', w)
    {
      WaitedBefore(run, e, u, w);
    }
  }

  /** In every state of every history the policy is orderly and the tags mean
      what they say. */
  lemma {:induction false} HistoriesAreOrderly(run: seq<Event>)
    requires Legal(run)
    ensures Orderly(PolicyAt(run)) && TagsMean(run)
  {
    hide Orderly, TagsMean;
    if run == [] {
      NothingIsOrderly();
    } else {
      var before, e := run[..|run| - 1], run[|run| - 1];
      assert run == before + [e];
      HistoriesAreOrderly(before);
      AfterOneMore(before, e);
      var p := PolicyAt(before);
      match e
      case Waits(t) => AddWaiterKeepsOrder(p, t); TagsAfterWait(before, t);
      case Signals => SignalKeepsOrder(p); TagsAfterSignal(before);
      case Broadcasts => BroadcastKeepsOrder(p); TagsAfterBroadcast(before);
      case Wakes(t) => WakeKeepsOrder(p, t); TagsAfterWake(before, t);
    }
  }

  lemma NothingIsOrderly()
    ensures Legal([]) && Orderly(PolicyAt([])) && TagsMean([])
  {
  }

  // ----- which signal woke whom -----------------------------------------

  datatype Cause = BySignal(s: nat) | ByBroadcast

  /** What let the thread that wakes at event i go. */
  ghost function CauseOf(run: seq<Event>, i: nat): Cause
    requires Legal(run) && i < |run| && run[i].Wakes? && Legal(run[..i]) && Allowed(PolicyAt(run[..i]), run[i])
  {
    var p, t := PolicyAt(run[..i]), run[i].t;
    if t in p.eligible then ByBroadcast else BySignal(TagsAt(run[..i])[FirstGroup(p.groups, t)])
  }

  /** A thread woken by a signal has waited since before that signal, and one
      woken by a broadcast since before some broadcast. */
  lemma CauseFollowsWait(run: seq<Event>, i: nat)
    requires Legal(run) && i < |run| && run[i].Wakes?
    ensures Legal(run[..i]) && Allowed(PolicyAt(run[..i]), run[i])
    ensures exists w: nat :: (
        && WaitsSince(run[..i], run[i].t, w)
        && match CauseOf(run, i)
           case BySignal(s) => w < s < i && run[s] == Signals
           case ByBroadcast => exists b :: w < b < i && run[b] == Broadcasts)
  {
    PrefixIsLegal(run, i);
    HistoriesAreOrderly(run[..i]);
    var p, t := PolicyAt(run[..i]), run[i].t;
    ExitingThreadWaits(p, t);
    var w: nat :| WaitsSince(run[..i], t, w);
    if t in p.eligible {
      assert FreedSince(run[..i], w);
      var b :| w < b < i && run[..i][b] == Broadcasts;
      assert run[b] == Broadcasts;
    } else {
      var g := FirstGroup(p.groups, t);
      assert t in p.groups[g] && run[..i][TagsAt(run[..i])[g]] == Signals;
    }
  }

  lemma ExitingThreadWaits(p: Policy, t: Tid)
    requires Orderly(p) && CanExit(p, t)
    ensures t in p.queue
  {
    if t !in p.eligible {
      var i :| 0 <= i < |p.groups| && t in p.groups[i];
      assert p.groups[i] <= p.queue;
    }
  }

  lemma RetagAddsNow(p: Policy, tags: seq<nat>, e: Event, now: nat, s: nat)
    requires Allowed(p, e) && |tags| == |p.groups| && s < now && s !in tags
    ensures s !in Retag(p, tags, e, now)
  {
    hide Wake;
  }

  lemma TakenTagIsGone(p: Policy, tags: seq<nat>, t: Tid, now: nat)
    requires CanExit(p, t) && t !in p.eligible && |tags| == |p.groups|
    requires InOrder(tags)
    ensures tags[FirstGroup(p.groups, t)] !in Retag(p, tags, Wakes(t), now)
  {
    hide Wake, FirstGroup;
    var g, r := FirstGroup(p.groups, t), Retag(p, tags, Wakes(t), now);
    forall i | 0 <= i < |r|
      ensures r[i] != tags[g]
    {
      assert r[i] == tags[Skip(g, i)];
    }
  }

  /** A signal that is not pending is never pending again. */
  lemma {:induction false} SpentSignalsStaySpent(run: seq<Event>, i: nat, k: nat, s: nat)
    requires Legal(run) && s < i <= k <= |run|
    requires Legal(run[..i]) && s !in TagsAt(run[..i])
    ensures Legal(run[..k]) && s !in TagsAt(run[..k])
    decreases k
  {
    hide After, Do, Retag, Allowed;
    PrefixIsLegal(run, k);
    if k > i {
      SpentSignalsStaySpent(run, i, k - 1, s);
      PrefixIsLegal(run, k - 1);
      var before, e := run[..k - 1], run[k - 1];
      assert run[..k] == before + [e];
      AfterOneMore(before, e);
      RetagAddsNow(PolicyAt(before), TagsAt(before), e, k - 1, s);
    }
  }

  /** Every signal wakes at most one thread, once. */
  lemma SignalsWakeAtMostOne(run: seq<Event>, i: nat, j: nat)
    requires Legal(run) && i < j < |run| && run[i].Wakes? && run[j].Wakes?
    ensures Legal(run[..i]) && Allowed(PolicyAt(run[..i]), run[i])
    ensures Legal(run[..j]) && Allowed(PolicyAt(run[..j]), run[j])
    ensures CauseOf(run, i).BySignal? ==> CauseOf(run, i) != CauseOf(run, j)
  {
    hide After, Do, Retag, Wake, FirstGroup;
    PrefixIsLegal(run, i);
    PrefixIsLegal(run, j);
    PrefixIsLegal(run, i + 1);
    if CauseOf(run, i).BySignal? {
      CauseFollowsWait(run, i);
      HistoriesAreOrderly(run[..i]);
      var s := CauseOf(run, i).s;
      assert run[..i + 1] == run[..i] + [run[i]];
      AfterOneMore(run[..i], run[i]);
      TakenTagIsGone(PolicyAt(run[..i]), TagsAt(run[..i]), run[i].t, i);
      assert s !in TagsAt(run[..i + 1]);
      SpentSignalsStaySpent(run, i + 1, j, s);
    }
  }

  ghost predicate SleepsOn(run: seq<Event>, t: Tid, from: nat, k: nat)
    requires k <= |run|
  {
    forall i | from <= i < k :: run[i] != Wakes(t)
  }

  lemma DoBroadcast(p: Policy)
    ensures Do(p, Broadcasts) == Broadcast(p)
  {
  }

  lemma EligibleStays(p: Policy, e: Event, t: Tid)
    requires Allowed(p, e) && e != Wakes(t) && t in p.eligible
    ensures t in Do(p, e).eligible
  {
  }

  /** After a broadcast everyone who waited can leave, and still can until it
      does. */
  lemma {:induction false} BroadcastFreesAll(run: seq<Event>, b: nat, k: nat, t: Tid)
    requires Legal(run) && b < k <= |run| && run[b] == Broadcasts
    requires Legal(run[..b]) && t in PolicyAt(run[..b]).queue && SleepsOn(run, t, b + 1, k)
    ensures Legal(run[..k]) && t in PolicyAt(run[..k]).eligible && CanExit(PolicyAt(run[..k]), t)
    decreases k
  {
    hide After, Orderly, TagsMean, Do, Retag;
    PrefixIsLegal(run, k);
    PrefixIsLegal(run, k - 1);
    var before, e := run[..k - 1], run[k - 1];
    assert run[..k] == before + [e];
    AfterOneMore(before, e);
    if k == b + 1 {
      HistoriesAreOrderly(before);
      BroadcastKeepsOrder(PolicyAt(before));
      assert Do(PolicyAt(before), e) == Broadcast(PolicyAt(before)) by { DoBroadcast(PolicyAt(before)); }
    } else {
      BroadcastFreesAll(run, b, k - 1, t);
      assert e != Wakes(t);
      EligibleStays(PolicyAt(before), e, t);
    }
  }

  /** The signal of event s is pending, and t may take it. */
  ghost predicate MayTake(p: Policy, tags: seq<nat>, t: Tid, s: nat)
    requires |tags| == |p.groups|
  {
    t in p.eligible || exists i :: 0 <= i < |tags| && tags[i] == s && t in p.groups[i]
  }

  /** A signal is never lost: until some thread takes it, everyone who waited
      when it was sent can leave, for as long as they wait. */
  lemma {:induction false} SignalsAreKept(run: seq<Event>, s: nat, k: nat, t: Tid)
    requires Legal(run) && s < k <= |run| && run[s] == Signals
    requires Legal(run[..s]) && t in PolicyAt(run[..s]).queue && SleepsOn(run, t, s + 1, k)
    requires forall i: nat | s < i < k && run[i].Wakes? :: Unspent(run, i, s)
    ensures Legal(run[..k]) && MayTake(PolicyAt(run[..k]), TagsAt(run[..k]), t, s) && CanExit(PolicyAt(run[..k]), t)
    decreases k
  {
    hide After, Wake, FirstGroup;
    PrefixIsLegal(run, k);
    PrefixIsLegal(run, k - 1);
    var before, e := run[..k - 1], run[k - 1];
    assert run[..k] == before + [e];
    AfterOneMore(before, e);
    var p, tags := PolicyAt(before), TagsAt(before);
    if k == s + 1 {
      var n := |p.groups|;
      assert TagsAt(run[..k])[n] == s && t in PolicyAt(run[..k]).groups[n];
    } else {
      SignalsAreKept(run, s, k - 1, t);
      if e.Wakes? {
        assert Unspent(run, k - 1, s);
        MayTakeAfterWake(p, tags, t, s, e.t, k - 1);
      } else if t !in p.eligible {
        var i :| 0 <= i < |tags| && tags[i] == s && t in p.groups[i];
        if e.Broadcasts? {
          assert t in Members(p.groups);
        } else {
          assert TagsAt(run[..k])[i] == s && t in PolicyAt(run[..k]).groups[i];
        }
      }
    }
  }

  ghost predicate Unspent(run: seq<Event>, i: nat, s: nat) {
    && Legal(run) && i < |run| && run[i].Wakes? && Legal(run[..i]) && Allowed(PolicyAt(run[..i]), run[i])
    && CauseOf(run, i) != BySignal(s)
  }

  lemma MayTakeAfterWake(p: Policy, tags: seq<nat>, t: Tid, s: nat, u: Tid, now: nat)
    requires |tags| == |p.groups| && CanExit(p, u) && u != t && MayTake(p, tags, t, s)
    requires u !in p.eligible ==> tags[FirstGroup(p.groups, u)] != s
    ensures MayTake(Wake(p, u), Retag(p, tags, Wakes(u), now), t, s)
  {
    hide Wake, FirstGroup;
    if u in p.eligible { WakeOfEligible(p, u); } else { WakeBySignal(p, u); }
    if t !in p.eligible {
      var i :| 0 <= i < |tags| && tags[i] == s && t in p.groups[i];
      var w, tags', g := Wake(p, u), Retag(p, tags, Wakes(u), now), FirstGroup(p.groups, u);
      var j := if u in p.eligible || i < g then i else i - 1;
      assert tags'[j] == s;
      assert AllBut(w.groups[j], p.groups[i], u);
    }
  }
}
