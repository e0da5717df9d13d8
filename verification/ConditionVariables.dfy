/** The policy every condition variable is given: any waiter present at a
    signal may consume it. The methods edit the queue, the wake groups and the
    eligible set in place, and do to them what WakePolicies.dfy says. */
module ConditionVariables {
  import opened ClockVectors
  import opened WakePolicies

  /** A condition variable's threads, as they wait and leave. */
  class ArbitraryPolicy {
    var waitQueue: seq<Tid>
    var wakeGroups: seq<seq<Tid>>
    var broadcastEligibleThreads: set<Tid>

    ghost function View(): Policy
      reads this
    {
      Policy(waitQueue, wakeGroups, broadcastEligibleThreads)
    }

    constructor ()
      ensures View() == NOBODY
    {
      waitQueue, wakeGroups, broadcastEligibleThreads := [], [], {};
    }

    method AddWaiter(t: Tid)
      modifies this
      ensures View() == WakePolicies.AddWaiter(old(View()), t)
    {
      waitQueue := waitQueue + [t];
    }

    method ReceiveSignalMessage()
      modifies this
      ensures View() == Signal(old(View()))
    {
      if waitQueue != [] {
        wakeGroups := wakeGroups + [waitQueue];
      }
    }

    /** The members of the groups, then those of the queue; the queue stays. */
    method ReceiveBroadcastMessage()
      modifies this
      ensures View() == Broadcast(old(View()))
    {
      var i := 0;
      while i < |wakeGroups|
        invariant 0 <= i <= |wakeGroups| && wakeGroups == old(wakeGroups) && waitQueue == old(waitQueue)
        invariant broadcastEligibleThreads == old(broadcastEligibleThreads) + Members(wakeGroups[..i])
      {
        broadcastEligibleThreads := broadcastEligibleThreads + SetOf(wakeGroups[i]);
        assert wakeGroups[..i + 1] == wakeGroups[..i] + [wakeGroups[i]];
        i := i + 1;
      }
      assert wakeGroups[..i] == wakeGroups;
      wakeGroups := [];
      broadcastEligibleThreads := broadcastEligibleThreads + SetOf(waitQueue);
    }

    method ThreadCanExit(t: Tid) returns (can: bool)
      ensures can <==> CanExit(View(), t)
    {
      if t in broadcastEligibleThreads {
        return true;
      }
      var g := FindGroup(t);
      return g < |wakeGroups|;
    }

    method FindGroup(t: Tid) returns (g: nat)
      ensures g == FirstGroup(wakeGroups, t)
    {
      g := 0;
      while g < |wakeGroups| && t !in wakeGroups[g]
        invariant 0 <= g <= |wakeGroups|
        invariant forall i | 0 <= i < g :: t !in wakeGroups[i]
      {
        g := g + 1;
      }
    }

    /** Takes the first signal t may consume, unless a broadcast freed it, and
        forgets t everywhere. There is such a signal. */
    method WakeThread(t: Tid)
      requires CanExit(View(), t)
      modifies this
      ensures View() == Wake(old(View()), t)
    {
      hide Purged, RemoveAll;
      ghost var p := View();
      if t in broadcastEligibleThreads {
        broadcastEligibleThreads := broadcastEligibleThreads - {t};
      } else {
        var g := FindGroup(t);
        assert g != |wakeGroups|;
        assert broadcastEligibleThreads == p.eligible - {t};
        wakeGroups := wakeGroups[..g] + wakeGroups[g + 1..];
        assert wakeGroups == Consumed(p.groups, FirstGroup(p.groups, t));
      }
      RemoveFromGroups(t);
      RemoveFromQueue(t);
    }

    method RemoveFromGroups(t: Tid)
      modifies this`wakeGroups
      ensures wakeGroups == Purged(old(wakeGroups), t)
    {
      var i := 0;
      while i < |wakeGroups|
        invariant 0 <= i <= |wakeGroups| == |old(wakeGroups)|
        invariant forall k | 0 <= k < |wakeGroups| :: wakeGroups[k] == if k < i then RemoveAll(old(wakeGroups)[k], t) else old(wakeGroups)[k]
      {
        wakeGroups := wakeGroups[i := RemoveAll(wakeGroups[i], t)];
        i := i + 1;
      }
    }

    method RemoveFromQueue(t: Tid)
      modifies this`waitQueue
      ensures waitQueue == RemoveFirst(old(waitQueue), t)
    {
      ghost var queue := waitQueue;
      var i := 0;
      while i < |waitQueue| && waitQueue[i] != t
        invariant 0 <= i <= |queue| && waitQueue == queue
        invariant RemoveFirst(queue, t) == queue[..i] + RemoveFirst(queue[i..], t)
      {
        RemoveFirstPasses(queue, i, t);
        i := i + 1;
      }
      if i < |waitQueue| {
        waitQueue := waitQueue[..i] + waitQueue[i + 1..];
      }
    }

    predicate HasWaiters()
      reads this
    {
      waitQueue != []
    }
  }

  lemma RemoveFirstPasses(queue: seq<Tid>, i: nat, t: Tid)
    requires i < |queue| && queue[i] != t
    ensures queue[..i] + RemoveFirst(queue[i..], t) == queue[..i + 1] + RemoveFirst(queue[i + 1..], t)
  {
    assert queue[i..][1..] == queue[i + 1..];
    assert queue[..i + 1] == queue[..i] + [queue[i]];
  }

  function SetOf(s: seq<Tid>): (r: set<Tid>)
    ensures forall t :: t in r <==> t in s
  {
    set t | t in s
  }
}
