/** The two small mutable records of the engine: a state of the search with
    its sets of threads, and a stack of indices kept in order. */
module StackItems {
  import opened ClockVectors
  import opened Machines

  class StackItem {
    var backtrackSet: set<Tid>
    var doneSet: set<Tid>
    var sleepSet: set<Tid>
    var enabledThreads: set<Tid>
    const clockVector: ClockVector

    ghost function View(): Item
      reads this
    {
      Item(backtrackSet, doneSet, sleepSet, enabledThreads, clockVector)
    }

    constructor (cv: ClockVector)
      ensures View() == EmptyItem(cv)
    {
      backtrackSet, doneSet, sleepSet, enabledThreads, clockVector := {}, {}, {}, {}, cv;
    }

    method AddBacktrackingThreadIfUnsearched(tid: Tid)
      modifies this`backtrackSet
      ensures backtrackSet == old(backtrackSet) + ({tid} - doneSet)
    {
      if tid !in doneSet {
        backtrackSet := backtrackSet + {tid};
      }
    }

    method MarkBacktrackThreadSearched(tid: Tid)
      modifies this`doneSet, this`backtrackSet
      ensures doneSet == old(doneSet) + {tid} && backtrackSet == old(backtrackSet) - {tid}
    {
      doneSet := doneSet + {tid};
      backtrackSet := backtrackSet - {tid};
    }

    predicate HasThreadsToBacktrackOn()
      reads this
    {
      backtrackSet != {}
    }

    method ThreadIsInSleepSet(tid: Tid) returns (found: bool)
      ensures found <==> tid in sleepSet
    {
      var rest := sleepSet;
      while rest != {}
        invariant rest <= sleepSet
        invariant tid in sleepSet ==> tid in rest
        decreases rest
      {
        var t :| t in rest;
        if t == tid {
          return true;
        }
        rest := rest - {t};
      }
      return false;
    }

    /** The least thread of the backtrack set, which becomes done. */
    method PopThreadToBacktrackOn() returns (tid: Tid)
      requires HasThreadsToBacktrackOn()
      modifies this`doneSet, this`backtrackSet
      ensures tid in old(backtrackSet) && forall q | q in old(backtrackSet) :: tid <= q
      ensures doneSet == old(doneSet) + {tid} && backtrackSet == old(backtrackSet) - {tid}
    {
      tid :| tid in backtrackSet;
      var rest := backtrackSet;
      while rest != {}
        invariant rest <= backtrackSet && tid in backtrackSet
        invariant forall q | q in backtrackSet && q !in rest :: tid <= q
        decreases rest
      {
        var t :| t in rest;
        if t < tid {
          tid := t;
        }
        rest := rest - {t};
      }
      MarkBacktrackThreadSearched(tid);
    }

    method MarkThreadsEnabledInState(threads: set<Tid>)
      modifies this`enabledThreads
      ensures enabledThreads == old(enabledThreads) + threads
    {
      var rest := threads;
      while rest != {}
        invariant rest <= threads
        invariant enabledThreads == old(enabledThreads) + (threads - rest)
        decreases rest
      {
        var t :| t in rest;
        enabledThreads := enabledThreads + {t};
        rest := rest - {t};
      }
    }

    method AddThreadToSleepSet(tid: Tid)
      modifies this`sleepSet
      ensures sleepSet == old(sleepSet) + {tid}
    {
      sleepSet := sleepSet + {tid};
    }
  }

  ghost predicate Ascending(s: seq<nat>) {
    forall i, j | 0 <= i < j < |s| :: s[i] <= s[j]
  }

  /** On an ascending stack, popping everything greater than a bound leaves
      exactly the entries up to it. */
  lemma {:induction false} KeepUpToIsExact(s: seq<nat>, bound: nat)
    requires Ascending(s)
    ensures KeepUpTo(s, bound) <= s && Ascending(KeepUpTo(s, bound))
    ensures forall i | 0 <= i < |s| :: s[i] <= bound <==> i < |KeepUpTo(s, bound)|
  {
    if s != [] && s[|s| - 1] > bound {
      KeepUpToIsExact(s[..|s| - 1], bound);
    }
  }

  class SortedStack {
    var contents: seq<nat>

    constructor ()
      ensures contents == []
    {
      contents := [];
    }

    /** Pushing below the top is refused. */
    method Push(index: nat) returns (ok: bool)
      modifies this
      ensures ok <==> old(contents) == [] || old(contents[|contents| - 1]) <= index
      ensures contents == if ok then old(contents) + [index] else old(contents)
      ensures old(Ascending(contents)) ==> Ascending(contents)
    {
      if contents != [] && contents[|contents| - 1] > index {
        return false;
      }
      contents := contents + [index];
      return true;
    }

    function Top(): nat
      requires contents != []
      reads this
    {
      contents[|contents| - 1]
    }

    method Pop()
      modifies this
      ensures contents == if old(contents) == [] then [] else old(contents)[..|old(contents)| - 1]
    {
      if contents != [] {
        contents := contents[..|contents| - 1];
      }
    }

    method PopGreaterThan(index: nat)
      modifies this
      ensures contents == KeepUpTo(old(contents), index)
    {
      while contents != [] && Top() > index
        invariant KeepUpTo(contents, index) == KeepUpTo(old(contents), index)
        decreases |contents|
      {
        Pop();
      }
    }
  }
}
