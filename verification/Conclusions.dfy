/** What a search leaves behind: the obligations, the sleep sets and trace
    equivalence put together. */
module Conclusions {
  import opened ClockVectors
  import opened Programs
  import opened Chains
  import opened Machines
  import opened Obligations
  import opened Rewinding
  import opened Sleeping
  import opened Searches
  import opened Traces
  import Transitions

  /** Thread q's pending transition at state i was run from state j, in a run
      that reaches what running it at state i would reach. */
  ghost predicate CoveredFrom<O(!new), T(!new)>(P: Program<O, T>, m: Machine<O, T>, i: nat, q: Tid, j: nat) {
    && j <= i <= |m.trans| && q < |m.next|
    && var nx := NextAt(P, m, i, q);
       (m.trans[..j], nx) in m.explored && Equivalent(P, m.initial, m.trans[..i] + [nx], m.trans[..j] + [nx] + m.trans[j..i])
  }

  /** A state with nothing left in its backtrack set is done with: if it holds
      the last transition in conflict with what any thread is about to do at it
      or later, then everything enabled at it was already run, there or further
      down, in an equivalent run. */
  lemma NothingIsOwed<O(!new), T(!new)>(P: Program<O, T>, objects: seq<O>, moves: seq<Move<O, T>>, ms: seq<Machine<O, T>>,
                                        n: nat, k: nat, p: Tid, i: nat, q: Tid)
    requires IsSearch(P, objects, moves, ms) && n < |ms| && P.LawfulExchange() && UndoesWell(P, moves, ms, n)
    requires Shape(P, ms[n]) && i < k <= |ms[n].trans| && p < |ms[n].next|
    requires IsLastConflict(P, ms[n].trans[..k], i, p, NextAt(P, ms[n], k, p))
    requires ms[n].items[i].backtrack == {} && q in ms[n].items[i].enabled
    ensures exists j: nat :: CoveredFrom(P, ms[n], i, q, j)
  {
    hide Core, Conflict, Initials, Makes, Equivalent, ItemsClocked, Fits, UndoesWell, ThreadsSafe;
    var m := ms[n];
    SearchMeetsObligations(P, objects, moves, ms, n);
    SearchKeepsCore(P, objects, moves, ms, n);
    assert Obligation(P, m.trans[..k], m.items, p, NextAt(P, m, k, p));
    var E := Initials(P, m.trans[..k], m.items[i], i, p);
    assert Met(E, m.items[i]);
    assert E * m.items[i].backtrack == {};
    assert m.items[i].enabled - m.items[i].sleep <= {};
    SubsetByDifference(m.items[i].enabled, m.items[i].sleep, q);
    KnownSleeper(P, m, i, q);
    SearchLaws(P, objects, moves, ms);
    SleepingThreadIsRedundant(P, m, i, q);
    var nx := NextAt(P, m, i, q);
    var j: nat :| j <= i && (m.trans[..j], nx) in m.explored
                  && Equivalent(P, m.initial, m.trans[..i] + [nx], m.trans[..j] + [nx] + m.trans[j..i]);
    assert CoveredFrom(P, m, i, q, j);
  }

  ghost predicate RunAlready<O(!new), T(!new)>(P: Program<O, T>, m: Machine<O, T>, i: nat, q: Tid) {
    exists j: nat :: CoveredFrom(P, m, i, q, j)
  }

  /** Every state with a conflict is done with. */
  ghost predicate Exhausted<O(!new), T(!new)>(P: Program<O, T>, m: Machine<O, T>) {
    && Shape(P, m)
    && forall k: nat, p: Tid, i: nat | i < k <= |m.trans| && p < |m.next| && IsLastConflict(P, m.trans[..k], i, p, NextAt(P, m, k, p)) ::
         forall q | q in m.items[i].enabled :: RunAlready(P, m, i, q)
  }

  ghost predicate NothingToBacktrackOn<O, T>(m: Machine<O, T>) {
    forall i | 0 <= i < |m.items| :: m.items[i].backtrack == {}
  }

  /** At the end of a search this is so of every state. */
  lemma FinishedSearchIsExhausted<O(!new), T(!new)>(P: Program<O, T>, objects: seq<O>, moves: seq<Move<O, T>>, ms: seq<Machine<O, T>>)
    requires IsSearch(P, objects, moves, ms) && P.LawfulExchange() && UndoesWell(P, moves, ms, |moves|)
    requires NothingToBacktrackOn(ms[|ms| - 1])
    ensures Exhausted(P, ms[|ms| - 1])
  {
    hide UndoesWell, CoveredFrom, IsLastConflict;
    var n := |ms| - 1;
    var m := ms[n];
    SearchKeepsCore(P, objects, moves, ms, n);
    forall k: nat, p: Tid, i: nat, q | i < k <= |m.trans| && p < |m.next| && IsLastConflict(P, m.trans[..k], i, p, NextAt(P, m, k, p)) && q in m.items[i].enabled
      ensures RunAlready(P, m, i, q)
    {
      NothingIsOwed(P, objects, moves, ms, n, k, p, i, q);
    }
  }

  // ----- mutexes, threads and global variables --------------------------

  /** The calls undone, up to the i-th machine, were well defined. */
  ghost predicate UndoesProperRuns<O(!new), T(!new)>(P: Program<O, T>, moves: seq<Move<O, T>>, ms: seq<Machine<O, T>>, i: nat)
    requires i <= |moves| && |ms| == |moves| + 1
  {
    forall j: nat | j < i && moves[j].Branch? && CanReverse(ms[j], moves[j].k) :: ProperRun(P, ms[j])
  }

  lemma ProgramUndoesWell(home: Transitions.Home, moves: seq<Move<Transitions.Object, Transitions.Transition>>,
                          ms: seq<Machine<Transitions.Object, Transitions.Transition>>, i: nat)
    requires i <= |moves| && |ms| == |moves| + 1 && UndoesProperRuns(Transitions.TheProgram(home), moves, ms, i)
    ensures UndoesWell(Transitions.TheProgram(home), moves, ms, i)
  {
    hide ProperRun, CanReverse, LawfulRewind;
    Transitions.UndoIsLawful(home);
    Transitions.RewindIsLawful(home);
  }

  /** In every search of a program of mutexes, threads and global variables
      that undoes well-defined calls only, every thread's obligation is met at
      every prefix of the stack. */
  lemma ProgramMeetsObligations(home: Transitions.Home, objects: seq<Transitions.Object>,
                                moves: seq<Move<Transitions.Object, Transitions.Transition>>,
                                ms: seq<Machine<Transitions.Object, Transitions.Transition>>, i: nat)
    requires IsSearch(Transitions.TheProgram(home), objects, moves, ms) && i < |ms|
    requires UndoesProperRuns(Transitions.TheProgram(home), moves, ms, i)
    ensures Shape(Transitions.TheProgram(home), ms[i]) && AllOwed(Transitions.TheProgram(home), ms[i])
  {
    hide UndoesWell, UndoesProperRuns, ThreadsSafe;
    ProgramUndoesWell(home, moves, ms, i);
    SearchMeetsObligations(Transitions.TheProgram(home), objects, moves, ms, i);
  }

  /** And at its end every state with a conflict is done with. */
  lemma ProgramIsExhausted(home: Transitions.Home, objects: seq<Transitions.Object>,
                           moves: seq<Move<Transitions.Object, Transitions.Transition>>,
                           ms: seq<Machine<Transitions.Object, Transitions.Transition>>)
    requires IsSearch(Transitions.TheProgram(home), objects, moves, ms) && Transitions.Injective(home)
    requires UndoesProperRuns(Transitions.TheProgram(home), moves, ms, |moves|)
    requires NothingToBacktrackOn(ms[|ms| - 1])
    ensures Exhausted(Transitions.TheProgram(home), ms[|ms| - 1])
  {
    hide UndoesWell, UndoesProperRuns, Exhausted;
    ProgramUndoesWell(home, moves, ms, |moves|);
    Transitions.ExchangeIsLawful(home);
    FinishedSearchIsExhausted(Transitions.TheProgram(home), objects, moves, ms);
  }

  lemma SubsetByDifference(a: set<Tid>, b: set<Tid>, q: Tid)
    requires a - b <= {} && q in a
    ensures q in b
  {
    assert q !in a - b;
  }

  lemma KnownSleeper<O(!new), T(!new)>(P: Program<O, T>, m: Machine<O, T>, i: nat, q: Tid)
    requires Core(P, m, {}) && i <= |m.trans| && q in m.items[i].sleep
    ensures q < |m.next| && SleepJustified(P, m)
  {
    assert TidyItem(m.items[i], |m.next|, {});
  }
}
