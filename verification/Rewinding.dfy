/** Rewinding: undoing agrees with replaying on everything but the clock
    vectors of the threads, and the table of pending transitions round-trips. */
module Rewinding {
  import opened ClockVectors
  import opened Programs
  import opened Chains
  import opened Machines
  import opened Obligations

  // ----- pending transitions --------------------------------------------

  lemma {:induction false} NextAtIsFirstRun<O(!new), T(!new)>(P: Program<O, T>, m: Machine<O, T>, k: nat, p: Tid)
    requires k <= |m.trans| && p < |m.next|
    ensures var j := FirstRun(P, m.trans, k, p);
            NextAt(P, m, k, p) == if j == |m.trans| then m.next[p] else m.trans[j]
    decreases |m.trans| - k
  {
    if k < |m.trans| && P.tid(m.trans[k]) != p {
      NextAtIsFirstRun(P, m, k + 1, p);
    }
  }

  /** Rewinding to k and looking back from there gives what was pending at
      every earlier state. */
  lemma {:induction false} NextAtAfterCut<O(!new), T(!new)>(P: Program<O, T>, m: Machine<O, T>, c: Machine<O, T>, k: nat, l: nat, p: Tid)
    requires l <= k <= |m.trans| && p < |m.next| == |c.next|
    requires c.trans == m.trans[..k] && c.next[p] == NextAt(P, m, k, p)
    ensures NextAt(P, c, l, p) == NextAt(P, m, l, p)
    decreases k - l
  {
    if l < k {
      assert c.trans[l] == m.trans[l];
      NextAtAfterCut(P, m, c, k, l + 1, p);
    }
  }

  // ----- counters -------------------------------------------------------

  ghost predicate DepthExact<O(!new), T(!new)>(P: Program<O, T>, m: Machine<O, T>) {
    |m.depth| == |m.next| && forall p: Tid | p < |m.next| :: m.depth[p] == Count(P, m.trans, p)
  }

  ghost predicate IrreversibleExact<O(!new), T(!new)>(P: Program<O, T>, m: Machine<O, T>) {
    m.irreversible == IrreversibleIn(P, m.trans)
  }

  lemma {:induction false} IrreversibleBounds<O(!new), T(!new)>(P: Program<O, T>, run: seq<T>)
    ensures forall i | i in IrreversibleIn(P, run) :: i <= |run|
  {
    if run != [] {
      IrreversibleBounds(P, run[..|run| - 1]);
    }
  }

  lemma {:induction false} KeepsIrreversiblePrefix<O(!new), T(!new)>(P: Program<O, T>, run: seq<T>, k: nat)
    requires k <= |run|
    ensures KeepUpTo(IrreversibleIn(P, run), k) == IrreversibleIn(P, run[..k])
  {
    if k == |run| {
      var s := IrreversibleIn(P, run);
      assert run[..k] == run;
      IrreversibleBounds(P, run);
      assert s == [] || s[|s| - 1] in s;
    } else {
      var n := |run| - 1;
      assert run[..n][..k] == run[..k];
      KeepsIrreversiblePrefix(P, run[..n], k);
      var below := IrreversibleIn(P, run[..n]);
      assert below + [] == below && (below + [n + 1])[..|below|] == below;
    }
  }

  lemma {:induction false} IrreversibleTop<O(!new), T(!new)>(P: Program<O, T>, run: seq<T>, k: nat)
    requires k <= |run|
    ensures var s := IrreversibleIn(P, run);
            (s == [] || s[|s| - 1] <= k) <==> forall i: nat | k <= i < |run| :: P.reversible(run[i])
  {
    var s := IrreversibleIn(P, run);
    if k == |run| {
      IrreversibleBounds(P, run);
      assert s == [] || s[|s| - 1] in s;
    } else {
      var n := |run| - 1;
      IrreversibleTop(P, run[..n], k);
      var below := IrreversibleIn(P, run[..n]);
      assert s == below + if P.reversible(run[n]) then [] else [n + 1];
      assert below + [] == below && k <= n;
      assert forall i: nat | i < n :: run[..n][i] == run[i];
    }
  }

  /** Reverse rewinding is chosen exactly when every transition above the
      state is reversible. */
  lemma CanReverseIff<O(!new), T(!new)>(P: Program<O, T>, m: Machine<O, T>, k: nat)
    requires IrreversibleExact(P, m) && k <= |m.trans|
    ensures CanReverse(m, k) <==> forall i: nat | k <= i < |m.trans| :: P.reversible(m.trans[i])
  {
    IrreversibleTop(P, m.trans, k);
  }

  // ----- objects --------------------------------------------------------

  ghost predicate RunsReady<O(!new), T(!new)>(P: Program<O, T>, s: seq<O>, run: seq<T>, from: nat) {
    forall i: nat | from <= i < |run| :: P.Ready(Replay(P, s, run[..i]), run[i])
  }

  lemma {:induction false} UndoIsReplay<O(!new), T(!new)>(P: Program<O, T>, s: seq<O>, run: seq<T>, k: nat)
    requires P.LawfulUndo() && k <= |run| && RunsReady(P, s, run, k)
    requires forall i: nat | k <= i < |run| :: P.reversible(run[i])
    ensures Undo(P, Replay(P, s, run), run, k) == Replay(P, s, run[..k])
    decreases |run|
  {
    if k == |run| {
      assert run[..k] == run;
    } else {
      var n := |run| - 1;
      assert P.Ready(Replay(P, s, run[..n]), run[n]);
      assert forall i: nat | i <= n :: run[..n][..i] == run[..i];
      UndoIsReplay(P, s, run[..n], k);
    }
  }

  /** Both ways of rewinding give the same stacks, pending transitions,
      execution depths and objects. Only the clock vectors of the threads may
      differ. */
  lemma UndoAgreesWithReplay<O(!new), T(!new)>(P: Program<O, T>, m: Machine<O, T>, k: nat)
    requires P.LawfulUndo() && Shape(P, m) && k <= |m.trans|
    requires DepthExact(P, m) && IrreversibleExact(P, m) && m.current == Replay(P, m.initial, m.trans)
    requires RunsReady(P, m.initial, m.trans, k) && CanReverse(m, k)
    ensures Undone(P, m, k) == Replayed(P, m, k).(threadClock := UndoneClocks(P, m, k))
  {
    CanReverseIff(P, m, k);
    UndoIsReplay(P, m.initial, m.trans, k);
    assert Undone(P, m, k).depth == Replayed(P, m, k).depth;
  }

  // ----- clock vectors --------------------------------------------------

  lemma ClockNamesItsIndex<O(!new), T(!new)>(P: Program<O, T>, m: Machine<O, T>, j: nat)
    requires Shape(P, m) && ItemsClocked(P, m) && j < |m.trans|
    ensures ValueFor(m.items[j + 1].clock, P.tid(m.trans[j])) == j
  {
    var clocks := ItemClocks(m.items);
    assert clocks[j] == NextClock(P, m.trans[..j], clocks, m.trans[j]);
  }

  /** Replaying leaves every thread with the clock vector of its last kept
      transition, whatever the clock vectors were. */
  lemma ReplayRestoresClocks<O(!new), T(!new)>(P: Program<O, T>, m: Machine<O, T>, k: nat)
    requires Shape(P, m) && 1 <= k <= |m.trans|
    ensures Shape(P, Replayed(P, m, k)) ==> ThreadClocksExact(P, Replayed(P, m, k))
  {
  }

  /** Undoing does not: every undone transition leaves its own clock vector
      with its thread. The clock vectors are right exactly when nothing had to
      be undone. */
  lemma UndoRestoresClocksIff<O(!new), T(!new)>(P: Program<O, T>, m: Machine<O, T>, k: nat)
    requires P.LawfulUndo() && Shape(P, m) && ItemsClocked(P, m) && StartsFirst(P, m) && ThreadClocksExact(P, m)
    requires IrreversibleExact(P, m) && 1 <= k <= |m.trans| && CanReverse(m, k)
    requires Shape(P, Undone(P, m, k))
    ensures ThreadClocksExact(P, Undone(P, m, k)) <==> k == |m.trans|
  {
    hide Undo, Count, KeepUpTo, IrreversibleIn, Clocked;
    var u := Undone(P, m, k);
    if k == |m.trans| {
      assert m.trans[..k] == m.trans && m.items[..k + 1] == m.items;
      forall p: Tid | p < |m.next|
        ensures ClockExact(P, u, p)
      {
        assert ClockExact(P, m, p) && u.threadClock[p] == m.threadClock[p];
      }
    } else {
      CanReverseIff(P, m, k);
      var p := P.tid(m.trans[k]);
      assert P.reversible(m.trans[k]);
      var j := LastRun(P, m.trans[..k], p);
      if j < 0 {
        assert forall i | 0 <= i < k :: m.trans[..k][i] == m.trans[i];
        NextAtSkips(P, m, 0, k, p);
        assert false;
      }
      assert FirstRun(P, m.trans, k, p) == k;
      assert u.threadClock[p] == m.items[k + 1].clock;
      ClockNamesItsIndex(P, m, k);
      ClockNamesItsIndex(P, m, j);
      assert u.items[j + 1] == m.items[j + 1];
      assert m.trans[..k][j] == m.trans[j];
      assert !ClockExact(P, u, p);
    }
  }
}
