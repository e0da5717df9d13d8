/** Trace equivalence: exchanging independent transitions keeps a run
    executable and its final state. */
module Traces {
  import opened ClockVectors
  import opened Programs
  import opened Chains
  import opened Machines
  import opened Sleeping

  /** Every transition is ready when its turn comes. */
  ghost predicate IsRun<O(!new), T(!new)>(P: Program<O, T>, s: seq<O>, run: seq<T>) {
    run == [] ||
    var n := |run| - 1;
    IsRun(P, s, run[..n]) && P.Ready(Replay(P, s, run[..n]), run[n])
  }

  lemma IsRunStep<O(!new), T(!new)>(P: Program<O, T>, s: seq<O>, run: seq<T>, t: T)
    ensures IsRun(P, s, run + [t]) <==> IsRun(P, s, run) && P.Ready(Replay(P, s, run), t)
    ensures Replay(P, s, run + [t]) == P.apply(Replay(P, s, run), t)
  {
    assert (run + [t])[..|run|] == run;
  }

  /** Two runs that are both executable, or neither, with one final state. */
  ghost predicate Equivalent<O(!new), T(!new)>(P: Program<O, T>, s: seq<O>, a: seq<T>, b: seq<T>) {
    (IsRun(P, s, a) <==> IsRun(P, s, b)) && (IsRun(P, s, a) ==> Replay(P, s, a) == Replay(P, s, b))
  }

  lemma EquivalentExtends<O(!new), T(!new)>(P: Program<O, T>, s: seq<O>, a: seq<T>, b: seq<T>, t: T)
    requires Equivalent(P, s, a, b)
    ensures Equivalent(P, s, a + [t], b + [t])
  {
    IsRunStep(P, s, a, t);
    IsRunStep(P, s, b, t);
  }

  lemma AdjacentExchange<O(!new), T(!new)>(P: Program<O, T>, s: seq<O>, u: seq<T>, x: T, y: T)
    requires P.LawfulRelation() && P.LawfulExchange() && !P.dep(x, y)
    ensures Equivalent(P, s, u + [x] + [y], u + [y] + [x])
  {
    var r := Replay(P, s, u);
    assert !P.dep(y, x);
    IsRunStep(P, s, u, x);
    IsRunStep(P, s, u, y);
    IsRunStep(P, s, u + [x], y);
    IsRunStep(P, s, u + [y], x);
    if P.Ready(r, x) && P.Ready(P.apply(r, x), y) {
      assert P.Exchanges(r, x, y);
    }
    if P.Ready(r, y) && P.Ready(P.apply(r, y), x) {
      assert P.Exchanges(r, y, x);
    }
  }

  /** A transition can move past any number of transitions independent of it. */
  lemma {:induction false} MovesPast<O(!new), T(!new)>(P: Program<O, T>, s: seq<O>, u: seq<T>, x: T, v: seq<T>)
    requires P.LawfulRelation() && P.LawfulExchange()
    requires forall i | 0 <= i < |v| :: !P.dep(x, v[i])
    ensures Equivalent(P, s, u + [x] + v, u + v + [x])
  {
    if v == [] {
      assert u + [x] + v == u + v + [x];
    } else {
      var n := |v| - 1;
      var w, y := v[..n], v[n];
      MovesPast(P, s, u, x, w);
      EquivalentExtends(P, s, u + [x] + w, u + w + [x], y);
      AdjacentExchange(P, s, u + w, x, y);
      assert u + [x] + v == u + [x] + w + [y];
      assert u + v + [x] == u + w + [y] + [x];
    }
  }

  // ----- linearisations -------------------------------------------------

  /** order lists the indices of run once each, never reversing two dependent
      transitions. */
  ghost predicate Linearises<O(!new), T(!new)>(P: Program<O, T>, run: seq<T>, order: seq<nat>) {
    && |order| == |run|
    && (forall a: nat | a < |order| :: order[a] < |run|)
    && (forall a: nat, b: nat | a < b < |order| :: order[a] != order[b])
    && (forall a: nat, b: nat | a < b < |order| && order[a] < |run| && order[b] < |run| && P.dep(run[order[a]], run[order[b]]) ::
          order[a] < order[b])
  }

  ghost function Reordered<T>(run: seq<T>, order: seq<nat>): (r: seq<T>)
    requires forall a: nat | a < |order| :: order[a] < |run|
    ensures |r| == |order| && forall a | 0 <= a < |r| :: r[a] == run[order[a]]
  {
    seq(|order|, a requires 0 <= a < |order| => run[order[a]])
  }

  function Without(order: seq<nat>, i: nat): (r: seq<nat>)
    ensures |r| == |order|
    ensures forall a: nat | a < |r| :: r[a] == if order[a] > i then order[a] - 1 else order[a]
  {
    seq(|order|, a requires 0 <= a < |order| => if order[a] > i then order[a] - 1 else order[a])
  }

  ghost function Elements(order: seq<nat>): (r: set<nat>)
    ensures forall x :: x in r <==> x in order
    ensures (forall a: nat, b: nat | a < b < |order| :: order[a] != order[b]) ==> |r| == |order|
  {
    if order == [] then {}
    else
      var n := |order| - 1;
      assert order == order[..n] + [order[n]];
      var below := Elements(order[..n]);
      assert (forall a: nat, b: nat | a < b < |order| :: order[a] != order[b]) ==> order[n] !in below && |below| == n;
      below + {order[n]}
  }

  lemma InjectionIsOnto(order: seq<nat>, n: nat, i: nat)
    requires |order| == n && i < n
    requires forall a: nat | a < n :: order[a] < n
    requires forall a: nat, b: nat | a < b < n :: order[a] != order[b]
    ensures exists a: nat :: a < n && order[a] == i
  {
    var image := Elements(order);
    ThreadIdsSize(n, {});
    if i !in image {
      assert forall x | x in image :: x < n;
      SubsetSize(image, ThreadIds(n) - {i});
      assert false;
    }
  }

  /** Taking the transition a linearisation ends with out of the run leaves a
      linearisation of the rest. */
  lemma WithoutLast<O(!new), T(!new)>(P: Program<O, T>, run: seq<T>, order: seq<nat>)
    requires Linearises(P, run, order) && run != []
    ensures var n := |run| - 1;
            var i := order[n];
            var rest, order' := run[..i] + run[i + 1..], Without(order[..n], i);
            Linearises(P, rest, order') && Reordered(run, order) == Reordered(rest, order') + [run[i]]
  {
    var n := |run| - 1;
    var i := order[n];
    var rest, order' := run[..i] + run[i + 1..], Without(order[..n], i);
    assert forall a: nat | a < n :: order[a] != i && rest[order'[a]] == run[order[a]];
  }

  /** Everything after it in the run is independent of it. */
  lemma LastIsIndependent<O(!new), T(!new)>(P: Program<O, T>, run: seq<T>, order: seq<nat>, k: nat)
    requires P.LawfulRelation() && Linearises(P, run, order) && order != [] && order[|order| - 1] < k < |run|
    ensures !P.dep(run[order[|order| - 1]], run[k])
  {
    var n := |run| - 1;
    InjectionIsOnto(order, |run|, k);
    var a: nat :| a < |run| && order[a] == k;
    assert P.dep(run[order[a]], run[order[n]]) == P.dep(run[order[n]], run[order[a]]);
  }

  /** All linearisations of one dependence order are executable and reach the
      same state. */
  lemma {:induction false} LinearisationsAgree<O(!new), T(!new)>(P: Program<O, T>, s: seq<O>, run: seq<T>, order: seq<nat>)
    requires P.LawfulRelation() && P.LawfulExchange()
    requires Linearises(P, run, order)
    ensures Equivalent(P, s, run, Reordered(run, order))
    decreases |run|
  {
    hide IsRun, Replay;
    if run == [] {
      assert Reordered(run, order) == run;
    } else {
      var n := |run| - 1;
      var i := order[n];
      var u, x, v := run[..i], run[i], run[i + 1..];
      forall k: nat | k < |v|
        ensures !P.dep(x, v[k])
      {
        LastIsIndependent(P, run, order, i + 1 + k);
      }
      MovesPast(P, s, u, x, v);
      assert run == u + [x] + v;
      var order' := Without(order[..n], i);
      WithoutLast(P, run, order);
      LinearisationsAgree(P, s, u + v, order');
      EquivalentExtends(P, s, u + v, Reordered(u + v, order'), x);
    }
  }

  // ----- sleeping threads -----------------------------------------------

  /** Running a sleeping thread from state k would only repeat a run whose
      beginning was explored before: the thread's pending transition was
      already run after a prefix of the stack, and the two runs are
      equivalent. */
  lemma SleepingThreadIsRedundant<O(!new), T(!new)>(P: Program<O, T>, m: Machine<O, T>, k: nat, q: Tid)
    requires P.LawfulRelation() && P.LawfulExchange()
    requires Shape(P, m) && SleepJustified(P, m)
    requires k <= |m.trans| && q < |m.next| && q in m.items[k].sleep
    ensures var nx := NextAt(P, m, k, q);
            exists j: nat :: j <= k && (m.trans[..j], nx) in m.explored
                             && Equivalent(P, m.initial, m.trans[..k] + [nx], m.trans[..j] + [nx] + m.trans[j..k])
  {
    var nx := NextAt(P, m, k, q);
    var run := m.trans[..k];
    var j: nat :| ExploredAt(P, m.explored, run, j, nx);
    assert run[..j] == m.trans[..j] && run[j..] == m.trans[j..k];
    MovesPast(P, m.initial, run[..j], nx, run[j..]);
    assert run == run[..j] + run[j..];
  }
}
