/** What the four sets of every state mean: set discipline, the justification
    of the sleep sets, and the soundness of the cached enabled threads. */
module Sleeping {
  import opened ClockVectors
  import opened Programs
  import opened Chains
  import opened Machines
  import opened Obligations
  import opened Rewinding

  // ----- set discipline -------------------------------------------------

  ghost predicate Known(s: set<Tid>, threads: nat) {
    forall p | p in s :: p < threads
  }

  /** popped is the thread taken out of the backtrack set of the top state and
      not yet run from it, if any. */
  ghost predicate TidyItem(item: Item, threads: nat, popped: set<Tid>) {
    && item.backtrack <= item.enabled
    && item.backtrack !! item.done
    && item.backtrack !! item.sleep
    && item.done - popped <= item.sleep
    && Known(item.enabled, threads) && Known(item.sleep, threads) && Known(item.done, threads)
  }

  ghost predicate Discipline<O(!new), T(!new)>(P: Program<O, T>, m: Machine<O, T>, popped: set<Tid>)
    requires Shape(P, m)
  {
    && (forall k: nat | k < |m.trans| :: TidyItem(m.items[k], |m.next|, {}))
    && TidyItem(m.items[|m.trans|], |m.next|, popped)
    && m.items[0].backtrack == {}
    && (m.trans != [] ==> m.items[0].enabled <= {0} && 0 in m.items[0].sleep)
    && (m.trans == [] ==> m.items[0] == EmptyItem(m.items[0].clock))
  }

  lemma StepKeepsDiscipline<O(!new), T(!new)>(P: Program<O, T>, m: Machine<O, T>, p: Tid, reply: Reply<O, T>, popped: set<Tid>)
    requires Shape(P, m) && p < |m.next| && Shape(P, Simulate(P, m, p, reply))
    requires Discipline(P, m, popped) && popped <= {p}
    ensures Discipline(P, Simulate(P, m, p, reply), {})
  {
    var m' := Simulate(P, m, p, reply);
    var n := |m.trans|;
    forall k: nat | k <= n
      ensures TidyItem(m'.items[k], |m'.next|, {})
    {
      assert TidyItem(m.items[k], |m.next|, if k == n then popped else {});
    }
    assert m.trans == [] ==> EnabledNow(P, m) <= {0};
  }

  lemma UpdateKeepsDiscipline<O(!new), T(!new)>(P: Program<O, T>, m: Machine<O, T>, m': Machine<O, T>)
    requires Shape(P, m) && m.trans != [] && Updated(P, m, m') && Discipline(P, m, {})
    ensures Shape(P, m') && Discipline(P, m', {})
  {
    assert forall k: nat | k < |m.items| :: TidyItem(m.items[k], |m.next|, {});
    UpdateGrows(P, m, m');
    forall k: nat | k < |m'.items|
      ensures TidyItem(m'.items[k], |m'.next|, {})
    {
      assert TidyItem(m.items[k], |m.next|, {});
    }
  }

  lemma BranchKeepsDiscipline<O(!new), T(!new)>(P: Program<O, T>, m: Machine<O, T>, c: Machine<O, T>, k: nat, p: Tid)
    requires Shape(P, m) && Shape(P, c) && Discipline(P, m, {})
    requires 1 <= k <= |m.trans| && |c.trans| == k && |c.next| == |m.next|
    requires c.items == Popped(m, k, p).items[..k + 1] && p in m.items[k].backtrack
    ensures Discipline(P, c, {p})
  {
    forall l: nat | l <= k
      ensures TidyItem(c.items[l], |c.next|, if l == k then {p} else {})
    {
      assert TidyItem(m.items[l], |m.next|, {});
    }
  }

  // ----- sleep sets -----------------------------------------------------

  /** nx was already run after the first j transitions of run, and depends on
      none of those that followed. */
  ghost predicate ExploredAt<O(!new), T(!new)>(P: Program<O, T>, explored: seq<(seq<T>, T)>, run: seq<T>, j: nat, nx: T) {
    j <= |run| && (run[..j], nx) in explored && forall i | j <= i < |run| :: !P.dep(nx, run[i])
  }

  ghost predicate Justified<O(!new), T(!new)>(P: Program<O, T>, explored: seq<(seq<T>, T)>, run: seq<T>, nx: T) {
    exists j: nat :: ExploredAt(P, explored, run, j, nx)
  }

  /** Every sleeping thread of every state is justified. */
  ghost predicate SleepJustified<O(!new), T(!new)>(P: Program<O, T>, m: Machine<O, T>)
    requires Shape(P, m)
  {
    forall k: nat, q: Tid | k <= |m.trans| && q < |m.next| && q in m.items[k].sleep ::
      Justified(P, m.explored, m.trans[..k], NextAt(P, m, k, q))
  }

  /** Every thread done at a state was run from it. */
  ghost predicate DoneExplored<O(!new), T(!new)>(P: Program<O, T>, m: Machine<O, T>, popped: set<Tid>)
    requires Shape(P, m)
  {
    forall k: nat, q: Tid | k <= |m.trans| && q < |m.next| && q in m.items[k].done && (k == |m.trans| ==> q !in popped) ::
      (m.trans[..k], NextAt(P, m, k, q)) in m.explored
  }

  lemma JustifiedLater<O(!new), T(!new)>(P: Program<O, T>, e: seq<(seq<T>, T)>, more: seq<(seq<T>, T)>, run: seq<T>, nx: T)
    requires Justified(P, e, run, nx)
    ensures Justified(P, e + more, run, nx)
  {
    var j: nat :| ExploredAt(P, e, run, j, nx);
    assert ExploredAt(P, e + more, run, j, nx);
  }

  lemma JustifiedAfterIndependent<O(!new), T(!new)>(P: Program<O, T>, e: seq<(seq<T>, T)>, run: seq<T>, nx: T, t: T)
    requires Justified(P, e, run, nx) && !P.dep(nx, t)
    ensures Justified(P, e, run + [t], nx)
  {
    var j: nat :| ExploredAt(P, e, run, j, nx);
    assert (run + [t])[..j] == run[..j];
    assert ExploredAt(P, e, run + [t], j, nx);
  }

  lemma StepKeepsSleepJustified<O(!new), T(!new)>(P: Program<O, T>, m: Machine<O, T>, p: Tid, reply: Reply<O, T>, popped: set<Tid>)
    requires P.LawfulRelation() && Shape(P, m) && p < |m.next| && Shape(P, Simulate(P, m, p, reply))
    requires Discipline(P, m, popped) && SleepJustified(P, m)
    ensures SleepJustified(P, Simulate(P, m, p, reply))
  {
    var m' := Simulate(P, m, p, reply);
    var n, t := |m.trans|, m.next[p];
    var e := [(m.trans, t)];
    forall k: nat, q: Tid | k <= |m'.trans| && q < |m'.next| && q in m'.items[k].sleep
      ensures Justified(P, m'.explored, m'.trans[..k], NextAt(P, m', k, q))
    {
      assert TidyItem(m.items[if k <= n then k else n], |m.next|, if k < n then {} else popped);
      if k <= n {
        NextAtAfterStep(P, m, p, reply, k, q);
        assert m'.trans[..k] == m.trans[..k];
        if q in m.items[k].sleep {
          JustifiedLater(P, m.explored, e, m.trans[..k], NextAt(P, m, k, q));
        } else {
          assert k == n && q == p && m.trans[..n] == m.trans;
          assert m'.explored[|m.explored|] == (m.trans, t);
          assert ExploredAt(P, m'.explored, m.trans, n, t);
        }
      } else {
        assert q in m.items[n].sleep && !P.dep(m.next[q], t);
        assert m.trans[..n] == m.trans && m'.trans[..k] == m.trans + [t];
        JustifiedAfterIndependent(P, m.explored, m.trans, m.next[q], t);
        JustifiedLater(P, m.explored, e, m.trans + [t], m.next[q]);
      }
    }
  }

  lemma StepKeepsDoneExplored<O(!new), T(!new)>(P: Program<O, T>, m: Machine<O, T>, p: Tid, reply: Reply<O, T>, popped: set<Tid>)
    requires Shape(P, m) && p < |m.next| && Shape(P, Simulate(P, m, p, reply))
    requires Discipline(P, m, popped) && DoneExplored(P, m, popped) && popped <= {p}
    ensures DoneExplored(P, Simulate(P, m, p, reply), {})
  {
    var m' := Simulate(P, m, p, reply);
    var n := |m.trans|;
    forall k: nat, q: Tid | k <= |m'.trans| && q < |m'.next| && q in m'.items[k].done
      ensures (m'.trans[..k], NextAt(P, m', k, q)) in m'.explored
    {
      assert k <= n && TidyItem(m.items[k], |m.next|, if k < n then {} else popped);
      NextAtAfterStep(P, m, p, reply, k, q);
      assert m'.trans[..k] == m.trans[..k];
      if k == n && q == p {
        assert m.trans[..n] == m.trans;
        assert m'.explored[|m.explored|] == (m.trans, m.next[p]);
      }
    }
  }

  // ----- enabled threads ------------------------------------------------

  /** The objects as they were after the first k transitions. */
  ghost function StateAt<O(!new), T(!new)>(P: Program<O, T>, m: Machine<O, T>, k: nat): seq<O>
    requires k <= |m.trans|
  {
    Replay(P, m.initial, m.trans[..k])
  }

  ghost predicate Fits<O(!new), T(!new)>(P: Program<O, T>, m: Machine<O, T>) {
    && (forall i: nat | i < |m.trans| :: P.fits(|m.initial|, m.trans[i]))
    && (forall p: Tid | p < |m.next| :: P.fits(|m.initial|, m.next[p]))
  }

  /** A thread cached as enabled at state k is enabled there; in particular
      every transition on the stack was enabled when it was run. */
  ghost predicate EnabledSound<O(!new), T(!new)>(P: Program<O, T>, m: Machine<O, T>)
    requires Shape(P, m)
  {
    && (forall k: nat, q: Tid | k <= |m.trans| && q < |m.next| && q in m.items[k].enabled ::
          P.enabled(StateAt(P, m, k), NextAt(P, m, k, q)))
    && (forall k: nat | k < |m.trans| :: P.enabled(StateAt(P, m, k), m.trans[k]))
  }

  /** The live objects are those of the run on the stack. */
  ghost predicate Faithful<O(!new), T(!new)>(P: Program<O, T>, m: Machine<O, T>) {
    m.current == Replay(P, m.initial, m.trans)
  }

  ghost predicate ReplyFits<O(!new), T(!new)>(P: Program<O, T>, m: Machine<O, T>, p: Tid, reply: Reply<O, T>) {
    var objects := |m.initial| + |reply.objects|;
    && P.tid(reply.next) == p
    && P.fits(objects, reply.next)
    && forall q: nat | |m.next| <= q < |m.next| + reply.newThreads :: P.fits(objects, P.start(q))
  }

  lemma StepKeepsFits<O(!new), T(!new)>(P: Program<O, T>, m: Machine<O, T>, p: Tid, reply: Reply<O, T>)
    requires P.LawfulStore() && Shape(P, m) && p < |m.next| && Fits(P, m) && ReplyFits(P, m, p, reply)
    ensures Fits(P, Simulate(P, m, p, reply))
  {
    var m' := Simulate(P, m, p, reply);
    forall i: nat | i < |m'.trans|
      ensures P.fits(|m'.initial|, m'.trans[i])
    {
      assert P.fits(|m.initial|, m'.trans[i]);
    }
    forall q: Tid | q < |m'.next|
      ensures P.fits(|m'.initial|, m'.next[q])
    {
      if q < |m.next| && q != p {
        assert P.fits(|m.initial|, m.next[q]);
      }
    }
  }

  lemma StepKeepsStates<O(!new), T(!new)>(P: Program<O, T>, m: Machine<O, T>, p: Tid, reply: Reply<O, T>, k: nat)
    requires P.LawfulStore() && Shape(P, m) && p < |m.next| && Fits(P, m) && k <= |m.trans|
    ensures StateAt(P, Simulate(P, m, p, reply), k) == StateAt(P, m, k) + reply.objects
    ensures |StateAt(P, m, k)| == |m.initial|
  {
    assert Simulate(P, m, p, reply).trans[..k] == m.trans[..k];
    ReplayExtends(P, m.initial, reply.objects, m.trans[..k]);
  }

  lemma StepKeepsFaithful<O(!new), T(!new)>(P: Program<O, T>, m: Machine<O, T>, p: Tid, reply: Reply<O, T>)
    requires P.LawfulStore() && Shape(P, m) && p < |m.next| && Fits(P, m) && Faithful(P, m)
    ensures Faithful(P, Simulate(P, m, p, reply))
  {
    ReplayExtends(P, m.initial, reply.objects, m.trans);
    ReplayStep(P, m.initial + reply.objects, m.trans, m.next[p]);
  }

  lemma {:induction false} NextAtFits<O(!new), T(!new)>(P: Program<O, T>, m: Machine<O, T>, k: nat, p: Tid)
    requires Fits(P, m) && k <= |m.trans| && p < |m.next|
    ensures P.fits(|m.initial|, NextAt(P, m, k, p))
    decreases |m.trans| - k
  {
    if k < |m.trans| && P.tid(m.trans[k]) != p {
      NextAtFits(P, m, k + 1, p);
    }
  }

  lemma StepKeepsEnabledSound<O(!new), T(!new)>(P: Program<O, T>, m: Machine<O, T>, p: Tid, reply: Reply<O, T>, popped: set<Tid>)
    requires P.LawfulStore() && Shape(P, m) && p < |m.next| && Shape(P, Simulate(P, m, p, reply))
    requires Fits(P, m) && Faithful(P, m) && EnabledSound(P, m) && Discipline(P, m, popped)
    requires P.enabled(m.current, m.next[p])
    ensures EnabledSound(P, Simulate(P, m, p, reply))
  {
    var m' := Simulate(P, m, p, reply);
    var n := |m.trans|;
    assert m.trans[..n] == m.trans;
    forall k: nat, q: Tid | k <= |m'.trans| && q < |m'.next| && q in m'.items[k].enabled
      ensures P.enabled(StateAt(P, m', k), NextAt(P, m', k, q))
    {
      assert k <= n;
      assert TidyItem(m.items[k], |m.next|, if k < n then {} else popped);
      NextAtAfterStep(P, m, p, reply, k, q);
      NextAtFits(P, m, k, q);
      StepKeepsStates(P, m, p, reply, k);
      assert P.enabled(StateAt(P, m, k), NextAt(P, m, k, q));
    }
    forall k: nat | k < |m'.trans|
      ensures P.enabled(StateAt(P, m', k), m'.trans[k])
    {
      StepKeepsStates(P, m, p, reply, k);
      assert P.fits(|m.initial|, m'.trans[k]) && P.enabled(StateAt(P, m, k), m'.trans[k]);
    }
  }
}
