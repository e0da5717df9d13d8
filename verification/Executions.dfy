/** The executions of a traced program, and what exchanging independent steps
    does to them. */
module Executions {
  import opened ClockVectors
  import opened Programs
  import opened Chains

  /** A program together with the traced process: pending says what a thread is
      about to do after a run. A thread that has not started is about to. */
  datatype World<!O(!new), !T(!new)> = World(program: Program<O, T>, objects: seq<O>, pending: (seq<T>, Tid) -> T)
  {
    ghost function After(run: seq<T>): seq<O> {
      Replay(program, objects, run)
    }

    ghost predicate CanRun(run: seq<T>, p: Tid) {
      program.enabled(After(run), pending(run, p))
    }

    /** Every step is its thread's pending transition, and ready. */
    ghost predicate Exec(run: seq<T>) {
      run == [] ||
      var n := |run| - 1;
      && Exec(run[..n]) && run[n] == pending(run[..n], program.tid(run[n]))
      && program.Ready(After(run[..n]), run[n])
    }

    /** The traced process is deterministic: what a thread is about to do
        changes only when it runs, and does not depend on the order of
        independent steps. Whatever it can do is well defined. */
    ghost predicate Deterministic() {
      && (forall run, p :: program.tid(pending(run, p)) == p)
      && (forall p :: pending([], p) == program.start(p))
      && (forall run, x, q | program.tid(x) != q :: pending(run + [x], q) == pending(run, q))
      && (forall u, x, y, v, p | !program.dep(x, y) && Exec(u + [x] + [y] + v) :: pending(u + [x] + [y] + v, p) == pending(u + [y] + [x] + v, p))
      && (forall run, p | Exec(run) && CanRun(run, p) :: program.proper(After(run), pending(run, p)))
    }

    ghost predicate Lawful() {
      && program.LawfulRelation() && program.LawfulExchange() && Deterministic()
      && LawfulDiamond(program) && LawfulCoenabled(program)
    }
  }

  /** Whether a call is well defined does not depend on objects registered
      after the transition was built. */
  ghost predicate LawfulCalls<O(!new), T(!new)>(P: Program<O, T>) {
    forall s, e, t | P.fits(|s|, t) :: P.proper(s + e, t) == P.proper(s, t)
  }

  /** Independent transitions do not disable each other. */
  ghost predicate LawfulDiamond<O(!new), T(!new)>(P: Program<O, T>) {
    forall s, a, b | !P.dep(a, b) && P.Ready(s, a) && P.Ready(s, b) :: P.enabled(P.apply(s, a), b)
  }

  /** Transitions of two threads that are ready together are co-enabled. */
  ghost predicate LawfulCoenabled<O(!new), T(!new)>(P: Program<O, T>) {
    forall s, a, b | P.tid(a) != P.tid(b) && P.Ready(s, a) && P.Ready(s, b) :: P.coen(a, b)
  }

  // ----- steps and prefixes ---------------------------------------------

  lemma {:induction false} ExecPrefix<O(!new), T(!new)>(W: World<O, T>, run: seq<T>, k: nat)
    requires W.Exec(run) && k <= |run|
    ensures W.Exec(run[..k])
    ensures k < |run| ==> run[k] == W.pending(run[..k], W.program.tid(run[k])) && W.program.Ready(W.After(run[..k]), run[k])
  {
    if k == |run| {
      assert run[..k] == run;
    } else {
      var n := |run| - 1;
      assert k < n ==> run[..n][..k] == run[..k];
      if k < n {
        ExecPrefix(W, run[..n], k);
      }
    }
  }

  lemma ExecStep<O(!new), T(!new)>(W: World<O, T>, run: seq<T>, x: T)
    ensures W.Exec(run + [x]) <==>
              W.Exec(run) && x == W.pending(run, W.program.tid(x)) && W.program.Ready(W.After(run), x)
    ensures W.After(run + [x]) == W.program.apply(W.After(run), x)
  {
    assert (run + [x])[..|run|] == run;
  }

  /** An enabled thread can be run. */
  lemma ExecRuns<O(!new), T(!new)>(W: World<O, T>, run: seq<T>, p: Tid)
    requires W.Deterministic() && W.Exec(run) && W.CanRun(run, p)
    ensures W.Exec(run + [W.pending(run, p)])
  {
    hide World.Exec;
    ExecStep(W, run, W.pending(run, p));
  }

  // ----- exchanging steps -----------------------------------------------

  lemma SwapTop<O(!new), T(!new)>(W: World<O, T>, u: seq<T>, x: T, y: T)
    requires W.Lawful() && !W.program.dep(x, y) && W.Exec(u + [x] + [y])
    ensures W.Exec(u + [y] + [x]) && W.After(u + [y] + [x]) == W.After(u + [x] + [y])
  {
    hide World.Exec, World.After;
    var P := W.program;
    assert P.tid(x) != P.tid(y);
    ExecStep(W, u + [x], y);
    ExecStep(W, u, x);
    ExecStep(W, u, y);
    ExecStep(W, u + [y], x);
    assert P.Exchanges(W.After(u), x, y);
  }

  /** Exchanging two adjacent independent steps keeps an execution, what is
      pending after it, and the objects. */
  lemma {:induction false} Swap<O(!new), T(!new)>(W: World<O, T>, u: seq<T>, x: T, y: T, v: seq<T>)
    requires W.Lawful() && !W.program.dep(x, y) && W.Exec(u + [x] + [y] + v)
    ensures W.Exec(u + [y] + [x] + v) && W.After(u + [y] + [x] + v) == W.After(u + [x] + [y] + v)
    ensures forall p :: W.pending(u + [y] + [x] + v, p) == W.pending(u + [x] + [y] + v, p)
    decreases |v|
  {
    hide World.Exec, World.After;
    var a, b := u + [x] + [y], u + [y] + [x];
    if v == [] {
      assert a + v == a && b + v == b;
      SwapTop(W, u, x, y);
    } else {
      var v', z := v[..|v| - 1], v[|v| - 1];
      assert a + v == a + v' + [z] && b + v == b + v' + [z];
      ExecStep(W, a + v', z);
      Swap(W, u, x, y, v');
      ExecStep(W, b + v', z);
    }
  }

  ghost predicate Independent<O(!new), T(!new)>(P: Program<O, T>, x: T, w: seq<T>) {
    forall i | 0 <= i < |w| :: !P.dep(w[i], x)
  }

  /** A step independent of those before it can be taken first. */
  lemma {:induction false} MoveFront<O(!new), T(!new)>(W: World<O, T>, u: seq<T>, a: seq<T>, x: T, v: seq<T>)
    requires W.Lawful() && Independent(W.program, x, a) && W.Exec(u + a + [x] + v)
    ensures W.Exec(u + [x] + a + v) && W.After(u + [x] + a + v) == W.After(u + a + [x] + v)
    ensures forall p :: W.pending(u + [x] + a + v, p) == W.pending(u + a + [x] + v, p)
    decreases |a|
  {
    hide World.Exec, World.After, World.Lawful;
    if a == [] {
      assert u + a + [x] + v == u + [x] + a + v;
    } else {
      var a', y := a[..|a| - 1], a[|a| - 1];
      assert u + a + [x] + v == (u + a') + [y] + [x] + v;
      Swap(W, u + a', y, x, v);
      assert (u + a') + [x] + [y] + v == u + a' + [x] + ([y] + v);
      MoveFront(W, u, a', x, [y] + v);
      assert u + [x] + a' + ([y] + v) == u + [x] + a + v;
    }
  }

  /** And one independent of those after it can be taken last. */
  lemma {:induction false} MoveBack<O(!new), T(!new)>(W: World<O, T>, u: seq<T>, x: T, a: seq<T>)
    requires W.Lawful() && Independent(W.program, x, a) && W.Exec(u + [x] + a)
    ensures W.Exec(u + a + [x]) && W.After(u + a + [x]) == W.After(u + [x] + a)
    ensures forall p :: W.pending(u + a + [x], p) == W.pending(u + [x] + a, p)
    decreases |a|
  {
    hide World.Exec, World.After;
    if a == [] {
      assert u + a + [x] == u + [x] + a;
    } else {
      var y, a' := a[0], a[1..];
      assert u + [x] + a == u + [x] + [y] + a';
      assert !W.program.dep(x, y);
      Swap(W, u, x, y, a');
      assert u + [y] + [x] + a' == (u + [y]) + [x] + a';
      MoveBack(W, u + [y], x, a');
      assert u + a + [x] == (u + [y]) + a' + [x];
    }
  }

  /** A thread that does not run keeps its pending transition. */
  lemma {:induction false} PendingKept<O(!new), T(!new)>(W: World<O, T>, u: seq<T>, w: seq<T>, q: Tid)
    requires W.Deterministic() && forall i | 0 <= i < |w| :: W.program.tid(w[i]) != q
    ensures W.pending(u + w, q) == W.pending(u, q)
    decreases |w|
  {
    hide World.Exec;
    if w == [] {
      assert u + w == u;
    } else {
      assert u + w == (u + w[..|w| - 1]) + [w[|w| - 1]];
      PendingKept(W, u, w[..|w| - 1], q);
    }
  }

  /** An enabled transition stays enabled through steps independent of it. */
  lemma {:induction false} Persists<O(!new), T(!new)>(W: World<O, T>, u: seq<T>, w: seq<T>, q: Tid)
    requires W.Lawful() && W.Exec(u + w) && W.CanRun(u, q) && Independent(W.program, W.pending(u, q), w)
    ensures W.pending(u + w, q) == W.pending(u, q) && W.CanRun(u + w, q)
    ensures W.Exec(u + w + [W.pending(u, q)])
    decreases |w|
  {
    hide World.Exec, World.After;
    var P, x := W.program, W.pending(u, q);
    forall i | 0 <= i < |w|
      ensures P.tid(w[i]) != q
    {
      assert !P.dep(w[i], x);
    }
    PendingKept(W, u, w, q);
    if w == [] {
      assert u + w == u;
    } else {
      var w', y := w[..|w| - 1], w[|w| - 1];
      assert u + w == u + w' + [y];
      ExecStep(W, u + w', y);
      Persists(W, u, w', q);
      ExecStep(W, u + w', x);
      assert P.enabled(P.apply(W.After(u + w'), y), x);
    }
    ExecRuns(W, u + w, q);
  }

  /** So it can be taken first, and the rest still follows. */
  lemma TakeFirst<O(!new), T(!new)>(W: World<O, T>, u: seq<T>, w: seq<T>, q: Tid)
    requires W.Lawful() && W.Exec(u + w) && W.CanRun(u, q) && Independent(W.program, W.pending(u, q), w)
    ensures W.Exec(u + [W.pending(u, q)] + w)
    ensures forall p | p != q :: W.pending(u + [W.pending(u, q)] + w, p) == W.pending(u + w, p)
  {
    hide World.Exec, World.After;
    var x := W.pending(u, q);
    Persists(W, u, w, q);
    assert u + w + [x] + [] == u + w + [x];
    MoveFront(W, u, w, x, []);
    assert u + [x] + w + [] == u + [x] + w;
  }

  // ----- initials -------------------------------------------------------

  /** w[i] depends on nothing before it in w. */
  ghost predicate FirstAt<O(!new), T(!new)>(P: Program<O, T>, w: seq<T>, i: nat)
    requires i < |w|
  {
    Independent(P, w[i], w[..i])
  }

  /** Thread q can take the first step of some reordering of w. */
  ghost predicate Initial<O(!new), T(!new)>(P: Program<O, T>, w: seq<T>, q: Tid) {
    exists i: nat :: i < |w| && P.tid(w[i]) == q && FirstAt(P, w, i)
  }

  /** Its step is the one it is about to take. */
  lemma FirstIsPending<O(!new), T(!new)>(W: World<O, T>, u: seq<T>, w: seq<T>, i: nat)
    requires W.Lawful() && W.Exec(u + w) && i < |w| && forall j | 0 <= j < i :: W.program.tid(w[j]) != W.program.tid(w[i])
    ensures w[i] == W.pending(u, W.program.tid(w[i]))
  {
    hide World.Exec, World.After;
    assert (u + w)[..|u| + i] == u + w[..i] && (u + w)[|u| + i] == w[i];
    ExecPrefix(W, u + w, |u| + i);
    PendingKept(W, u, w[..i], W.program.tid(w[i]));
  }

  ghost function Drop<T>(w: seq<T>, i: nat): (r: seq<T>)
    requires i < |w|
    ensures |r| == |w| - 1
    ensures forall x | x in r :: x in w
    ensures forall j | 0 <= j < |r| :: r[j] == w[if j < i then j else j + 1]
  {
    w[..i] + w[i + 1..]
  }

  /** Taking an initial step first. */
  lemma TakeInitial<O(!new), T(!new)>(W: World<O, T>, u: seq<T>, w: seq<T>, i: nat)
    requires W.Lawful() && W.Exec(u + w) && i < |w| && FirstAt(W.program, w, i)
    ensures w[i] == W.pending(u, W.program.tid(w[i])) && W.CanRun(u, W.program.tid(w[i]))
    ensures W.Exec(u + [w[i]] + Drop(w, i)) && W.After(u + [w[i]] + Drop(w, i)) == W.After(u + w)
    ensures forall p :: W.pending(u + [w[i]] + Drop(w, i), p) == W.pending(u + w, p)
  {
    hide World.Exec, World.After;
    var a, x, v := w[..i], w[i], w[i + 1..];
    assert u + w == u + a + [x] + v;
    MoveFront(W, u, a, x, v);
    assert u + [x] + a + v == u + [x] + Drop(w, i);
    assert (u + [x] + Drop(w, i))[..|u| + 1] == u + [x];
    ExecPrefix(W, u + [x] + Drop(w, i), |u| + 1);
    ExecStep(W, u, x);
  }

  /** What is initial in the rest, and independent of what was taken, was
      initial before. */
  lemma InitialOfRest<O(!new), T(!new)>(P: Program<O, T>, w: seq<T>, i: nat, q: Tid, j: nat)
    requires P.LawfulRelation() && i < |w| && FirstAt(P, w, i) && j < |w| - 1
    requires P.tid(Drop(w, i)[j]) == q && FirstAt(P, Drop(w, i), j) && !P.dep(Drop(w, i)[j], w[i])
    ensures Initial(P, w, q)
  {
    var l := if j < i then j else j + 1;
    forall h | 0 <= h < l
      ensures !P.dep(w[..l][h], w[l])
    {
      if h < i {
        assert Drop(w, i)[..j][h] == w[h];
      } else if h > i {
        assert Drop(w, i)[..j][h - 1] == w[h];
      }
    }
    assert FirstAt(P, w, l);
  }

  // ----- cones ----------------------------------------------------------

  /** Everything in w leads, by dependence, to its last step, which is r's. */
  ghost predicate IsCone<O(!new), T(!new)>(P: Program<O, T>, w: seq<T>, r: Tid) {
    w != [] ==>
      && P.tid(w[|w| - 1]) == r
      && forall i: nat | i < |w| - 1 :: LeadsOn(P, w, i)
  }

  ghost predicate LeadsOn<O(!new), T(!new)>(P: Program<O, T>, w: seq<T>, i: nat)
    requires i < |w|
  {
    exists j: nat :: i < j < |w| && P.dep(w[i], w[j])
  }

  /** Taking an initial step out of a cone leaves a cone. */
  lemma ConeOfRest<O(!new), T(!new)>(P: Program<O, T>, w: seq<T>, r: Tid, i: nat)
    requires P.LawfulRelation() && IsCone(P, w, r) && i < |w| && FirstAt(P, w, i)
    ensures IsCone(P, Drop(w, i), r)
    ensures i == |w| - 1 ==> Drop(w, i) == []
  {
    var n, rest := |w| - 1, Drop(w, i);
    assert n > 0 ==> LeadsOn(P, w, n - 1) && w[..n][n - 1] == w[n - 1];
    forall j: nat | j < |rest| - 1
      ensures LeadsOn(P, rest, j)
    {
      var l := if j < i then j else j + 1;
      assert LeadsOn(P, w, l);
      assert l < i ==> w[..i][l] == w[l];
      var h: nat :| l < h < |w| && P.dep(w[l], w[h]);
      assert rest[if h < i then h else h - 1] == w[h];
    }
  }

  /** k is part of w: it runs on its own, and leaves r with the same pending
      transition. */
  ghost predicate ConeOf<O(!new), T(!new)>(W: World<O, T>, u: seq<T>, w: seq<T>, r: Tid, k: seq<T>) {
    && W.Exec(u + k) && IsCone(W.program, k, r) && W.pending(u + k, r) == W.pending(u + w, r)
    && (forall x | x in k :: x in w)
    && (forall q | Initial(W.program, k, q) :: Initial(W.program, w, q))
  }

  lemma InitialWithout<O(!new), T(!new)>(P: Program<O, T>, a: seq<T>, x: T, k: seq<T>, q: Tid)
    requires Independent(P, x, k) && P.LawfulRelation() && Initial(P, a + k, q)
    ensures Initial(P, a + [x] + k, q)
  {
    hide Independent;
    var i: nat :| i < |a + k| && P.tid((a + k)[i]) == q && FirstAt(P, a + k, i);
    var w, l := a + [x] + k, if i < |a| then i else i + 1;
    assert w[l] == (a + k)[i];
    if i < |a| {
      assert w[..l] == (a + k)[..i];
    } else {
      var j := i - |a|;
      assert w[..l] == a + [x] + k[..j] && (a + k)[..i] == a + k[..j] && w[l] == k[j];
      IndependentOfMore(P, k[j], a, x, k[..j], k, j);
    }
    assert FirstAt(P, w, l);
  }

  lemma IndependentOfMore<O(!new), T(!new)>(P: Program<O, T>, y: T, a: seq<T>, x: T, b: seq<T>, k: seq<T>, j: nat)
    requires P.LawfulRelation() && j < |k| && y == k[j] && Independent(P, x, k) && Independent(P, y, a + b)
    ensures Independent(P, y, a + [x] + b)
  {
    var w := a + [x] + b;
    forall i | 0 <= i < |w|
      ensures !P.dep(w[i], y)
    {
      if i < |a| {
        assert w[i] == (a + b)[i];
      } else if i > |a| {
        assert w[i] == (a + b)[i - 1];
      } else {
        assert !P.dep(k[j], x);
      }
    }
  }

  /** Every execution holds the cone of its last step by r. */
  lemma {:induction false} ConeExists<O(!new), T(!new)>(W: World<O, T>, u: seq<T>, a: seq<T>, k: seq<T>, r: Tid) returns (c: seq<T>)
    requires W.Lawful() && W.Exec(u + a + k) && IsCone(W.program, k, r)
    ensures ConeOf(W, u, a + k, r, c)
    decreases |a|
  {
    hide World.Exec, World.After;
    var P := W.program;
    if a == [] {
      assert u + a + k == u + k && a + k == k;
      c := k;
    } else {
      var a', x := a[..|a| - 1], a[|a| - 1];
      assert u + a + k == (u + a') + [x] + k && a + k == a' + ([x] + k);
      if P.tid(x) == r || !Independent(P, x, k) {
        ConeGrows(P, x, k, r);
        assert u + a' + ([x] + k) == u + a + k;
        c := ConeExists(W, u, a', [x] + k, r);
      } else {
        MoveBack(W, u + a', x, k);
        var v := u + a' + k;
        assert (u + a') + k + [x] == v + [x];
        ExecStep(W, v, x);
        c := ConeExists(W, u, a', k, r);
        assert W.pending(u + (a' + k), r) == W.pending(v, r) by { assert u + (a' + k) == v; }
        assert u + (a + k) == (u + a') + [x] + k;
        forall q | Initial(P, c, q)
          ensures Initial(P, a + k, q)
        {
          InitialWithout(P, a', x, k, q);
          assert a' + [x] + k == a + k;
        }
      }
    }
  }

  lemma ConeGrows<O(!new), T(!new)>(P: Program<O, T>, x: T, k: seq<T>, r: Tid)
    requires P.LawfulRelation() && IsCone(P, k, r) && (P.tid(x) == r || !Independent(P, x, k))
    ensures IsCone(P, [x] + k, r)
  {
    var w := [x] + k;
    forall i: nat | i < |w| - 1
      ensures LeadsOn(P, w, i)
    {
      if i > 0 {
        assert LeadsOn(P, k, i - 1);
        var j: nat :| i - 1 < j < |k| && P.dep(k[i - 1], k[j]);
        assert w[j + 1] == k[j];
      } else if P.tid(x) == r {
        assert P.dep(x, k[|k| - 1]) && w[|k|] == k[|k| - 1];
      } else {
        var j :| 0 <= j < |k| && P.dep(k[j], x);
        assert P.dep(x, k[j]) && w[j + 1] == k[j];
      }
    }
  }

  // ----- covering -------------------------------------------------------

  /** g takes the steps of w, in an order its trace allows, along with steps
      independent of what is left of w. */
  ghost predicate Covered<O(!new), T(!new)>(P: Program<O, T>, w: seq<T>, g: seq<T>)
    decreases |g|
  {
    if w == [] then g == []
    else g != [] && (TakesInitial(P, w, g) || (Independent(P, g[0], w) && Covered(P, w, g[1..])))
  }

  ghost predicate TakesInitial<O(!new), T(!new)>(P: Program<O, T>, w: seq<T>, g: seq<T>)
    requires g != []
    decreases |g|, 0
  {
    exists i: nat :: i < |w| && w[i] == g[0] && FirstAt(P, w, i) && Covered(P, Drop(w, i), g[1..])
  }

  /** g takes exactly the steps of w, in an order its trace allows. */
  ghost predicate SameTrace<O(!new), T(!new)>(P: Program<O, T>, w: seq<T>, g: seq<T>)
    decreases |g|
  {
    if w == [] then g == []
    else g != [] && exists i: nat :: i < |w| && w[i] == g[0] && FirstAt(P, w, i) && SameTrace(P, Drop(w, i), g[1..])
  }

  /** No thread can run. */
  ghost predicate Maximal<O(!new), T(!new)>(W: World<O, T>, run: seq<T>) {
    forall p :: !W.CanRun(run, p)
  }

  /** What covers an execution after which nothing can run is an execution of
      the same trace, and leads to the same objects and pending transitions. */
  lemma {:induction false} CoveredMaximal<O(!new), T(!new)>(W: World<O, T>, u: seq<T>, w: seq<T>, g: seq<T>)
    requires W.Lawful() && W.Exec(u + w) && Maximal(W, u + w) && W.Exec(u + g) && Covered(W.program, w, g)
    ensures SameTrace(W.program, w, g) && W.After(u + g) == W.After(u + w)
    ensures forall p :: W.pending(u + g, p) == W.pending(u + w, p)
    decreases |g|
  {
    hide World.Exec, World.After;
    if w != [] {
      var x, g' := g[0], g[1..];
      assert u + g == (u + [x]) + g';
      assert (u + g)[..|u|] == u && (u + g)[|u|] == x;
      ExecPrefix(W, u + g, |u|);
      if Independent(W.program, x, w) {
        Persists(W, u, w, W.program.tid(x));
        assert false;
      }
      assert TakesInitial(W.program, w, g);
      var i: nat :| i < |w| && w[i] == x && FirstAt(W.program, w, i) && Covered(W.program, Drop(w, i), g');
      TakeInitial(W, u, w, i);
      var v := (u + [x]) + Drop(w, i);
      assert u + [x] + Drop(w, i) == v;
      forall p
        ensures !W.CanRun(v, p)
      {
        assert W.pending(v, p) == W.pending(u + w, p) && !W.CanRun(u + w, p);
      }
      CoveredMaximal(W, u + [x], Drop(w, i), g');
    } else {
      assert u + w == u + g;
    }
  }
}
