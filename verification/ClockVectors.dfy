/** Clock vectors: lazy maps from thread ids to transition indices. A thread
    that is not mapped reads as 0. */
module ClockVectors {

  type Tid = nat

  type ClockVector = map<Tid, nat>

  function ValueFor(cv: ClockVector, t: Tid): nat {
    if t in cv then cv[t] else 0
  }

  /** The greater of the two values for a thread. */
  function Larger(a: ClockVector, b: ClockVector, t: Tid): nat {
    if ValueFor(a, t) < ValueFor(b, t) then ValueFor(b, t) else ValueFor(a, t)
  }

  /** The pointwise maximum, with missing components read as 0. */
  function Join(a: ClockVector, b: ClockVector): ClockVector {
    map t | t in a.Keys + b.Keys :: Larger(a, b, t)
  }

  ghost predicate Below(a: ClockVector, b: ClockVector) {
    forall t: Tid :: ValueFor(a, t) <= ValueFor(b, t)
  }

  /** Join is the least upper bound of its arguments in the componentwise
      order, and it invents no component. */
  lemma JoinIsLeastUpperBound(a: ClockVector, b: ClockVector, c: ClockVector)
    ensures Below(a, Join(a, b)) && Below(b, Join(a, b))
    ensures Below(a, c) && Below(b, c) ==> Below(Join(a, b), c)
    ensures forall t: Tid :: ValueFor(Join(a, b), t) == ValueFor(a, t) || ValueFor(Join(a, b), t) == ValueFor(b, t)
    ensures Join(a, b).Keys == a.Keys + b.Keys
  {
    forall t: Tid
      ensures ValueFor(Join(a, b), t) == Larger(a, b, t)
    {
    }
  }

  /** The two loops of the original: first over the components of one vector,
      then over those of the other, each writing into a fresh map. */
  method Max(a: ClockVector, b: ClockVector) returns (r: ClockVector)
    ensures r == Join(a, b)
  {
    r := map[];
    var todo := a.Keys;
    while todo != {}
      invariant todo <= a.Keys
      invariant r.Keys == a.Keys - todo
      invariant forall t | t in r :: r[t] == Larger(a, b, t)
      decreases todo
    {
      var t :| t in todo;
      var other := ValueFor(b, t);
      r := r[t := if a[t] < other then other else a[t]];
      todo := todo - {t};
    }
    todo := b.Keys;
    while todo != {}
      invariant todo <= b.Keys
      invariant r.Keys == a.Keys + (b.Keys - todo)
      invariant forall t | t in r :: r[t] == Larger(a, b, t)
      decreases todo
    {
      var t :| t in todo;
      var other := ValueFor(a, t);
      r := r[t := if b[t] < other then other else b[t]];
      todo := todo - {t};
    }
  }
}
