/** Facts about finite sets, and the least fixed point of a step that grows a set. */
module Sets {
  /** A subset is no larger than its superset. */
  lemma {:induction false} SubsetCard<T>(a: set<T>, b: set<T>)
    requires a <= b
    ensures |a| <= |b|
    decreases |b|
  {
    if b != {} {
      var x :| x in b;
      SubsetCard(a - {x}, b - {x});
    }
  }

  /** A proper subset is strictly smaller. */
  lemma ProperSubsetCard<T>(a: set<T>, b: set<T>)
    requires a < b
    ensures |a| < |b|
  {
    assert exists x :: x in b && x !in a;
    var x :| x in b && x !in a;
    SubsetCard(a, b - {x});
  }

  /** `n` rounds of adding `step(c, s)` to `s`, from the empty set. */
  function Iterate<C, T>(step: (C, set<T>) -> set<T>, c: C, n: nat): set<T> {
    if n == 0 then {} else Iterate(step, c, n - 1) + step(c, Iterate(step, c, n - 1))
  }

  lemma {:induction false} IterateSize<C, T>(step: (C, set<T>) -> set<T>, c: C, n: nat)
    ensures Iterate(step, c, n) == Iterate(step, c, n + 1) || |Iterate(step, c, n + 1)| >= n + 1
  {
    if n > 0 {
      IterateSize(step, c, n - 1);
      if Iterate(step, c, n) != Iterate(step, c, n + 1) {
        ProperSubsetCard(Iterate(step, c, n), Iterate(step, c, n + 1));
      }
    }
  }

  lemma {:induction false} IterateWithin<C, T>(step: (C, set<T>) -> set<T>, c: C, u: set<T>, n: nat)
    requires forall s :: step(c, s) <= u
    ensures Iterate(step, c, n) <= u
  {
    if n > 0 {
      IterateWithin(step, c, u, n - 1);
    }
  }

  /** When every step stays inside `u`, `|u|` rounds reach a set the step no longer grows. */
  lemma IterateClosed<C, T>(step: (C, set<T>) -> set<T>, c: C, u: set<T>)
    requires forall s :: step(c, s) <= u
    ensures step(c, Iterate(step, c, |u|)) <= Iterate(step, c, |u|)
  {
    IterateSize(step, c, |u|);
    IterateWithin(step, c, u, |u| + 1);
    if Iterate(step, c, |u|) != Iterate(step, c, |u| + 1) {
      SubsetCard(Iterate(step, c, |u| + 1), u);
    }
  }

  /** For a monotone step, every round stays inside any set the step does not grow. */
  lemma {:induction false} IterateLeast<C, T>(step: (C, set<T>) -> set<T>, c: C, s: set<T>, n: nat)
    requires forall a, b :: a <= b ==> step(c, a) <= step(c, b)
    requires step(c, s) <= s
    ensures Iterate(step, c, n) <= s
  {
    if n > 0 {
      IterateLeast(step, c, s, n - 1);
    }
  }
}
