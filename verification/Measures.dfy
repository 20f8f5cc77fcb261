/** What the proofs of progress share: sums over all threads, and the first step of an infinite run. */
module Measures {
  ghost function Sum(weights: map<nat, nat>): nat
    decreases |weights|
  {
    if weights == map[] then 0
    else
      var t :| t in weights;
      weights[t] + Sum(weights - {t})
  }

  lemma {:induction false} SumSplit(weights: map<nat, nat>, t: nat)
    requires t in weights
    ensures Sum(weights) == weights[t] + Sum(weights - {t})
    decreases |weights|
  {
    var u :| u in weights && Sum(weights) == weights[u] + Sum(weights - {u});
    if u != t {
      SumSplit(weights - {u}, t);
      SumSplit(weights - {t}, u);
      assert weights - {u} - {t} == weights - {t} - {u};
    }
  }

  /** If no weight rises, the sum does not, and if one falls, the sum falls. */
  lemma {:induction false} SumMonotone(weights: map<nat, nat>, weights': map<nat, nat>)
    requires weights'.Keys <= weights.Keys
    requires forall t :: t in weights' ==> weights'[t] <= weights[t]
    ensures Sum(weights') <= Sum(weights)
    decreases |weights|
  {
    if weights != map[] {
      var t :| t in weights;
      SumSplit(weights, t);
      SumMonotone(weights - {t}, weights' - {t});
      if t in weights' {
        SumSplit(weights', t);
      } else {
        assert weights' - {t} == weights';
      }
    }
  }

  lemma SumDecreases(weights: map<nat, nat>, weights': map<nat, nat>, t: nat)
    requires weights'.Keys <= weights.Keys
    requires forall u :: u in weights' ==> weights'[u] <= weights[u]
    requires t in weights && weights[t] > if t in weights' then weights'[t] else 0
    ensures Sum(weights') < Sum(weights)
  {
    SumSplit(weights, t);
    SumMonotone(weights - {t}, weights' - {t});
    if t in weights' {
      SumSplit(weights', t);
    } else {
      assert weights' - {t} == weights';
    }
  }

  /** Between `i` and `i + 1` the run takes a step, or nothing changes. */
  ghost predicate StillOr<T(!new)>(run: nat -> T, step: nat -> bool, i: nat) {
    run(i + 1) == run(i) || step(i)
  }

  /** Nothing changes before the first step. */
  lemma {:induction false} FirstStep<T(!new)>(run: nat -> T, step: nat -> bool, n: nat, m: nat) returns (k: nat)
    requires forall i: nat :: StillOr(run, step, i)
    requires n <= m && step(m)
    ensures n <= k && run(k) == run(n) && step(k)
    decreases m - n
  {
    assert StillOr(run, step, n);
    if step(n) {
      k := n;
    } else {
      k := FirstStep(run, step, n + 1, m);
    }
  }
}
