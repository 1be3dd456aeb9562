/** Sums of weights over a table numbered below a bound. */
module Sums {

  ghost function Sum<V(!new)>(m: map<nat, V>, n: nat, w: V -> int): int {
    if n == 0 then 0 else Sum(m, n - 1, w) + At(m, n - 1, w)
  }

  ghost function At<V(!new)>(m: map<nat, V>, i: nat, w: V -> int): int {
    if i in m then w(m[i]) else 0
  }

  lemma {:induction false} SameWeights<V(!new)>(m: map<nat, V>, m': map<nat, V>, n: nat, w: V -> int)
    requires forall i: nat | i < n :: At(m, i, w) == At(m', i, w)
    ensures Sum(m, n, w) == Sum(m', n, w)
  {
    if n > 0 { SameWeights(m, m', n - 1, w); }
  }

  /** Changing one entry moves the sum by the difference of its weights. */
  lemma {:induction false} OneChange<V(!new)>(m: map<nat, V>, m': map<nat, V>, n: nat, k: nat, w: V -> int)
    requires k < n && forall i: nat | i < n && i != k :: At(m, i, w) == At(m', i, w)
    ensures Sum(m', n, w) == Sum(m, n, w) - At(m, k, w) + At(m', k, w)
  {
    if k == n - 1 { SameWeights(m, m', n - 1, w); } else { OneChange(m, m', n - 1, k, w); }
  }

  /** With weights that are never negative, the sum bounds each of them. */
  lemma {:induction false} SumCovers<V(!new)>(m: map<nat, V>, n: nat, w: V -> int)
    requires forall i: nat | i < n :: 0 <= At(m, i, w)
    ensures 0 <= Sum(m, n, w)
    ensures forall i: nat | i < n :: At(m, i, w) <= Sum(m, n, w)
  {
    if n > 0 { SumCovers(m, n - 1, w); }
  }
}
