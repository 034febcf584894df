/** Sums of a weight over the first n numbers. */
module Sums {

  function Sum(n: nat, f: nat -> nat): nat {
    if n == 0 then 0 else Sum(n - 1, f) + f(n - 1)
  }

  lemma {:induction false} SumMono(n: nat, f: nat -> nat, g: nat -> nat)
    requires forall k: nat | k < n :: f(k) <= g(k)
    ensures Sum(n, f) <= Sum(n, g)
  {
    if n > 0 { SumMono(n - 1, f, g); }
  }

  /** Lowering one weight by `drop`, and raising none. */
  lemma {:induction false} SumDrop(n: nat, f: nat -> nat, g: nat -> nat, i: nat, drop: nat)
    requires i < n && f(i) + drop <= g(i)
    requires forall k: nat | k < n && k != i :: f(k) <= g(k)
    ensures Sum(n, f) + drop <= Sum(n, g)
  {
    if i == n - 1 { SumMono(n - 1, f, g); } else { SumDrop(n - 1, f, g, i, drop); }
  }

  /** Changing one weight. */
  lemma {:induction false} SumChange(n: nat, f: nat -> nat, g: nat -> nat, i: nat)
    requires i < n
    requires forall k: nat | k < n && k != i :: f(k) == g(k)
    ensures Sum(n, f) + g(i) == Sum(n, g) + f(i)
  {
    if i == n - 1 { SumMono(n - 1, f, g); SumMono(n - 1, g, f); } else { SumChange(n - 1, f, g, i); }
  }

  lemma OneMore(cap: nat, k: int)
    ensures cap * k == cap * (k - 1) + cap
  {
  }

  lemma {:induction false} SumTail(n: nat, m: nat, f: nat -> nat, cap: nat)
    requires n <= m && forall k: nat | n <= k < m :: f(k) <= cap
    ensures Sum(m, f) <= Sum(n, f) + cap * (m - n)
    decreases m - n
  {
    if n < m {
      SumTail(n, m - 1, f, cap);
      OneMore(cap, m - n);
    }
  }
}
