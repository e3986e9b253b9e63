/** Counting in cycles: wrapping counters, and remainders of the next step and of a whole number of cycles later. */
module Cycles {
  /** Counters of type `unsigned int` wrap here. */
  const UINT_RANGE := 0x1_0000_0000

  lemma ModOf(q: nat, r: nat, p: nat)
    requires r < p
    ensures (q * p + r) % p == r
  {
    var n := q * p + r;
    var d, m := n / p - q, n % p;
    assert d * p == r - m;
    assert d >= 1 ==> d * p >= p;
    assert d <= -1 ==> d * p <= 0 - p;
  }

  lemma NextPhase(k: nat, p: nat)
    requires p > 0
    ensures (k + 1) % p == if k % p + 1 == p then 0 else k % p + 1
  {
    var q, r := k / p, k % p;
    assert k == q * p + r;
    if r + 1 == p {
      assert k + 1 == (q + 1) * p;
      ModOf(q + 1, 0, p);
    } else {
      ModOf(q, r + 1, p);
    }
  }

  lemma AddPeriods(k: nat, n: nat, p: nat)
    requires p > 0 && n % p == 0
    ensures (k + n) % p == k % p
  {
    assert k + n == (k / p + n / p) * p + k % p;
    ModOf(k / p + n / p, k % p, p);
  }
}
