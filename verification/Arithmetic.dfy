/** Facts about division which the verifier does not find by itself. */
module Arithmetic {
  lemma {:induction false} MultipleAtLeast(n: nat, a: nat)
    requires 0 < a
    ensures n * a >= n
  {
    if a > 1 {
      MultipleAtLeast(n, a - 1);
      assert n * a == n * (a - 1) + n;
    }
  }

  /** Division with remainder is unique. */
  lemma RemainderIs(k: nat, n: nat, q: nat, r: nat)
    requires n > 0 && k == n * q + r && r < n
    ensures k % n == r
  {
    var q', r' := k / n, k % n;
    assert k == n * q' + r';
    if q > q' {
      MultipleAtLeast(n, q - q');
    } else if q < q' {
      MultipleAtLeast(n, q' - q);
    }
  }
}
