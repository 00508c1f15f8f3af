/**
 Facts about `%` on naturals that the slot arithmetic `seq % N` relies on.
 */
module Residues {

  lemma {:induction false} MulAtLeast(d: nat, n: nat)
    requires d >= 1
    ensures d * n >= n
  {
    if d > 1 {
      MulAtLeast(d - 1, n);
      assert d * n == (d - 1) * n + n;
    }
  }

  /** Quotient and remainder are unique. */
  lemma ModUnique(a: int, n: int, q: int, r: int)
    requires n > 0 && 0 <= r < n && a == q * n + r
    ensures a % n == r
  {
    var q' := a / n;
    var r' := a % n;
    assert a == q' * n + r';
    assert (q - q') * n == r' - r;
    if q > q' {
      MulAtLeast(q - q', n);
    } else if q < q' {
      MulAtLeast(q' - q, n);
    }
  }

  /** `(s + 1) % n` is the residue after `s % n`. */
  lemma SuccessorResidue(s: nat, n: nat)
    requires n > 0
    ensures (s + 1) % n == (s % n + 1) % n
  {
    var q := s / n;
    assert s == q * n + s % n;
    if s % n + 1 < n {
      ModUnique(s + 1, n, q, s % n + 1);
      ModUnique(s % n + 1, n, 0, s % n + 1);
    } else {
      assert s + 1 == (q + 1) * n;
      ModUnique(s + 1, n, q + 1, 0);
      ModUnique(s % n + 1, n, 1, 0);
    }
  }

  /** Adding `n` keeps the residue. */
  lemma ResidueShift(s: nat, n: nat)
    requires n > 0
    ensures (s + n) % n == s % n
  {
    var q := s / n;
    assert s == q * n + s % n;
    assert s + n == (q + 1) * n + s % n;
    ModUnique(s + n, n, q + 1, s % n);
  }

  /** Two distinct numbers with the same residue are at least `n` apart. */
  lemma ResidueGap(a: nat, b: nat, n: nat)
    requires n > 0 && a % n == b % n && a < b
    ensures a + n <= b
  {
    var qa := a / n;
    var qb := b / n;
    assert a == qa * n + a % n;
    assert b == qb * n + b % n;
    assert b - a == (qb - qa) * n;
    if qb - qa < 1 {
      assert (qa - qb) * n >= 0 by {
        if qa - qb >= 1 { MulAtLeast(qa - qb, n); }
      }
    } else {
      MulAtLeast(qb - qa, n);
    }
  }

  /** Within any window of `n` consecutive numbers, a residue occurs once. */
  lemma ResidueUniqueInWindow(lo: nat, a: nat, b: nat, n: nat)
    requires n > 0 && a % n == b % n
    requires lo <= a < lo + n && lo <= b < lo + n
    ensures a == b
  {
    if a < b {
      ResidueGap(a, b, n);
    } else if b < a {
      ResidueGap(b, a, n);
    }
  }
}
