/** Residues modulo a variable number. */
module Residues {

  lemma MulAtLeast(d: int, n: int)
    requires d >= 1 && n > 0
    ensures d * n >= n
  {
  }

  lemma QuotientUnique(n: int, q: int, r: int, q': int, r': int)
    requires n > 0 && 0 <= r < n && 0 <= r' < n
    requires q * n + r == q' * n + r'
    ensures q == q' && r == r'
  {
    assert (q - q') * n == q * n - q' * n == -((q' - q) * n);
    if q > q' {
      MulAtLeast(q - q', n);
    } else if q' > q {
      MulAtLeast(q' - q, n);
    }
  }

  // The residue of r modulo n, for r near 0.
  function Wrap(r: int, n: int): int {
    if r < 0 then r + n else r
  }

  lemma ModNear(a: int, n: int, q: int, r: int)
    requires n > 0 && -n <= r < n && a == q * n + r
    ensures a % n == Wrap(r, n)
  {
    if r >= 0 {
      QuotientUnique(n, q, r, a / n, a % n);
    } else {
      assert (q - 1) * n == q * n - n;
      QuotientUnique(n, q - 1, r + n, a / n, a % n);
    }
  }
}
