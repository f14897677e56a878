/** What several components share. */
module Common {
  datatype Option<+T> = None | Some(value: T)

  // One past the largest 32-bit unsigned number.
  const U32: nat := 0x1_0000_0000

  // Division with remainder is unique.
  lemma Residue(x: int, q: int, r: nat, n: nat)
    requires n > 0 && x == q * n + r && r < n
    ensures x % n == r
  {
    var d := x / n - q;
    assert x == (x / n) * n + x % n;
    assert d * n == r - x % n;
    Stride(d, n);
  }

  lemma Stride(d: int, n: nat)
    ensures d >= 1 ==> d * n >= n
    ensures d <= -1 ==> d * n + n <= 0
  {
  }

  lemma AddMultiple(q: int, x: int, n: nat)
    requires n > 0
    ensures (q * n + x) % n == x % n
  {
    assert q * n + x == (q + x / n) * n + x % n;
    Residue(q * n + x, q + x / n, x % n, n);
  }
}
