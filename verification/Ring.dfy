/** Positions in a ring of n entries. */
module Ring {

  /** A pointer advanced in a ring of n entries. The sources mask with n - 1, n being a power of two. */
  function Advance(at: nat, k: nat, n: nat): (r: nat)
    requires at < n && k <= n
    ensures r < n
  {
    if at + k < n then at + k else at + k - n
  }

  lemma AdvanceIsModulo(at: nat, k: nat, n: nat)
    requires at < n && k <= n
    ensures Advance(at, k, n) == (at + k) % n
  {
    if at + k < n {
      DivUnique(at + k, n, 0, at + k);
    } else {
      DivUnique(at + k, n, 1, at + k - n);
    }
  }

  lemma DivUnique(a: int, n: int, q: int, r: int)
    requires 0 <= r < n && a == n * q + r
    ensures a % n == r
  {
    var d := q - a / n;
    assert n * d == a % n - r;
    if d >= 1 {
      AtLeast(n, d);
      assert false;
    } else if d <= -1 {
      AtLeast(n, -d);
      assert false;
    }
  }

  lemma AtLeast(n: int, d: int)
    requires n > 0 && d >= 1
    ensures n * d >= n && n * -d == -(n * d)
  {
  }

  lemma AdvanceAdd(at: nat, a: nat, b: nat, n: nat)
    requires at < n && a + b <= n
    ensures Advance(Advance(at, a, n), b, n) == Advance(at, a + b, n)
  {
  }
}
