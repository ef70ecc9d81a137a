/** Facts about Euclidean division that the cyclic slideshow index needs. */
module Modular {

  /** Division by n is unique: any decomposition x == q * n + r with 0 <= r < n is the one `/` and `%` give. */
  lemma DivModUnique(x: int, q: int, r: int, n: int)
    requires 0 < n && 0 <= r < n
    requires x == q * n + r
    ensures x / n == q && x % n == r
  {
    var e := q - x / n;
    assert e * n == x % n - r by {
      assert x == (x / n) * n + x % n;
    }
  }

  /** Reducing the left operand first does not change a sum's remainder. */
  lemma ModOfModPlus(a: nat, b: nat, n: nat)
    requires 0 < n
    ensures (a % n + b) % n == (a + b) % n
  {
    var y := a % n + b;
    assert a == (a / n) * n + a % n;
    assert y == (y / n) * n + y % n;
    assert a + b == (a / n + y / n) * n + y % n;
    DivModUnique(a + b, a / n + y / n, y % n, n);
  }

  /** Two offsets less than n apart land on different remainders. */
  lemma ModDistinct(c: nat, j1: nat, j2: nat, n: nat)
    requires 0 < n && j1 < j2 < n
    ensures (c + j1) % n != (c + j2) % n
  {
    var x := c + j1;
    var q, r := x / n, x % n;
    var d := j2 - j1;
    assert x == q * n + r;
    if r + d < n {
      DivModUnique(c + j2, q, r + d, n);
    } else {
      assert c + j2 == (q + 1) * n + (r + d - n);
      DivModUnique(c + j2, q + 1, r + d - n, n);
    }
  }

  /** Every remainder below n is reached by some offset below n. */
  lemma ModCovers(c: nat, t: nat, n: nat) returns (j: nat)
    requires 0 < n && t < n
    ensures j < n && (c + j) % n == t
  {
    var q, r := c / n, c % n;
    assert c == q * n + r;
    if r <= t {
      j := t - r;
      DivModUnique(c + j, q, t, n);
    } else {
      j := t - r + n;
      assert c + j == (q + 1) * n + t;
      DivModUnique(c + j, q + 1, t, n);
    }
  }
}
