/** Products and remainders with a variable modulus. */
module Arithmetic {
  /** A product with a nonzero factor is at least as large as the other factor. */
  lemma Spread(m: int, q: int)
    requires m >= 0
    ensures q <= -1 ==> m * q <= -m
    ensures q >= 1 ==> m * q >= m
  {
    if q >= 1 {
      assert m * q == m + m * (q - 1);
    } else if q <= -1 {
      assert m * q == -m + m * (q + 1);
    }
  }

  /** Quotient and remainder are determined by being them. */
  lemma Division(x: nat, m: nat, q: nat, r: nat)
    requires r < m && x == m * q + r
    ensures x % m == r && x / m == q
  {
    var k := x / m - q;
    assert m * k == r - x % m;
    Spread(m, k);
  }

  /** How the remainder of a counter moves. */
  lemma NextRemainder(n: nat, m: nat)
    requires m > 0
    ensures (n + 1) % m == if n % m + 1 == m then 0 else n % m + 1
  {
    var q, r := n / m, n % m;
    if r + 1 == m {
      assert n + 1 == m * (q + 1) + 0;
      Division(n + 1, m, q + 1, 0);
    } else {
      Division(n + 1, m, q, r + 1);
    }
  }

  lemma MultipleDivides(m: nat, k: nat)
    requires m > 0
    ensures m * k % m == 0
  {
    Division(m * k, m, k, 0);
  }

  /** Numbers less than a modulus apart have different remainders. */
  lemma NearbyDiffer(low: nat, age: nat, m: nat)
    requires age < m && (low + age) % m == low % m
    ensures age == 0
  {
    var k := (low + age) / m - low / m;
    assert m * k == age;
    Spread(m, k);
  }
}
