/** Facts about integer remainder used by the index and step arithmetic. */
module Arith {
  /** Quotient and remainder are unique. */
  lemma ModUnique(n: nat, dv: nat, k: nat, r: nat)
    requires dv > 0 && r < dv && n == dv * k + r
    ensures n % dv == r
  {
    var k0 := n / dv;
    var r0 := n % dv;
    assert n == dv * k0 + r0;
    if k0 < k {
      MulStep(dv, k0, k);
      assert false;
    } else if k0 > k {
      MulStep(dv, k, k0);
      assert false;
    }
  }

  lemma {:induction false} MulStep(dv: nat, a: nat, b: nat)
    requires a < b
    ensures dv * a + dv <= dv * b
    decreases b - a
  {
    assert dv * b == dv * (b - 1) + dv;
    if a < b - 1 {
      MulStep(dv, a, b - 1);
    }
  }

  /** Python's and Dafny's `-1 % n` are both the last residue. */
  lemma ModOfMinusOne(n: int)
    requires n > 0
    ensures (-1) % n == n - 1
  {
    var q := (-1) / n;
    if q > 0 {
      assert false;
    } else if q <= -2 {
      assert false;
    }
  }

  /** Taking the remainder before or after adding one gives the same residue. */
  lemma ModSucc(a: nat, n: nat)
    requires n > 0
    ensures ((a % n) + 1) % n == (a + 1) % n
  {
    var q := a / n;
    var m := a % n;
    assert a == n * q + m;
    if m + 1 < n {
      ModUnique(m + 1, n, 0, m + 1);
      ModUnique(a + 1, n, q, m + 1);
    } else {
      ModUnique(m + 1, n, 1, 0);
      assert a + 1 == n * (q + 1);
      ModUnique(a + 1, n, q + 1, 0);
    }
  }
}
