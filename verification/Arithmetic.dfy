/** Division with remainder, where the solver needs telling. */
module Arithmetic {

  lemma AtLeast(d: int, x: int)
    requires 0 < d && 0 < x
    ensures d <= d * x
  {
    assert 0 <= d * (x - 1);
    assert d * x == d * (x - 1) + d;
  }

  lemma {:induction false} ModUnique(n: int, d: int, k: int, r: int)
    requires 0 <= r < d && n == d * k + r
    ensures n % d == r
  {
    var k' := n / d;
    var x := k' - k;
    assert d * x == d * k' - d * k;
    if 0 < x {
      AtLeast(d, x);
    } else if x < 0 {
      AtLeast(d, -x);
    }
  }

  lemma {:induction false} DivUnique(n: int, d: int, k: int, r: int)
    requires 0 <= r < d && n == d * k + r
    ensures n / d == k
  {
    ModUnique(n, d, k, r);
    var x := n / d - k;
    assert d * x == d * (n / d) - d * k;
    if 0 < x {
      AtLeast(d, x);
    } else if x < 0 {
      AtLeast(d, -x);
    }
  }

  lemma {:induction false} DivByByte(n: int, b: int)
    requires 0 < b
    ensures n / 256 / b == n / (256 * b)
  {
    var q, r := n / 256, n % 256;
    var k, t := q / b, q % b;
    assert n == (256 * b) * k + (256 * t + r) by {
      assert n == 256 * q + r && q == b * k + t;
      assert 256 * (b * k) == (256 * b) * k;
    }
    DivUnique(n, 256 * b, k, 256 * t + r);
  }
}
