/** Division facts the solver does not find alone. */
module Arithmetic {

  function Max(x: nat, y: nat): nat { if x < y then y else x }

  function Min(x: nat, y: nat): nat { if x < y then x else y }

  lemma QuotientUnique(a: int, m: int, q: int, r: int)
    requires m > 0 && a == m * q + r && 0 <= r < m
    ensures a / m == q && a % m == r
  {
    var q', r' := a / m, a % m;
    assert m * (q - q') == r' - r by { assert a == m * q' + r'; }
    if q > q' {
      MulAtLeast(m, q - q');
    } else if q < q' {
      MulAtLeast(m, q' - q);
    }
  }

  lemma MulAtLeast(m: int, k: int)
    requires m > 0 && k >= 1
    ensures m * k >= m
  {
    assert m * k == m + m * (k - 1);
    assert m * (k - 1) >= 0;
  }

  /** Scaling value and modulus scales the remainder. */
  lemma ModScale(b: int, x: int, n: int)
    requires b > 0 && n > 0
    ensures b * n > 0 && (b * x) % (b * n) == b * (x % n)
  {
    var q, r := x / n, x % n;
    MulAtLeast(b, n);
    assert b * x == (b * n) * q + b * r by {
      assert x == n * q + r;
      assert b * (n * q + r) == b * (n * q) + b * r;
      assert b * (n * q) == (b * n) * q;
    }
    assert 0 <= b * r < b * n by {
      assert b * (n - r) >= b by { MulAtLeast(b, n - r); }
      assert b * (n - r) == b * n - b * r;
    }
    QuotientUnique(b * x, b * n, q, b * r);
  }

  /** Equal remainders mean a difference divisible by the modulus. */
  lemma SameRemainder(x: int, y: int, n: int)
    requires n > 0
    ensures x % n == y % n <==> (x - y) % n == 0
  {
    var qx, rx, qy, ry := x / n, x % n, y / n, y % n;
    assert x - y == n * (qx - qy) + (rx - ry);
    if rx >= ry {
      QuotientUnique(x - y, n, qx - qy, rx - ry);
    } else {
      assert n * (qx - qy) == n * (qx - qy - 1) + n;
      QuotientUnique(x - y, n, qx - qy - 1, rx - ry + n);
    }
  }

  /** A multiple of d stays one when reduced modulo another multiple of d. */
  lemma MultipleMod(x: int, m: int, d: int)
    requires d > 0 && m > 0 && x % d == 0 && m % d == 0
    ensures (x % m) % d == 0
  {
    var kx, km := x / d, m / d;
    assert x == d * kx && m == d * km;
    assert km > 0;
    ModScale(d, kx, km);
    QuotientUnique(d * (kx % km), d, kx % km, 0);
  }

  lemma MultipleSum(x: int, y: int, d: int)
    requires d > 0 && x % d == 0 && y % d == 0
    ensures (x + y) % d == 0
  {
    var kx, ky := x / d, y / d;
    assert x + y == d * (kx + ky);
    QuotientUnique(x + y, d, kx + ky, 0);
  }

  lemma MultipleScale(k: int, x: int, d: int)
    requires d > 0 && x % d == 0
    ensures (k * x) % d == 0
  {
    var q := x / d;
    assert k * x == d * (k * q) by { assert x == d * q; assert k * (d * q) == d * (k * q); }
    QuotientUnique(k * x, d, k * q, 0);
  }

  /** Reducing a summand first changes nothing. */
  lemma ModAdd(x: int, y: int, m: int)
    requires m > 0
    ensures (x % m + y) % m == (x + y) % m
  {
    SameRemainder(x % m + y, x + y, m);
    var q := x / m;
    assert x % m + y - (x + y) == m * (-q);
    QuotientUnique(x % m + y - (x + y), m, -q, 0);
  }

  /** Rounding down to a multiple. */
  lemma RoundDown(n: nat, m: nat)
    requires m > 0
    ensures n - m < n / m * m <= n
    ensures (n / m * m) % m == 0
  {
    var q := n / m;
    assert n == m * q + n % m;
    assert q * m == m * q;
    QuotientUnique(m * q, m, q, 0);
  }

  lemma ScaleInjective(b: int, x: int, y: int)
    requires b > 0
    ensures b * x == b * y <==> x == y
  {
    if x < y {
      MulAtLeast(b, y - x);
      assert b * y - b * x == b * (y - x);
    } else if y < x {
      MulAtLeast(b, x - y);
      assert b * x - b * y == b * (x - y);
    }
  }

  lemma ScaleMonotone(b: int, x: int, y: int)
    requires b >= 0 && x <= y
    ensures b * x <= b * y
  {
    assert b * y - b * x == b * (y - x);
    assert b * (y - x) >= 0;
  }

  lemma ModSmall(x: nat, m: nat)
    requires x < m
    ensures x % m == x
  {
    QuotientUnique(x, m, 0, x);
  }

  /** Fewer than m only rounds down to a value below m. */
  lemma RoundDownSmall(n: nat, m: nat)
    requires m > 0 && n / m * m < m
    ensures n < m
  {
    assert n / m * m == m * (n / m);
    if n >= m {
      MulAtLeast(m, n / m);
    }
  }

  lemma ProductNonNegative(x: real, y: real)
    requires x >= 0.0 && y >= 0.0
    ensures x * y >= 0.0
  {
  }

  /** Counting on by one moves the remainder, or the quotient when the remainder is full. */
  lemma NextQuotient(k: nat, m: nat)
    requires m > 0
    ensures k % m + 1 < m ==> (k + 1) / m == k / m && (k + 1) % m == k % m + 1
    ensures k % m + 1 == m ==> (k + 1) / m == k / m + 1 && (k + 1) % m == 0
  {
    var q, r := k / m, k % m;
    assert k + 1 == m * q + (r + 1);
    if r + 1 < m {
      QuotientUnique(k + 1, m, q, r + 1);
    } else {
      assert m * (q + 1) == m * q + m;
      QuotientUnique(k + 1, m, q + 1, 0);
    }
  }

  lemma QuotientPositive(n: nat, m: nat)
    requires 0 < m <= n
    ensures n / m >= 1
  {
    RoundDown(n, m);
    assert 0 * m == 0;
  }
}
