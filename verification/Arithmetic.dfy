/** Divisibility and remainders. */
module Arithmetic {

  ghost predicate Divides(d: nat, n: int) { exists k: int :: n == k * d }

  lemma Distribute(a: int, b: int, c: int)
    ensures (a - b) * c == a * c - b * c
  {}

  lemma Rotate(a: int, b: int, c: int)
    ensures (a * b) * c == (a * c) * b
  {}

  lemma DividesTimes(d: nat, n: int, m: int)
    requires Divides(d, n)
    ensures Divides(d, n * m)
  {
    var k: int :| n == k * d;
    Rotate(k, d, m);
    assert n * m == (k * m) * d;
  }

  lemma DividesPlus(d: nat, a: int, b: int)
    requires Divides(d, a) && Divides(d, b)
    ensures Divides(d, a + b) && Divides(d, a - b)
  {
    var k: int, m: int :| a == k * d && b == m * d;
    Distribute(k, -m, d);
    Distribute(k, m, d);
    assert a + b == (k + m) * d && a - b == (k - m) * d;
  }

  lemma DividesSelf(d: nat, m: int)
    ensures Divides(d, d * m)
  {
    assert d * m == m * d;
  }

  lemma Grows(k: int, n: nat)
    ensures k == 0 || k * n >= n || -(k * n) >= n
  {
    if k > 0 { assert (k - 1) * n >= 0; }
    if k < 0 { assert (-k - 1) * n >= 0; }
  }

  /** A multiple of `n` closer to zero than `n` is zero. */
  lemma SmallMultiple(d: int, n: int)
    requires 0 < n && Divides(n, d) && -n < d < n
    ensures d == 0
  {
    var k: int :| d == k * n;
    Grows(k, n);
  }

  lemma DivMod(a: int, n: nat)
    requires n > 0
    ensures a == (a / n) * n + a % n && Divides(n, a - a % n)
  {}

  lemma Remainder(a: int, n: nat, r: int)
    requires n > 0 && Divides(n, a - r) && 0 <= r < n
    ensures a % n == r
  {
    DivMod(a, n);
    DividesPlus(n, a - r, a - a % n);
    SmallMultiple(a % n - r, n);
  }

  lemma Quotient(q: int, n: nat, r: int)
    requires 0 <= r < n
    ensures (q * n + r) % n == r && (q * n + r) / n == q
  {
    var a := q * n + r;
    assert a - r == q * n;
    Remainder(a, n, r);
    DivMod(a, n);
    Distribute(q, a / n, n);
    Grows(q - a / n, n);
  }

  lemma SameRemainder(a: int, b: int, n: nat)
    requires n > 0
    ensures a % n == b % n <==> Divides(n, a - b)
  {
    DivMod(a, n);
    DivMod(b, n);
    if a % n == b % n { DividesPlus(n, a - a % n, b - b % n); }
    if Divides(n, a - b) {
      DividesPlus(n, a - b, b - b % n);
      Remainder(a, n, b % n);
    }
  }

  lemma Bound(q: nat, r: nat, n: nat, m: nat)
    requires r < n
    ensures q * n + r < n * m <==> q < m
  {
    if q < m {
      assert (q + 1) * n <= m * n;
    } else {
      assert m * n <= q * n;
    }
  }
}
