/** Quotients and remainders. */
module Division {

  lemma MulMonotone(a: int, b: int, n: nat)
    requires a <= b
    ensures a * n <= b * n
  {
  }

  /** The only quotient that fits, and its remainder. */
  lemma DivideUnique(x: int, n: nat, q: int)
    requires n > 0 && q * n <= x < q * n + n
    ensures x / n == q && x % n == x - q * n
  {
    var d := x / n - q;
    assert x == n * (x / n) + x % n;
    assert n * d == x - x % n - n * q;
    assert n * q == q * n;
    if d >= 1 {
      MulMonotone(1, d, n);
    } else if d <= -1 {
      MulMonotone(d, -1, n);
    }
  }

  /** One turn of a counter that wraps. */
  lemma WrapOnce(x: nat, n: nat)
    requires x < n + n
    ensures x % n == if x < n then x else x - n
  {
    DivideUnique(x, n, if x < n then 0 else 1);
  }

  /** A number split by a positive modulus. */
  lemma Split(x: nat, n: nat) returns (q: nat)
    requires n > 0
    ensures q * n <= x < q * n + n && x % n == x - q * n && x / n == q
  {
    q := x / n;
    assert x == n * q + x % n;
    assert n * q == q * n;
  }

  lemma ModStep(x: nat, n: nat)
    requires n > 0
    ensures (x % n + 1) % n == (x + 1) % n
  {
    var q := Split(x, n);
    var r := x - q * n;
    if r + 1 == n {
      assert (q + 1) * n == q * n + n;
      DivideUnique(x + 1, n, q + 1);
      DivideUnique(n, n, 1);
    } else {
      DivideUnique(x + 1, n, q);
      DivideUnique(r + 1, n, 0);
    }
  }
}
