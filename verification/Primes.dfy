/** Divisibility facts for the sieve. */
module Primes {
  predicate Divides(p: int, n: int) {
    p != 0 && n % p == 0
  }

  /** None of `ps` divides `n`. */
  predicate Sieved(ps: seq<int>, n: int) {
    forall p :: p in ps ==> !Divides(p, n)
  }

  predicate IsPrime(n: int) {
    n >= 2 && forall d :: 2 <= d < n ==> !Divides(d, n)
  }

  /** All primes up to `n`, ascending. */
  function PrimesUpTo(n: int): seq<int> {
    if n < 2 then [] else PrimesUpTo(n - 1) + if IsPrime(n) then [n] else []
  }

  function Factorial(n: nat): nat {
    if n == 0 then 1 else n * Factorial(n - 1)
  }

  lemma {:induction false} PrimesAreThese(n: int, p: int)
    ensures p in PrimesUpTo(n) <==> p <= n && IsPrime(p)
  {
    if n >= 2 {
      PrimesAreThese(n - 1, p);
    }
  }

  lemma {:induction false} PrimesAscend(n: int, i: int, j: int)
    requires 0 <= i < j < |PrimesUpTo(n)|
    ensures PrimesUpTo(n)[i] < PrimesUpTo(n)[j]
  {
    var q := PrimesUpTo(n - 1);
    if j < |q| {
      PrimesAscend(n - 1, i, j);
    } else {
      PrimesAreThese(n - 1, q[i]);
    }
  }

  lemma {:induction false} FewPrimes(n: int)
    ensures |PrimesUpTo(n)| <= if n < 0 then 0 else n
  {
    if n >= 2 {
      FewPrimes(n - 1);
    }
  }

  lemma {:induction false} NoPrimesBetween(a: int, b: int)
    requires a <= b && forall n :: a < n <= b ==> !IsPrime(n)
    ensures PrimesUpTo(b) == PrimesUpTo(a)
    decreases b - a
  {
    if a < b {
      NoPrimesBetween(a, b - 1);
    }
  }

  lemma DividesTrans(a: int, b: int, c: int)
    requires a > 0 && Divides(a, b) && b > 0 && Divides(b, c)
    ensures Divides(a, c)
  {
    var q, r := b / a, c / b;
    assert c == a * (q * r) by {
      assert b == a * q && c == b * r;
      Assoc(a, q, r);
    }
    MulMod(a, q * r);
  }

  lemma Assoc(a: int, q: int, r: int)
    ensures (a * q) * r == a * (q * r)
  {
  }

  lemma MulMod(a: int, k: int)
    requires a > 0
    ensures (a * k) % a == 0
  {
    var q, r := (a * k) / a, (a * k) % a;
    assert a * k == a * q + r;
    Distribute(a, k, q);
    if k > q {
      Grows(a, k - q);
    } else if k < q {
      Grows(a, q - k);
      Distribute(a, q, k);
    }
  }

  lemma Distribute(a: int, k: int, q: int)
    ensures a * (k - q) == a * k - a * q
  {
  }

  /** A number above 1 that is no prime has a smaller prime divisor. */
  lemma {:induction false} PrimeDivisor(n: int) returns (p: int)
    requires n >= 2
    ensures IsPrime(p) && p <= n && Divides(p, n)
    decreases n
  {
    if IsPrime(n) {
      p := n;
    } else {
      var d :| 2 <= d < n && Divides(d, n);
      p := PrimeDivisor(d);
      DividesTrans(p, d, n);
    }
  }

  lemma {:induction false} DividesFactorial(p: int, n: nat)
    requires 1 <= p <= n
    ensures Divides(p, Factorial(n))
  {
    if p == n {
      MulMod(n, Factorial(n - 1));
    } else {
      DividesFactorial(p, n - 1);
      FactorialPositive(n - 1);
      MulMod(Factorial(n - 1), n);
      DividesTrans(p, Factorial(n - 1), Factorial(n));
    }
  }

  lemma {:induction false} FactorialPositive(n: nat)
    ensures Factorial(n) >= 1 && Factorial(n) >= n
  {
    if n > 0 {
      FactorialPositive(n - 1);
      Grows(n, Factorial(n - 1));
    }
  }

  lemma Grows(a: int, b: int)
    requires a >= 1 && b >= 1
    ensures a * b >= a && a * b >= 1
  {
  }

  /** No prime up to `last` divides one more than a multiple of `last!`. */
  lemma OneMoreIsSieved(last: nat, c: int)
    ensures Sieved(PrimesUpTo(last), c * (2 * Factorial(last)) + 1)
  {
    var m := c * (2 * Factorial(last));
    forall p | p in PrimesUpTo(last) ensures !Divides(p, m + 1) {
      PrimesAreThese(last, p);
      DividesFactorial(p, last);
      FactorialPositive(last);
      assert m == Factorial(last) * (2 * c) by {
        Regroup(c, Factorial(last));
      }
      MulMod(Factorial(last), 2 * c);
      DividesTrans(p, Factorial(last), m);
      NotNext(p, m);
    }
  }

  lemma Regroup(c: int, f: int)
    ensures c * (2 * f) == f * (2 * c)
  {
  }

  lemma NotNext(p: int, m: int)
    requires p >= 2 && Divides(p, m)
    ensures !Divides(p, m + 1)
  {
    var q, k := m / p, (m + 1) / p;
    assert m == p * q;
    if (m + 1) % p == 0 {
      assert m + 1 == p * k;
      Distribute(p, k, q);
      if k > q + 1 {
        Grows(p, k - q);
      } else if k < q {
        Grows(p, q - k);
      }
    }
  }
}
