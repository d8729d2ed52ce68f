// Page-aligned growth of the shared memory regions (src/shmem.c:1353-1405).
module Alloc {

  ghost predicate Divides(d: nat, n: nat) {
    exists k: nat :: n == d * k
  }

  function Euclid(a: nat, b: nat): (g: nat)
    ensures a > 0 || b > 0 ==> g > 0
    decreases b
  {
    if b == 0 then a else Euclid(b, a % b)
  }

  /** gcd() */
  method Gcd(a: nat, b: nat) returns (g: nat)
    ensures g == Euclid(a, b)
  {
    var x, y := a, b;
    while y != 0
      invariant Euclid(x, y) == Euclid(a, b)
      decreases y
    {
      x, y := y, x % y;
    }
    g := x;
  }

  // The greatest common divisor is a combination of the two numbers
  lemma {:induction false} Bezout(a: nat, b: nat) returns (x: int, y: int)
    ensures a * x + b * y == Euclid(a, b)
    decreases b
  {
    if b == 0 {
      x, y := 1, 0;
    } else {
      var u, v := Bezout(b, a % b);
      x, y := v, u - a / b * v;
      var q, r := a / b, a % b;
      assert a == b * q + r;
      calc {
        a * x + b * y;
        (b * q + r) * v + b * (u - q * v);
        { Spread(b, q, r, u, v); }
        b * u + r * v;
      }
    }
  }

  lemma Spread(b: int, q: int, r: int, u: int, v: int)
    ensures (b * q + r) * v + b * (u - q * v) == b * u + r * v
  {
    assert (b * q + r) * v == b * q * v + r * v;
    assert b * (u - q * v) == b * u - b * (q * v);
    assert b * q * v == b * (q * v);
  }

  lemma {:induction false} EuclidDivides(a: nat, b: nat) returns (j: nat, k: nat)
    ensures a == Euclid(a, b) * j && b == Euclid(a, b) * k
    decreases b
  {
    if b == 0 {
      j, k := 1, 0;
    } else {
      var g := Euclid(b, a % b);
      var u, v := EuclidDivides(b, a % b);
      var q := a / b;
      k := u;
      j := u * q + v;
      assert a == b * q + a % b;
      assert g * u * q == g * (u * q);
      assert g * (u * q + v) == g * (u * q) + g * v;
    }
  }

  // If p and o have no common factor, p divides n * o only if it divides n
  lemma CoprimeDivisor(p: nat, o: nat, x: int, y: int, n: nat, m: nat) returns (k: nat)
    requires p > 0 && p * x + o * y == 1 && n * o == p * m
    ensures n == p * k
  {
    var z := n * x + m * y;
    calc {
      n;
      n * (p * x + o * y);
      n * (p * x) + n * (o * y);
      { Regroup(n, p, x, o, y); }
      p * (n * x) + (n * o) * y;
      p * (n * x) + (p * m) * y;
      { assert (p * m) * y == p * (m * y); }
      p * (n * x) + p * (m * y);
      p * z;
    }
    MulCompare(p, z, 0);
    k := z;
  }

  lemma Regroup(n: int, p: int, x: int, o: int, y: int)
    ensures n * (p * x) + n * (o * y) == p * (n * x) + (n * o) * y
  {
    assert n * (p * x) == p * (n * x);
    assert n * (o * y) == (n * o) * y;
  }

  lemma MulCompare(g: nat, a: int, b: int)
    requires g > 0
    ensures a < b ==> g * a < g * b
    ensures a > b ==> g * a > g * b
  {
    assert g * b - g * a == g * (b - a);
  }

  lemma MultipleIffRemainder(n: nat, d: nat)
    requires d > 0
    ensures Divides(d, n) <==> n % d == 0
  {
    if n % d == 0 {
      assert n == d * (n / d);
    }
    forall k: nat | n == d * k
      ensures n % d == 0
    {
      MultipleRemainder(d, k);
    }
  }

  lemma {:induction false} MultipleRemainder(d: nat, k: nat)
    requires d > 0
    ensures (d * k) % d == 0 && (d * k) / d == k
  {
    var q, r := (d * k) / d, (d * k) % d;
    assert d * k == d * q + r;
    assert d * (q + 1) == d * q + d;
    MulCompare(d, k, q);
    MulCompare(d, k, q + 1);
    assert k == q;
  }

  /** Exactly the multiples of pagesize / gcd(pagesize, objsize) make whole pages. */
  lemma WholePages(pagesize: nat, objsize: nat, n: nat)
    requires pagesize > 0 && objsize > 0
    ensures var unit := pagesize / Euclid(pagesize, objsize);
            unit > 0 && (Divides(pagesize, n * objsize) <==> Divides(unit, n))
  {
    var g := Euclid(pagesize, objsize);
    var p, o := EuclidDivides(pagesize, objsize);
    MultipleRemainder(g, p);
    var x, y := Bezout(pagesize, objsize);
    assert p > 0;
    assert p * x + o * y == 1 by {
      CancelFactor(g, p, o, x, y);
    }
    forall m: nat | n * objsize == pagesize * m
      ensures Divides(p, n)
    {
      assert n * o == p * m by {
        CancelProduct(g, n, o, p, m);
      }
      var k := CoprimeDivisor(p, o, x, y, n, m);
    }
    forall k: nat | n == p * k
      ensures Divides(pagesize, n * objsize)
    {
      SwapFactors(p, k, g, o);
      assert n * objsize == pagesize * (k * o);
    }
  }

  lemma SwapFactors(p: nat, k: nat, g: nat, o: nat)
    ensures (p * k) * (g * o) == (g * p) * (k * o)
  {
    assert (p * k) * (g * o) == p * (k * (g * o)) == p * (g * (k * o));
    assert (g * p) * (k * o) == p * (g * (k * o));
  }

  lemma CancelFactor(g: nat, p: nat, o: nat, x: int, y: int)
    requires g > 0 && (g * p) * x + (g * o) * y == g
    ensures p * x + o * y == 1
  {
    assert (g * p) * x == g * (p * x) && (g * o) * y == g * (o * y);
    var z := p * x + o * y;
    assert g * z == g == g * 1;
    MulCompare(g, z, 1);
  }

  lemma CancelProduct(g: nat, n: nat, o: nat, p: nat, m: nat)
    requires g > 0 && n * (g * o) == (g * p) * m
    ensures n * o == p * m
  {
    assert n * (g * o) == g * (n * o) && (g * p) * m == g * (p * m);
    MulCompare(g, n * o, p * m);
  }

  /** get_optimal_object_size(): the least positive number of objects that is at least
      minsize and fills whole pages. */
  method OptimalObjectSize(pagesize: nat, objsize: nat, minsize: nat) returns (n: nat)
    requires pagesize > 0 && objsize > 0
    ensures 0 < n && minsize <= n && n * objsize % pagesize == 0
    ensures forall m: nat :: 0 < m && minsize <= m && m * objsize % pagesize == 0 ==> n <= m
  {
    var g := Gcd(pagesize, objsize);
    var unit := pagesize / g;
    WholePages(pagesize, objsize, 0);
    ghost var factor: nat := 1;
    if unit < minsize {
      var multiplier := minsize / unit + (if minsize % unit != 0 then 1 else 0);
      n := multiplier * unit;
      factor := multiplier;
    } else {
      n := unit;
    }
    UnitRoundsUp(unit, minsize, factor, n);
    assert Divides(unit, n);
    Aligned(pagesize, objsize, n);
    forall m: nat | 0 < m && minsize <= m && m * objsize % pagesize == 0
      ensures n <= m
    {
      Aligned(pagesize, objsize, m);
      var k: nat :| m == unit * k;
      UnitLeast(unit, minsize, factor, k);
    }
  }

  lemma Aligned(pagesize: nat, objsize: nat, n: nat)
    requires pagesize > 0 && objsize > 0
    ensures pagesize / Euclid(pagesize, objsize) > 0
    ensures n * objsize % pagesize == 0 <==> Divides(pagesize / Euclid(pagesize, objsize), n)
  {
    WholePages(pagesize, objsize, n);
    MultipleIffRemainder(n * objsize, pagesize);
  }

  // The factor is the rounded-up quotient
  ghost predicate RoundsUp(unit: nat, minsize: nat, factor: nat)
    requires unit > 0
  {
    factor == if unit < minsize then minsize / unit + (if minsize % unit != 0 then 1 else 0) else 1
  }

  lemma UnitRoundsUp(unit: nat, minsize: nat, factor: nat, n: nat)
    requires unit > 0 && RoundsUp(unit, minsize, factor) && n == unit * factor
    ensures 0 < n && minsize <= n
  {
    if unit < minsize {
      var q, r := minsize / unit, minsize % unit;
      assert minsize == unit * q + r;
      if r != 0 {
        assert unit * (q + 1) == unit * q + unit;
      }
    }
  }

  lemma UnitLess(unit: nat, minsize: nat, factor: nat, k: nat)
    requires unit > 0 && RoundsUp(unit, minsize, factor) && 0 < k
    ensures k < factor ==> unit * k < minsize
  {
    var q := minsize / unit;
    assert minsize == unit * q + minsize % unit;
    MulCompare(unit, k, q);
  }

  lemma UnitLeast(unit: nat, minsize: nat, factor: nat, k: nat)
    requires unit > 0 && RoundsUp(unit, minsize, factor) && 0 < unit * k && minsize <= unit * k
    ensures unit * factor <= unit * k
  {
    MulCompare(unit, k, 0);
    UnitLess(unit, minsize, factor, k);
    MulCompare(unit, factor, k);
  }
}
