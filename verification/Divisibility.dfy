/** Divisors, greatest common divisors and least common multiples of natural numbers. */
module Divisibility {

  predicate Divides(d: nat, n: nat) {
    if d == 0 then n == 0 else n % d == 0
  }

  function Gcd(a: nat, b: nat): (g: nat)
    ensures a > 0 || b > 0 ==> g > 0
    decreases b
  {
    if b == 0 then a else Gcd(b, a % b)
  }

  /** The least common multiple of two positive numbers, in unbounded arithmetic. */
  function Lcm(a: nat, b: nat): nat
    requires a > 0 && b > 0
  {
    a / Gcd(a, b) * b
  }

  function LcmOf(ps: seq<nat>): (l: nat)
    requires AllPositive(ps)
    ensures l > 0
  {
    if ps == [] then 1
    else
      LcmIsLeast(LcmOf(ps[..|ps| - 1]), ps[|ps| - 1]);
      Lcm(LcmOf(ps[..|ps| - 1]), ps[|ps| - 1])
  }

  predicate AllPositive(ps: seq<nat>) {
    forall i :: 0 <= i < |ps| ==> ps[i] > 0
  }

  ghost predicate CommonMultiple(m: nat, ps: seq<nat>) {
    forall i :: 0 <= i < |ps| ==> Divides(ps[i], m)
  }

  /** `l` is a positive common multiple that divides every positive common multiple. */
  ghost predicate IsLcmOf(l: nat, ps: seq<nat>) {
    && l > 0
    && CommonMultiple(l, ps)
    && forall m: nat :: m > 0 && CommonMultiple(m, ps) ==> Divides(l, m)
  }

  ghost predicate IsGcd(g: nat, a: nat, b: nat) {
    && Divides(g, a)
    && Divides(g, b)
    && forall d: nat :: Divides(d, a) && Divides(d, b) ==> Divides(d, g)
  }

  // ---- multiples ----

  lemma MulMod(k: int, d: nat)
    requires d > 0
    ensures k * d % d == 0
    ensures k * d / d == k
  {
    var q, r := k * d / d, k * d % d;
    assert k * d == q * d + r;
    assert (k - q) * d == r;
    assert k - q >= 1 ==> (k - q) * d >= d;
    assert k - q <= -1 ==> (k - q) * d <= (-1) * d;
  }

  lemma MultipleDivides(k: nat, d: nat)
    ensures k * d >= 0 && Divides(d, k * d)
  {
    if d > 0 { MulMod(k, d); }
  }

  lemma Quotient(d: nat, n: nat)
    requires Divides(d, n) && d > 0
    ensures n == n / d * d
    ensures n > 0 ==> n / d > 0 && d <= n
  {
  }

  lemma DividesTrans(a: nat, b: nat, c: nat)
    requires Divides(a, b) && Divides(b, c)
    ensures Divides(a, c)
  {
    if a > 0 && b > 0 {
      var q, p := b / a, c / b;
      assert c == p * (q * a) == p * q * a;
      MulMod(p * q, a);
    }
  }

  lemma DividesCombination(d: nat, a: nat, b: nat, x: int, y: int)
    requires Divides(d, a) && Divides(d, b) && x * a + y * b >= 0
    ensures Divides(d, x * a + y * b)
  {
    if d == 0 {
      assert x * a == 0 && y * b == 0;
    } else {
      var p, q := a / d, b / d;
      assert x * a == x * (p * d) == x * p * d;
      assert y * b == y * (q * d) == y * q * d;
      assert x * a + y * b == (x * p + y * q) * d;
      MulMod(x * p + y * q, d);
    }
  }

  lemma DividesAntisymmetric(a: nat, b: nat)
    requires Divides(a, b) && Divides(b, a)
    ensures a == b
  {
    if a > 0 && b > 0 {
      Quotient(a, b);
      Quotient(b, a);
    }
  }

  // ---- Euclid ----

  lemma {:induction false} Bezout(a: nat, b: nat) returns (x: int, y: int)
    ensures x * a + y * b == Gcd(a, b)
    decreases b
  {
    if b == 0 {
      x, y := 1, 0;
    } else {
      var u, v := Bezout(b, a % b);
      var q := a / b;
      x, y := v, u - v * q;
      assert a == q * b + a % b;
      assert v * a == v * (q * b + a % b) == v * q * b + v * (a % b);
      assert (u - v * q) * b == u * b - v * q * b;
    }
  }

  lemma {:induction false} GcdDividesBoth(a: nat, b: nat)
    ensures Divides(Gcd(a, b), a) && Divides(Gcd(a, b), b)
    decreases b
  {
    if b > 0 {
      GcdDividesBoth(b, a % b);
      assert a == a / b * b + 1 * (a % b);
      DividesCombination(Gcd(a, b), b, a % b, a / b, 1);
    } else if a > 0 {
      MulMod(1, a);
    }
  }

  /** Euclid's recursion yields the greatest common divisor. */
  lemma GcdIsGreatest(a: nat, b: nat)
    ensures IsGcd(Gcd(a, b), a, b)
  {
    GcdDividesBoth(a, b);
    forall d: nat | Divides(d, a) && Divides(d, b)
      ensures Divides(d, Gcd(a, b))
    {
      var x, y := Bezout(a, b);
      DividesCombination(d, a, b, x, y);
    }
  }

  // ---- least common multiples ----

  /** `Lcm` is a common multiple, and it divides every other one. */
  lemma LcmIsLeast(a: nat, b: nat)
    requires a > 0 && b > 0
    ensures Lcm(a, b) > 0 && Divides(a, Lcm(a, b)) && Divides(b, Lcm(a, b))
    ensures forall m: nat :: m > 0 && Divides(a, m) && Divides(b, m) ==> Divides(Lcm(a, b), m)
  {
    var g := Gcd(a, b);
    GcdDividesBoth(a, b);
    Quotient(g, a);
    Quotient(g, b);
    MultipleDivides(a / g, b);
    assert a / g * b == a / g * (b / g * g) == b / g * (a / g * g) == b / g * a;
    MultipleDivides(b / g, a);
    assert a / g * b > 0;
    forall m: nat | m > 0 && Divides(a, m) && Divides(b, m)
      ensures Divides(Lcm(a, b), m)
    {
      LcmDividesMultiple(a, b, m);
    }
  }

  lemma LcmDividesMultiple(a: nat, b: nat, m: nat)
    requires a > 0 && b > 0 && m > 0 && Divides(a, m) && Divides(b, m)
    requires Lcm(a, b) > 0
    ensures Divides(Lcm(a, b), m)
  {
    var g, l := Gcd(a, b), Lcm(a, b);
    var x, y := Bezout(a, b);
    var s, t := m / a, m / b;
    Quotient(a, m);
    Quotient(b, m);
    LcmTimesGcd(a, b);
    LcmAlgebra(a, b, g, l, m, s, t, x, y);
    CancelFactor(m, (t * x + s * y) * l, g);
    MulMod(t * x + s * y, l);
  }

  lemma LcmTimesGcd(a: nat, b: nat)
    requires a > 0 && b > 0
    ensures Lcm(a, b) * Gcd(a, b) == a * b
  {
    var g := Gcd(a, b);
    GcdDividesBoth(a, b);
    Quotient(g, a);
    var q := a / g;
    assert q * b * g == q * g * b;
  }

  lemma LcmAlgebra(a: int, b: int, g: int, l: int, m: int, s: int, t: int, x: int, y: int)
    requires m == s * a && m == t * b && g == x * a + y * b && l * g == a * b
    ensures m * g == (t * x + s * y) * l * g
  {
    calc {
      m * g;
      m * (x * a) + m * (y * b);
      t * b * (x * a) + s * a * (y * b);
      { assert t * b * (x * a) == t * x * (a * b); assert s * a * (y * b) == s * y * (a * b); }
      t * x * (a * b) + s * y * (a * b);
      (t * x + s * y) * (a * b);
      (t * x + s * y) * (l * g);
      (t * x + s * y) * l * g;
    }
  }

  lemma CancelFactor(p: int, q: int, g: nat)
    requires g > 0 && p * g == q * g
    ensures p == q
  {
    MulMod(p, g);
    MulMod(q, g);
  }

  /** The left fold of pairwise least common multiples is the least common multiple of all. */
  lemma {:induction false} LcmOfIsLeast(ps: seq<nat>)
    requires AllPositive(ps)
    ensures IsLcmOf(LcmOf(ps), ps)
  {
    if ps != [] {
      var init, last := ps[..|ps| - 1], ps[|ps| - 1];
      var l := LcmOf(init);
      LcmOfIsLeast(init);
      LcmIsLeast(l, last);
      forall i | 0 <= i < |ps|
        ensures Divides(ps[i], LcmOf(ps))
      {
        if i < |init| {
          assert Divides(init[i], l);
          DividesTrans(init[i], l, LcmOf(ps));
        }
      }
      forall m: nat | m > 0 && CommonMultiple(m, ps)
        ensures Divides(LcmOf(ps), m)
      {
        assert CommonMultiple(m, init);
      }
    } else {
      forall m: nat | m > 0 ensures Divides(1, m) { }
    }
  }

  lemma LcmUnique(l1: nat, l2: nat, ps: seq<nat>)
    requires IsLcmOf(l1, ps) && IsLcmOf(l2, ps)
    ensures l1 == l2
  {
    DividesAntisymmetric(l1, l2);
  }

  /** A prefix's least common multiple never exceeds the whole one. */
  lemma {:induction false} LcmOfPrefix(ps: seq<nat>, n: nat)
    requires AllPositive(ps) && n <= |ps|
    ensures LcmOf(ps[..n]) <= LcmOf(ps)
  {
    LcmOfIsLeast(ps);
    LcmOfIsLeast(ps[..n]);
    forall i | 0 <= i < n
      ensures Divides(ps[..n][i], LcmOf(ps))
    {
      assert Divides(ps[i], LcmOf(ps));
    }
    assert CommonMultiple(LcmOf(ps), ps[..n]);
    Quotient(LcmOf(ps[..n]), LcmOf(ps));
  }

  lemma DivUnique(x: int, q: int, r: int, k: nat)
    requires k > 0 && x == q * k + r && 0 <= r < k
    ensures x / k == q && x % k == r
  {
    MulMod(q, k);
    var d := x / k - q;
    assert x == x / k * k + x % k;
    assert d * k == r - x % k;
    assert d >= 1 ==> d * k >= k;
    assert d <= -1 ==> d * k <= -1 * k;
  }
}
