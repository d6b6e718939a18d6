/** The scalar field Z_q as integers below q, with congruence as the working equality. */
module PrimeField {
  predicate Divides(d: int, n: int)
    requires d != 0
  {
    n % d == 0
  }

  ghost predicate Prime(q: int) {
    q >= 2 && forall d: int | 2 <= d < q :: !Divides(d, q)
  }

  // ----- congruence modulo q -----

  function Times(q: int, k: int): int {
    k * q
  }

  ghost predicate Eqm(q: int, x: int, y: int) {
    exists k: int :: x - y == Times(q, k)
  }

  lemma EqmBy(q: int, x: int, y: int, k: int)
    requires x - y == k * q
    ensures Eqm(q, x, y)
  {
    assert x - y == Times(q, k);
  }

  lemma EqmRefl(q: int, x: int)
    ensures Eqm(q, x, x)
  {
    EqmBy(q, x, x, 0);
  }

  lemma EqmSym(q: int, x: int, y: int)
    requires Eqm(q, x, y)
    ensures Eqm(q, y, x)
  {
    var k :| x - y == Times(q, k);
    assert (-k) * q == -(k * q);
    EqmBy(q, y, x, -k);
  }

  lemma EqmTrans(q: int, x: int, y: int, z: int)
    requires Eqm(q, x, y) && Eqm(q, y, z)
    ensures Eqm(q, x, z)
  {
    var k :| x - y == Times(q, k);
    var j :| y - z == Times(q, j);
    assert (k + j) * q == k * q + j * q;
    EqmBy(q, x, z, k + j);
  }

  lemma EqmAdd(q: int, x: int, y: int, u: int, v: int)
    requires Eqm(q, x, y) && Eqm(q, u, v)
    ensures Eqm(q, x + u, y + v)
  {
    var k :| x - y == Times(q, k);
    var j :| u - v == Times(q, j);
    assert (k + j) * q == k * q + j * q;
    EqmBy(q, x + u, y + v, k + j);
  }

  lemma EqmSub(q: int, x: int, y: int, u: int, v: int)
    requires Eqm(q, x, y) && Eqm(q, u, v)
    ensures Eqm(q, x - u, y - v)
  {
    var k :| x - y == Times(q, k);
    var j :| u - v == Times(q, j);
    assert (k - j) * q == k * q - j * q;
    EqmBy(q, x - u, y - v, k - j);
  }

  lemma EqmScale(q: int, c: int, x: int, y: int)
    requires Eqm(q, x, y)
    ensures Eqm(q, c * x, c * y)
  {
    var k :| x - y == Times(q, k);
    assert c * x - c * y == c * (x - y) == c * (k * q) == (c * k) * q;
    EqmBy(q, c * x, c * y, c * k);
  }

  lemma EqmMul(q: int, x: int, y: int, u: int, v: int)
    requires Eqm(q, x, y) && Eqm(q, u, v)
    ensures Eqm(q, x * u, y * v)
  {
    EqmScale(q, u, x, y);
    EqmScale(q, y, u, v);
    assert u * x == x * u && u * y == y * u;
    EqmTrans(q, x * u, y * u, y * v);
  }

  lemma EqmMod(q: int, x: int)
    requires q > 0
    ensures Eqm(q, x % q, x)
  {
    var k := x / q;
    assert x == q * k + x % q;
    assert (-k) * q == -(q * k);
    EqmBy(q, x % q, x, -k);
  }

  lemma EqmUnique(q: int, x: int, y: int)
    requires 0 <= x < q && 0 <= y < q && Eqm(q, x, y)
    ensures x == y
  {
    var k :| x - y == Times(q, k);
    if k >= 1 {
      assert k * q >= 1 * q by { MulLe(1, k, q); }
    } else if k <= -1 {
      assert k * q <= -1 * q by { MulLe(k, -1, q); }
    }
  }

  lemma MulLe(a: int, b: int, c: int)
    requires a <= b && 0 <= c
    ensures a * c <= b * c
  {
  }

  /** Canonical representatives are equal exactly when congruent. */
  lemma EqmReduced(q: int, x: int, y: int)
    requires q > 0 && Eqm(q, x, y)
    ensures x % q == y % q
  {
    EqmMod(q, x);
    EqmMod(q, y);
    EqmSym(q, y % q, y);
    EqmTrans(q, x % q, x, y);
    EqmTrans(q, x % q, y, y % q);
    EqmUnique(q, x % q, y % q);
  }

  // ----- inverses -----

  /** Extended Euclid: a common divisor as a combination of `a` and `b`. */
  function Egcd(a: nat, b: nat): (int, int)
    decreases b
  {
    if b == 0 then (1, 0)
    else
      var (s, t) := Egcd(b, a % b);
      (t, s - a / b * t)
  }

  lemma {:induction false} EgcdDivides(a: nat, b: nat)
    requires a > 0
    ensures var (s, t) := Egcd(a, b); var g := s * a + t * b;
            g > 0 && Divides(g, a) && Divides(g, b)
    decreases b
  {
    if b == 0 {
      assert Egcd(a, b) == (1, 0) && 1 * a + 0 * b == a;
    } else {
      var r, d := a % b, a / b;
      assert a == d * b + r;
      EgcdDivides(b, r);
      var (s, t) := Egcd(b, r);
      var g := s * b + t * r;
      CombineStep(a, b, d, r, s, t);
      DividesSum(g, d, b, r);
    }
  }

  lemma CombineStep(a: int, b: int, d: int, r: int, s: int, t: int)
    requires a == d * b + r
    ensures t * a + (s - d * t) * b == s * b + t * r
  {
    assert t * a == t * (d * b) + t * r;
    assert (s - d * t) * b == s * b - (d * t) * b;
    assert t * (d * b) == (d * t) * b;
  }

  lemma DividesSum(g: int, d: int, b: int, r: int)
    requires g > 0 && Divides(g, b) && Divides(g, r)
    ensures Divides(g, d * b + r)
  {
    var kb, kr := b / g, r / g;
    assert b == g * kb && r == g * kr;
    assert d * b + r == g * (d * kb + kr) by {
      assert d * (g * kb) == g * (d * kb);
    }
    MultipleDivides(g, d * kb + kr);
  }

  lemma MultipleDivides(g: int, k: int)
    requires g > 0
    ensures Divides(g, g * k)
  {
    EqmBy(g, g * k, 0, k);
    EqmReduced(g, g * k, 0);
  }

  /** The inverse of a nonzero element. */
  function Invert(q: int, a: int): int
    requires q > 1
  {
    if a <= 0 then 0 else Egcd(a, q).0 % q
  }

  lemma InvertCorrect(q: int, a: int)
    requires Prime(q) && 0 < a < q
    ensures 0 < Invert(q, a) < q && Eqm(q, a * Invert(q, a), 1)
  {
    EgcdDivides(a, q);
    var (s, t) := Egcd(a, q);
    var g := s * a + t * q;
    DividesBound(g, a);
    PrimeDivisor(q, g);
    assert s * a - 1 == (-t) * q;
    EqmBy(q, s * a, 1, -t);
    EqmMod(q, s);
    EqmScale(q, a, s % q, s);
    assert a * s == s * a;
    EqmTrans(q, a * (s % q), s * a, 1);
    if s % q == 0 {
      assert a * 0 == 0;
      EqmUnique(q, 0, 1);
    }
  }

  lemma PrimeDivisor(q: int, g: int)
    requires Prime(q) && 0 < g < q && Divides(g, q)
    ensures g == 1
  {
  }

  lemma DividesBound(g: int, a: int)
    requires g > 0 && a > 0 && Divides(g, a)
    ensures g <= a
  {
    var k := a / g;
    assert a == g * k;
    if k <= 0 {
      MulLe(k, 0, g);
    }
  }

  // ----- field operations on canonical representatives -----

  function Add(q: int, a: int, b: int): (r: int)
    requires q > 1
    ensures 0 <= r < q
  {
    (a + b) % q
  }

  function Sub(q: int, a: int, b: int): (r: int)
    requires q > 1
    ensures 0 <= r < q
  {
    (a - b) % q
  }

  function Mul(q: int, a: int, b: int): (r: int)
    requires q > 1
    ensures 0 <= r < q
  {
    a * b % q
  }

  function Neg(q: int, a: int): (r: int)
    requires q > 1
    ensures 0 <= r < q
  {
    (-a) % q
  }
}
