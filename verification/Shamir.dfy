/** Shamir and replicated sharing over a prime field (`crates/sl-secret-sharing/src/shamir.rs`). */
module Shamir {
  import opened Wrappers
  import opened PrimeField

  predicate Element(q: int, x: int) {
    0 <= x < q
  }

  /** Pairwise different field elements. */
  predicate Points(q: int, pts: seq<int>) {
    (forall i | 0 <= i < |pts| :: Element(q, pts[i])) &&
    forall i, j | 0 <= i < j < |pts| :: pts[i] != pts[j]
  }

  // ----- ring identities, one per use -----

  lemma Assoc(a: int, b: int, c: int)
    ensures a * b * c == a * (b * c)
  {
  }

  lemma Distrib(a: int, b: int, c: int)
    ensures a * (b + c) == a * b + a * c
    ensures (b + c) * a == b * a + c * a
  {
  }

  lemma DistribMinus(a: int, b: int, c: int)
    ensures (b - c) * a == b * a - c * a
    ensures a * (b - c) == a * b - a * c
  {
  }

  lemma Swap(a: int, b: int, c: int)
    ensures a * (b * c) == b * (a * c)
  {
  }

  lemma SwapLast(a: int, b: int, c: int)
    ensures a * (b * c) == c * (b * a)
  {
  }

  // ----- interpolation as the source computes it -----

  /** The Lagrange coefficient of point `xi` at `e`, multiplied up over `pts`. */
  function Coeff(q: int, xi: int, pts: seq<int>, e: int): int
    requires q > 1
  {
    if pts == [] then 1
    else
      var c := Coeff(q, xi, pts[..|pts| - 1], e);
      var xj := pts[|pts| - 1];
      if xi == xj then c
      else Mul(q, Mul(q, c, Sub(q, xj, e)), Invert(q, Sub(q, xj, xi)))
  }

  function FoldEvals(q: int, pts: seq<int>, evals: seq<int>, all: seq<int>, e: int): int
    requires q > 1 && |pts| == |evals|
  {
    if pts == [] then 0
    else
      var n := |pts| - 1;
      Add(q, FoldEvals(q, pts[..n], evals[..n], all, e), Mul(q, evals[n], Coeff(q, pts[n], all, e)))
  }

  function InterpolateAt(q: int, pts: seq<int>, evals: seq<int>, e: int): int
    requires q > 1 && |pts| == |evals|
  {
    FoldEvals(q, pts, evals, pts, e)
  }

  // ----- the same over the integers -----

  function Factor(q: int, xi: int, xj: int, e: int): int
    requires q > 1
  {
    if xi == xj then 1 else (xj - e) * Invert(q, Sub(q, xj, xi))
  }

  function Lagrange(q: int, xi: int, pts: seq<int>, e: int): int
    requires q > 1
  {
    if pts == [] then 1
    else Lagrange(q, xi, pts[..|pts| - 1], e) * Factor(q, xi, pts[|pts| - 1], e)
  }

  function Poly(cs: seq<int>, x: int): int {
    if cs == [] then 0 else cs[0] + x * Poly(cs[1..], x)
  }

  /** The interpolation sum of the polynomial `cs` over the points `xs`, with basis points `all`. */
  function PolySum(q: int, xs: seq<int>, cs: seq<int>, all: seq<int>, e: int): int
    requires q > 1
  {
    if xs == [] then 0
    else PolySum(q, xs[..|xs| - 1], cs, all, e) + Poly(cs, xs[|xs| - 1]) * Lagrange(q, xs[|xs| - 1], all, e)
  }

  lemma CoeffStep(q: int, c: int, l: int, num: int, inv: int)
    requires q > 1 && Eqm(q, c, l)
    ensures Eqm(q, Mul(q, Mul(q, c, num % q), inv), l * (num * inv))
  {
    EqmMod(q, num);
    EqmMul(q, c, l, num % q, num);
    var m := Mul(q, c, num % q);
    EqmMod(q, c * (num % q));
    EqmTrans(q, m, c * (num % q), l * num);
    EqmRefl(q, inv);
    EqmMul(q, m, l * num, inv, inv);
    EqmMod(q, m * inv);
    EqmTrans(q, m * inv % q, m * inv, l * num * inv);
    Assoc(l, num, inv);
  }

  lemma {:induction false} CoeffIsLagrange(q: int, xi: int, pts: seq<int>, e: int)
    requires q > 1
    ensures Eqm(q, Coeff(q, xi, pts, e), Lagrange(q, xi, pts, e))
  {
    if pts == [] {
      EqmRefl(q, 1);
    } else {
      var rest, xj := pts[..|pts| - 1], pts[|pts| - 1];
      CoeffIsLagrange(q, xi, rest, e);
      var c, l := Coeff(q, xi, rest, e), Lagrange(q, xi, rest, e);
      if xi == xj {
        assert l * 1 == l;
      } else {
        CoeffStep(q, c, l, xj - e, Invert(q, Sub(q, xj, xi)));
      }
    }
  }

  lemma {:induction false} FoldIsPolySum(q: int, pts: seq<int>, evals: seq<int>, cs: seq<int>, all: seq<int>, e: int)
    requires q > 1 && |pts| == |evals|
    requires forall i | 0 <= i < |pts| :: Eqm(q, evals[i], Poly(cs, pts[i]))
    ensures Eqm(q, FoldEvals(q, pts, evals, all, e), PolySum(q, pts, cs, all, e))
  {
    if pts == [] {
      EqmRefl(q, 0);
    } else {
      var n := |pts| - 1;
      FoldIsPolySum(q, pts[..n], evals[..n], cs, all, e);
      CoeffIsLagrange(q, pts[n], all, e);
      var c, l := Coeff(q, pts[n], all, e), Lagrange(q, pts[n], all, e);
      EqmMul(q, evals[n], Poly(cs, pts[n]), c, l);
      EqmMod(q, evals[n] * c);
      EqmTrans(q, Mul(q, evals[n], c), evals[n] * c, Poly(cs, pts[n]) * l);
      var acc := FoldEvals(q, pts[..n], evals[..n], all, e);
      EqmAdd(q, acc, PolySum(q, pts[..n], cs, all, e), Mul(q, evals[n], c), Poly(cs, pts[n]) * l);
      EqmMod(q, acc + Mul(q, evals[n], c));
      EqmTrans(q, FoldEvals(q, pts, evals, all, e), acc + Mul(q, evals[n], c), PolySum(q, pts, cs, all, e));
    }
  }

  // ----- taking one point out -----

  lemma {:induction false} LagrangeConcat(q: int, xi: int, a: seq<int>, b: seq<int>, e: int)
    requires q > 1
    ensures Lagrange(q, xi, a + b, e) == Lagrange(q, xi, a, e) * Lagrange(q, xi, b, e)
  {
    hide Factor;
    if b == [] {
      assert a + b == a;
      assert Lagrange(q, xi, a, e) * 1 == Lagrange(q, xi, a, e);
    } else {
      var b', f := b[..|b| - 1], Factor(q, xi, b[|b| - 1], e);
      assert (a + b)[..|a + b| - 1] == a + b';
      LagrangeConcat(q, xi, a, b', e);
      Assoc(Lagrange(q, xi, a, e), Lagrange(q, xi, b', e), f);
    }
  }

  /** `(x - r) * L(x)` is `(e - r)` times the coefficient without the point `r`. */
  lemma RemovePoint(q: int, x: int, a: seq<int>, r: int, b: seq<int>, e: int)
    requires Prime(q) && Element(q, x) && Element(q, r) && x != r
    ensures Eqm(q, (x - r) * Lagrange(q, x, a + [r] + b, e), (e - r) * Lagrange(q, x, a + b, e))
  {
    var la, lb, f := Lagrange(q, x, a, e), Lagrange(q, x, b, e), Factor(q, x, r, e);
    LagrangeConcat(q, x, a + [r], b, e);
    LagrangeConcat(q, x, a, [r], e);
    LagrangeConcat(q, x, a, b, e);
    LagrangeOne(q, x, r, e);
    assert Lagrange(q, x, a + [r] + b, e) == la * f * lb;
    var inv, d := Invert(q, Sub(q, r, x)), Sub(q, r, x);
    EqmMod(q, r - x);
    if d == 0 {
      EqmSym(q, 0, r - x);
      EqmBySum(q, x, r);
    }
    InvertCorrect(q, d);
    EqmSym(q, d, r - x);
    EqmRefl(q, inv);
    EqmMul(q, r - x, d, inv, inv);
    EqmTrans(q, (r - x) * inv, d * inv, 1);
    var m := (e - r) * (la * lb);
    EqmScale(q, m, (r - x) * inv, 1);
    assert (x - r) * (la * f * lb) == m * ((r - x) * inv) by {
      Rearrange(x - r, r - e, inv, la, lb);
      assert f == (r - e) * inv;
      assert (e - r) == -(r - e) && (r - x) == -(x - r);
      NegNeg(r - e, x - r, inv, la * lb);
    }
  }

  lemma LagrangeOne(q: int, x: int, r: int, e: int)
    requires q > 1
    ensures Lagrange(q, x, [r], e) == Factor(q, x, r, e)
  {
    assert [r][..0] == [];
    assert 1 * Factor(q, x, r, e) == Factor(q, x, r, e);
  }

  lemma EqmBySum(q: int, x: int, r: int)
    requires Element(q, x) && Element(q, r) && Eqm(q, r - x, 0)
    ensures x == r
  {
    EqmRefl(q, x);
    EqmAdd(q, r - x, 0, x, x);
    EqmUnique(q, r, x);
  }

  lemma Rearrange(u: int, v: int, w: int, a: int, b: int)
    ensures u * (a * (v * w) * b) == u * v * w * (a * b)
  {
    assert a * (v * w) * b == (v * w) * (a * b);
    assert u * ((v * w) * (a * b)) == (u * (v * w)) * (a * b);
    assert u * (v * w) == u * v * w;
  }

  lemma NegNeg(v: int, u: int, w: int, m: int)
    ensures (-v) * m * ((-u) * w) == u * v * w * m
  {
    assert (-v) * m == -(v * m) && (-u) * w == -(u * w);
    assert (v * m) * (u * w) == u * v * w * m;
  }

  /** The sum weighted by `x - r`. */
  function ShiftSum(q: int, xs: seq<int>, r: int, cs: seq<int>, all: seq<int>, e: int): int
    requires q > 1
  {
    if xs == [] then 0
    else
      var x := xs[|xs| - 1];
      ShiftSum(q, xs[..|xs| - 1], r, cs, all, e) + (x - r) * Poly(cs, x) * Lagrange(q, x, all, e)
  }

  lemma PolyShift(c: int, cs: seq<int>, x: int)
    ensures Poly([c] + cs, x) == c + x * Poly(cs, x)
  {
    assert ([c] + cs)[1..] == cs;
  }

  lemma PolyZero(x: int)
    ensures Poly([], x) == 0
  {
  }

  lemma PolyOne(x: int)
    ensures Poly([1], x) == 1
  {
    assert [1][1..] == [];
    assert Poly([1], x) == 1 + x * 0;
  }

  lemma {:induction false} ShiftSumSplits(q: int, xs: seq<int>, r: int, cs: seq<int>, all: seq<int>, e: int)
    requires q > 1
    ensures ShiftSum(q, xs, r, cs, all, e) == PolySum(q, xs, [0] + cs, all, e) - r * PolySum(q, xs, cs, all, e)
  {
    hide Poly, Lagrange;
    if xs != [] {
      var x, xs' := xs[|xs| - 1], xs[..|xs| - 1];
      ShiftSumSplits(q, xs', r, cs, all, e);
      var l, p := Lagrange(q, x, all, e), Poly(cs, x);
      PolyShift(0, cs, x);
      DistribMinus(p, x, r);
      DistribMinus(l, x * p, r * p);
      Assoc(r, p, l);
      Distrib(r, PolySum(q, xs', cs, all, e), p * l);
    }
  }

  lemma {:induction false} ShiftSumConcat(q: int, a: seq<int>, b: seq<int>, r: int, cs: seq<int>, all: seq<int>, e: int)
    requires q > 1
    ensures ShiftSum(q, a + b, r, cs, all, e) == ShiftSum(q, a, r, cs, all, e) + ShiftSum(q, b, r, cs, all, e)
  {
    if b == [] {
      assert a + b == a;
    } else {
      assert (a + b)[..|a + b| - 1] == a + b[..|b| - 1];
      ShiftSumConcat(q, a, b[..|b| - 1], r, cs, all, e);
    }
  }

  lemma {:induction false} ShiftSumRemoves(q: int, xs: seq<int>, cs: seq<int>, a: seq<int>, r: int, b: seq<int>, e: int)
    requires Prime(q) && Element(q, r) && forall i | 0 <= i < |xs| :: Element(q, xs[i]) && xs[i] != r
    ensures Eqm(q, ShiftSum(q, xs, r, cs, a + [r] + b, e), (e - r) * PolySum(q, xs, cs, a + b, e))
  {
    hide Poly, Lagrange;
    if xs == [] {
      assert (e - r) * 0 == 0;
      EqmRefl(q, 0);
    } else {
      var x, xs' := xs[|xs| - 1], xs[..|xs| - 1];
      ShiftSumRemoves(q, xs', cs, a, r, b, e);
      RemovePoint(q, x, a, r, b, e);
      var p, l, l' := Poly(cs, x), Lagrange(q, x, a + [r] + b, e), Lagrange(q, x, a + b, e);
      EqmScale(q, p, (x - r) * l, (e - r) * l');
      Swap(p, x - r, l);
      Assoc(x - r, p, l);
      Swap(p, e - r, l');
      var s, s' := ShiftSum(q, xs', r, cs, a + [r] + b, e), PolySum(q, xs', cs, a + b, e);
      EqmAdd(q, s, (e - r) * s', (x - r) * p * l, (e - r) * (p * l'));
      Distrib(e - r, s', p * l');
    }
  }

  /** Removing the point `r`: `sum x*P(x)*L(x) - r * sum P(x)*L(x)` is `(e - r)` times the sum over
      the remaining points. */
  lemma RemovalIdentity(q: int, a: seq<int>, r: int, b: seq<int>, cs: seq<int>, e: int)
    requires Prime(q) && Points(q, a + [r] + b)
    ensures var all := a + [r] + b;
            Eqm(q, PolySum(q, all, [0] + cs, all, e) - r * PolySum(q, all, cs, all, e),
                (e - r) * PolySum(q, a + b, cs, a + b, e))
  {
    hide Poly, Lagrange, PolySum, ShiftSum, Eqm;
    var all := a + [r] + b;
    assert all[|a|] == r;
    ShiftSumSplits(q, all, r, cs, all, e);
    ShiftSumConcat(q, a + [r], b, r, cs, all, e);
    ShiftSumConcat(q, a, [r], r, cs, all, e);
    ShiftSumConcat(q, a, b, r, cs, all, e);
    ShiftSumAtPoint(q, r, cs, all, e);
    forall i | 0 <= i < |a + b|
      ensures Element(q, (a + b)[i]) && (a + b)[i] != r
    {
      if i < |a| {
        assert all[i] == (a + b)[i];
      } else {
        assert all[i + 1] == (a + b)[i];
      }
    }
    ShiftSumRemoves(q, a + b, cs, a, r, b, e);
  }

  lemma ShiftSumAtPoint(q: int, r: int, cs: seq<int>, all: seq<int>, e: int)
    requires q > 1
    ensures ShiftSum(q, [r], r, cs, all, e) == 0
  {
    assert [r][..0] == [];
    assert (r - r) * Poly(cs, r) * Lagrange(q, r, all, e) == 0 * Lagrange(q, r, all, e);
  }

  // ----- exactness -----

  lemma CancelStep(q: int, d: int, i: int, x: int, y: int)
    requires Eqm(q, d * i, 1) && Eqm(q, d * x, d * y)
    ensures Eqm(q, x, y)
  {
    EqmScale(q, i, d * x, d * y);
    EqmScale(q, x, d * i, 1);
    EqmScale(q, y, d * i, 1);
    SwapLast(i, d, x);
    SwapLast(i, d, y);
    EqmSym(q, x * (d * i), x);
    EqmTrans(q, x, x * (d * i), y * (d * i));
    EqmTrans(q, x, y * (d * i), y);
  }

  lemma EqmCancel(q: int, d: int, x: int, y: int)
    requires Prime(q) && d % q != 0 && Eqm(q, d * x, d * y)
    ensures Eqm(q, x, y)
  {
    var i := Invert(q, d % q);
    InvertCorrect(q, d % q);
    EqmMod(q, d);
    EqmSym(q, d % q, d);
    EqmRefl(q, i);
    EqmMul(q, d, d % q, i, i);
    EqmTrans(q, d * i, d % q * i, 1);
    CancelStep(q, d, i, x, y);
  }

  lemma TwoRemovals(q: int, e: int, x0: int, x1: int, s: int, t: int, t0: int, t1: int)
    requires Prime(q) && (x1 - x0) % q != 0 && Eqm(q, t0, 1) && Eqm(q, t1, 1)
    requires Eqm(q, s - x0 * t, (e - x0) * t0) && Eqm(q, s - x1 * t, (e - x1) * t1)
    ensures Eqm(q, t, 1)
  {
    EqmScale(q, e - x0, t0, 1);
    EqmTrans(q, s - x0 * t, (e - x0) * t0, (e - x0) * 1);
    EqmScale(q, e - x1, t1, 1);
    EqmTrans(q, s - x1 * t, (e - x1) * t1, (e - x1) * 1);
    EqmSub(q, s - x0 * t, (e - x0) * 1, s - x1 * t, (e - x1) * 1);
    DistribMinus(t, x1, x0);
    EqmCancel(q, x1 - x0, t, 1);
  }

  /** The coefficients of at least one point sum to one. */
  lemma {:induction false} CoefficientsSumToOne(q: int, pts: seq<int>, e: int)
    requires Prime(q) && Points(q, pts) && |pts| > 0
    ensures Eqm(q, PolySum(q, pts, [1], pts, e), 1)
    decreases |pts|
  {
    hide PolySum;
    var x0 := pts[0];
    if |pts| == 1 {
      assert pts == [x0];
      OnePoint(q, x0, e);
      EqmRefl(q, 1);
    } else {
      var x1 := pts[1];
      var t, s := PolySum(q, pts, [1], pts, e), PolySum(q, pts, [0, 1], pts, e);
      assert [0] + [1] == [0, 1];
      assert pts == [] + [x0] + pts[1..] && pts[1..] == [] + pts[1..];
      RemovalIdentity(q, [], x0, pts[1..], [1], e);
      CoefficientsSumToOne(q, pts[1..], e);
      assert pts == [x0] + [x1] + pts[2..];
      var without1 := [x0] + pts[2..];
      WithoutSecond(q, pts);
      RemovalIdentity(q, [x0], x1, pts[2..], [1], e);
      CoefficientsSumToOne(q, without1, e);
      DistinctDifference(q, x1, x0);
      TwoRemovals(q, e, x0, x1, s, t, PolySum(q, pts[1..], [1], pts[1..], e), PolySum(q, without1, [1], without1, e));
    }
  }

  lemma OnePoint(q: int, x0: int, e: int)
    requires q > 1
    ensures PolySum(q, [x0], [1], [x0], e) == 1
  {
    LagrangeOne(q, x0, x0, e);
    assert [x0][..0] == [] && [1][1..] == [];
    assert Poly([1], x0) == 1 + x0 * 0;
  }

  lemma WithoutSecond(q: int, pts: seq<int>)
    requires Points(q, pts) && |pts| >= 2
    ensures Points(q, [pts[0]] + pts[2..])
  {
    var w := [pts[0]] + pts[2..];
    assert forall i | 1 <= i < |w| :: w[i] == pts[i + 1];
  }

  lemma DistinctDifference(q: int, x: int, y: int)
    requires q > 0 && Element(q, x) && Element(q, y) && x != y
    ensures (x - y) % q != 0
  {
    if (x - y) % q == 0 {
      EqmMod(q, x - y);
      EqmSym(q, 0, x - y);
      EqmBySum(q, y, x);
    }
  }

  lemma {:induction false} SplitConstant(q: int, xs: seq<int>, c: int, cs: seq<int>, all: seq<int>, e: int)
    requires q > 1
    ensures PolySum(q, xs, [c] + cs, all, e) == c * PolySum(q, xs, [1], all, e) + PolySum(q, xs, [0] + cs, all, e)
  {
    hide Poly, Lagrange;
    if xs == [] {
      assert c * 0 == 0;
    } else {
      var x, xs' := xs[|xs| - 1], xs[..|xs| - 1];
      SplitConstant(q, xs', c, cs, all, e);
      var l, p := Lagrange(q, x, all, e), Poly(cs, x);
      PolyShift(c, cs, x);
      PolyShift(0, cs, x);
      PolyOne(x);
      Distrib(l, c, x * p);
      Distrib(c, PolySum(q, xs', [1], all, e), 1 * l);
    }
  }

  /** Interpolation of a polynomial of degree below the number of points is exact everywhere. */
  lemma {:induction false} PolySumExact(q: int, pts: seq<int>, cs: seq<int>, e: int)
    requires Prime(q) && Points(q, pts) && |cs| <= |pts|
    ensures Eqm(q, PolySum(q, pts, cs, pts, e), Poly(cs, e))
    decreases |pts|, |cs|
  {
    hide PolySum, Poly;
    if cs == [] {
      ZeroSum(q, pts, pts, e);
      PolyZero(e);
      EqmRefl(q, 0);
    } else {
      var c, cs', x0, rest := cs[0], cs[1..], pts[0], pts[1..];
      assert cs == [c] + cs' && pts == [] + [x0] + rest && rest == [] + rest;
      SplitConstant(q, pts, c, cs', pts, e);
      CoefficientsSumToOne(q, pts, e);
      RemovalIdentity(q, [], x0, rest, cs', e);
      PolySumExact(q, pts, cs', e);
      PolySumExact(q, rest, cs', e);
      var t, s, s0, s1 := PolySum(q, pts, [1], pts, e), PolySum(q, pts, [0] + cs', pts, e),
                          PolySum(q, pts, cs', pts, e), PolySum(q, rest, cs', rest, e);
      ExactStep(q, c, e, x0, t, s, s0, s1, Poly(cs', e));
      PolyShift(c, cs', e);
    }
  }

  lemma ExactStep(q: int, c: int, e: int, x0: int, t: int, s: int, s0: int, s1: int, p: int)
    requires Eqm(q, t, 1) && Eqm(q, s - x0 * s0, (e - x0) * s1) && Eqm(q, s0, p) && Eqm(q, s1, p)
    ensures Eqm(q, c * t + s, c + e * p)
  {
    EqmScale(q, e - x0, s1, p);
    EqmTrans(q, s - x0 * s0, (e - x0) * s1, (e - x0) * p);
    EqmScale(q, x0, s0, p);
    EqmAdd(q, s - x0 * s0, (e - x0) * p, x0 * s0, x0 * p);
    DistribMinus(p, e, x0);
    EqmScale(q, c, t, 1);
    EqmAdd(q, c * t, c * 1, s, e * p);
  }

  lemma {:induction false} ZeroSum(q: int, xs: seq<int>, all: seq<int>, e: int)
    requires q > 1
    ensures PolySum(q, xs, [], all, e) == 0
  {
    if xs != [] {
      ZeroSum(q, xs[..|xs| - 1], all, e);
      assert 0 * Lagrange(q, xs[|xs| - 1], all, e) == 0;
    }
  }

  /** `interpolate_at` is exact for every polynomial of degree below the number of distinct points. */
  lemma InterpolationExact(q: int, pts: seq<int>, evals: seq<int>, cs: seq<int>, e: int)
    requires Prime(q) && Points(q, pts) && |evals| == |pts| && |cs| <= |pts|
    requires forall i | 0 <= i < |pts| :: Eqm(q, evals[i], Poly(cs, pts[i]))
    ensures InterpolateAt(q, pts, evals, e) == Poly(cs, e) % q
  {
    FoldIsPolySum(q, pts, evals, cs, pts, e);
    PolySumExact(q, pts, cs, e);
    EqmTrans(q, InterpolateAt(q, pts, evals, e), PolySum(q, pts, cs, pts, e), Poly(cs, e));
    EqmReduced(q, InterpolateAt(q, pts, evals, e), Poly(cs, e));
    assert 0 <= InterpolateAt(q, pts, evals, e) < q;
    SmallMod(q, InterpolateAt(q, pts, evals, e));
  }

  lemma SmallMod(q: int, x: int)
    requires Element(q, x)
    ensures x % q == x
  {
  }

  // ----- reconstruction from three shares -----

  predicate OnLine(q: int, x: int, y: int, secret: int, slope: int)
    requires q > 0
  {
    y == (secret + slope * x) % q
  }

  /** The same up to congruence. */
  ghost predicate NearLine(q: int, x: int, y: int, secret: int, slope: int) {
    Eqm(q, y, secret + slope * x)
  }

  /** The values lie on one line with the given value at zero. */
  predicate Line(q: int, pts: seq<int>, ys: seq<int>, secret: int, slope: int)
    requires q > 0 && |pts| == |ys|
  {
    forall i | 0 <= i < |pts| :: OnLine(q, pts[i], ys[i], secret, slope)
  }

  ghost predicate Collinear(q: int, pts: seq<int>, ys: seq<int>)
    requires q > 0 && |pts| == |ys|
  {
    exists secret: int, slope: int :: Line(q, pts, ys, secret, slope)
  }

  /** The source's choice of interpolation points: the party's own and its predecessor's. */
  function ReconstructShare(q: int, share: int, shareNext: int, sharePrev: int, pts: seq<int>, id: nat): Option<int>
    requires q > 1 && |pts| == 3
  {
    if id > 2 then None
    else
      var own, prev, next := pts[id], pts[(id + 2) % 3], pts[(id + 1) % 3];
      if shareNext != InterpolateAt(q, [own, prev], [share, sharePrev], next) then None
      else Some(InterpolateAt(q, [own, prev], [share, sharePrev], 0))
  }

  /** Party `id`'s reconstruction from its own and its neighbours' values. */
  function PartyReconstruct(q: int, ys: seq<int>, pts: seq<int>, id: nat): Option<int>
    requires q > 1 && |pts| == 3 && |ys| == 3 && id < 3
  {
    ReconstructShare(q, ys[id], ys[(id + 1) % 3], ys[(id + 2) % 3], pts, id)
  }

  lemma TwoPoints(q: int, x: int, y: int, u: int, v: int, secret: int, slope: int, e: int)
    requires Prime(q) && Points(q, [x, y]) && Eqm(q, u, secret + slope * x) && Eqm(q, v, secret + slope * y)
    ensures InterpolateAt(q, [x, y], [u, v], e) == (secret + slope * e) % q
  {
    LinearPoly(secret, slope, x);
    LinearPoly(secret, slope, y);
    LinearPoly(secret, slope, e);
    InterpolationExact(q, [x, y], [u, v], [secret, slope], e);
  }

  lemma LinearPoly(secret: int, slope: int, x: int)
    ensures Poly([secret, slope], x) == secret + slope * x
  {
    assert [secret, slope][1..] == [slope] && [slope][1..] == [];
    assert Poly([slope], x) == slope + x * 0;
    assert slope * x == x * slope;
  }

  /** Through two distinct points there is a line. */
  lemma LineThrough(q: int, x: int, y: int, u: int, v: int) returns (secret: int, slope: int)
    requires Prime(q) && Points(q, [x, y]) && Element(q, u) && Element(q, v)
    ensures Eqm(q, u, secret + slope * x) && Eqm(q, v, secret + slope * y)
  {
    assert [x, y][0] != [x, y][1];
    DistinctDifference(q, y, x);
    var d := (y - x) % q;
    var i := Invert(q, d);
    InvertCorrect(q, d);
    slope := (v - u) * i;
    secret := u - slope * x;
    EqmRefl(q, u);
    EqmMod(q, y - x);
    EqmSym(q, d, y - x);
    EqmRefl(q, i);
    EqmMul(q, y - x, d, i, i);
    EqmTrans(q, (y - x) * i, d * i, 1);
    EqmScale(q, v - u, (y - x) * i, 1);
    EqmRefl(q, u);
    EqmAdd(q, (v - u) * ((y - x) * i), (v - u) * 1, u, u);
    SlopeStep(u, v, x, y, i);
    EqmSym(q, secret + slope * y, v);
  }

  lemma SlopeStep(u: int, v: int, x: int, y: int, i: int)
    ensures u - (v - u) * i * x + (v - u) * i * y == (v - u) * ((y - x) * i) + u
  {
    var s := (v - u) * i;
    DistribMinus(s, y, x);
    SwapLast(v - u, y - x, i);
    assert i * ((y - x) * (v - u)) == (y - x) * ((v - u) * i) by { SwapLast(i, y - x, v - u); SwapLast(y - x, v - u, i); }
  }

  /** Any party reconstructs exactly when the three values lie on one line, and then gets the
      line's value at zero: all parties get the same answer. */
  lemma ReconstructIffCollinear(q: int, pts: seq<int>, ys: seq<int>, id: nat)
    requires Prime(q) && |pts| == |ys| == 3 && Points(q, pts) && id < 3
    requires forall i | 0 <= i < 3 :: Element(q, ys[i])
    ensures PartyReconstruct(q, ys, pts, id).Some? <==> Collinear(q, pts, ys)
    ensures forall secret: int, slope: int | Line(q, pts, ys, secret, slope) ::
      PartyReconstruct(q, ys, pts, id) == Some(secret % q)
  {
    var p, n := (id + 2) % 3, (id + 1) % 3;
    assert Points(q, [pts[id], pts[p]]);
    forall secret: int, slope: int | Line(q, pts, ys, secret, slope)
      ensures PartyReconstruct(q, ys, pts, id) == Some(secret % q)
    {
      LineReconstructs(q, pts, ys, id, secret, slope);
    }
    if PartyReconstruct(q, ys, pts, id).Some? {
      var secret, slope := LineThrough(q, pts[id], pts[p], ys[id], ys[p]);
      TwoPoints(q, pts[id], pts[p], ys[id], ys[p], secret, slope, pts[n]);
      EqmReduced(q, ys[id], secret + slope * pts[id]);
      EqmReduced(q, ys[p], secret + slope * pts[p]);
      SmallMod(q, ys[id]);
      SmallMod(q, ys[p]);
      assert Line(q, pts, ys, secret, slope);
    }
  }

  lemma LineReconstructs(q: int, pts: seq<int>, ys: seq<int>, id: nat, secret: int, slope: int)
    requires Prime(q) && |pts| == |ys| == 3 && Points(q, pts) && id < 3 && Line(q, pts, ys, secret, slope)
    ensures PartyReconstruct(q, ys, pts, id) == Some(secret % q)
  {
    var p, n := (id + 2) % 3, (id + 1) % 3;
    assert Points(q, [pts[id], pts[p]]);
    assert OnLine(q, pts[id], ys[id], secret, slope) && OnLine(q, pts[p], ys[p], secret, slope);
    EqmMod(q, secret + slope * pts[id]);
    EqmMod(q, secret + slope * pts[p]);
    TwoPoints(q, pts[id], pts[p], ys[id], ys[p], secret, slope, pts[n]);
    TwoPoints(q, pts[id], pts[p], ys[id], ys[p], secret, slope, 0);
    assert slope * 0 == 0;
  }

  // ----- masking with a replicated sharing -----

  /** `(j - m) / (-m)`: one at zero, zero at `m`. */
  function PairFactor(q: int, j: int, m: int): int
    requires q > 1
  {
    Mul(q, Sub(q, j, m), Invert(q, Neg(q, m)))
  }

  function RssPairToShamir(q: int, prev: int, next: int, id: nat, pts: seq<int>): int
    requires q > 1 && |pts| == 3 && id < 3
  {
    if id == 0 then
      Add(q, Mul(q, next, PairFactor(q, pts[0], pts[2])), Mul(q, prev, PairFactor(q, pts[0], pts[1])))
    else if id == 1 then
      Add(q, Mul(q, prev, PairFactor(q, pts[1], pts[2])), Mul(q, next, PairFactor(q, pts[1], pts[0])))
    else
      Add(q, Mul(q, next, PairFactor(q, pts[2], pts[1])), Mul(q, prev, PairFactor(q, pts[2], pts[0])))
  }

  function FinalizeShamirToRss(q: int, padded: int, rPrev: int, rNext: int, id: nat): (int, int)
    requires q > 1 && id < 3
  {
    if id == 0 then (Sub(q, padded, rPrev), Neg(q, rNext))
    else if id == 1 then (Neg(q, rPrev), Neg(q, rNext))
    else (Neg(q, rPrev), Sub(q, padded, rNext))
  }

  /** Party `i` holds `r[i]` as next and `r[i - 1]` as prev. */
  function PrevOf<T>(r: seq<T>, id: nat): T
    requires |r| == 3 && id < 3
  {
    r[(id + 2) % 3]
  }

  lemma PairFactorLinear(q: int, j: int, m: int)
    requires Prime(q) && Element(q, m) && m != 0
    ensures Eqm(q, PairFactor(q, j, m), 1 + j * Invert(q, Neg(q, m)))
    ensures Eqm(q, 1 + m * Invert(q, Neg(q, m)), 0)
  {
    var d, n := Neg(q, m), Invert(q, Neg(q, m));
    assert d == q - m by {
      EqmBy(q, -m, q - m, -1);
      EqmReduced(q, -m, q - m);
      SmallMod(q, q - m);
    }
    InvertCorrect(q, d);
    EqmMod(q, -m);
    EqmSym(q, d, -m);
    EqmRefl(q, n);
    EqmMul(q, -m, d, n, n);
    EqmTrans(q, (-m) * n, d * n, 1);
    EqmRefl(q, m * n);
    EqmSym(q, (-m) * n, 1);
    EqmAdd(q, 1, (-m) * n, m * n, m * n);
    assert (-m) * n + m * n == 0;
    EqmRefl(q, j * n);
    EqmAdd(q, (-m) * n, 1, j * n, j * n);
    EqmMod(q, j - m);
    EqmMul(q, Sub(q, j, m), j - m, n, n);
    EqmMod(q, Sub(q, j, m) * n);
    DistribMinus(n, j, m);
    EqmTrans(q, PairFactor(q, j, m), Sub(q, j, m) * n, (j - m) * n);
    assert (-m) * n + j * n == (j - m) * n;
    EqmTrans(q, PairFactor(q, j, m), (j - m) * n, 1 + j * n);
  }

  /** One party's masked value: its two shares weighted by linear factors. */
  lemma TwoTerms(q: int, a: int, fa: int, ia: int, b: int, fb: int, ib: int, c: int, ic: int)
    requires q > 1 && Eqm(q, fa, ia) && Eqm(q, fb, ib) && Eqm(q, ic, 0)
    ensures Eqm(q, Add(q, Mul(q, a, fa), Mul(q, b, fb)), a * ia + b * ib + c * ic)
  {
    EqmScale(q, a, fa, ia);
    EqmScale(q, b, fb, ib);
    EqmMod(q, a * fa);
    EqmMod(q, b * fb);
    EqmTrans(q, Mul(q, a, fa), a * fa, a * ia);
    EqmTrans(q, Mul(q, b, fb), b * fb, b * ib);
    EqmAdd(q, Mul(q, a, fa), a * ia, Mul(q, b, fb), b * ib);
    EqmMod(q, Mul(q, a, fa) + Mul(q, b, fb));
    EqmTrans(q, Add(q, Mul(q, a, fa), Mul(q, b, fb)), Mul(q, a, fa) + Mul(q, b, fb), a * ia + b * ib);
    EqmScale(q, c, ic, 0);
    assert c * 0 == 0;
    EqmSym(q, c * ic, 0);
    EqmAdd(q, Add(q, Mul(q, a, fa), Mul(q, b, fb)), a * ia + b * ib, 0, c * ic);
  }

  lemma LineOfThree(a: int, na: int, b: int, nb: int, c: int, nc: int, x: int)
    ensures a * (1 + x * na) + b * (1 + x * nb) + c * (1 + x * nc) == (a + b + c) + (a * na + b * nb + c * nc) * x
  {
    Distrib(a, 1, x * na);
    Distrib(b, 1, x * nb);
    Distrib(c, 1, x * nc);
    Swap(a, x, na);
    Swap(b, x, nb);
    Swap(c, x, nc);
    Distrib(x, a * na + b * nb, c * nc);
    Distrib(x, a * na, b * nb);
    assert x * (a * na) == (a * na) * x && x * (b * nb) == (b * nb) * x && x * (c * nc) == (c * nc) * x;
  }

  /** The masks of the three parties are a Shamir sharing of `r[0] + r[1] + r[2]`. */
  lemma MasksOnALine(q: int, pts: seq<int>, r: seq<int>) returns (slope: int)
    requires Prime(q) && |pts| == |r| == 3 && Points(q, pts) && forall i | 0 <= i < 3 :: pts[i] != 0
    ensures forall i | 0 <= i < 3 ::
      NearLine(q, pts[i], RssPairToShamir(q, PrevOf(r, i), r[i], i, pts), r[0] + r[1] + r[2], slope)
  {
    var n0, n1, n2 := Invert(q, Neg(q, pts[0])), Invert(q, Neg(q, pts[1])), Invert(q, Neg(q, pts[2]));
    slope := r[0] * n2 + r[1] * n0 + r[2] * n1;
    forall i | 0 <= i < 3
      ensures NearLine(q, pts[i], RssPairToShamir(q, PrevOf(r, i), r[i], i, pts), r[0] + r[1] + r[2], slope)
    {
      var x := pts[i];
      PairFactorLinear(q, x, pts[0]);
      PairFactorLinear(q, x, pts[1]);
      PairFactorLinear(q, x, pts[2]);
      LineOfThree(r[0], n2, r[1], n0, r[2], n1, x);
      if i == 0 {
        TwoTerms(q, r[0], PairFactor(q, x, pts[2]), 1 + x * n2, r[2], PairFactor(q, x, pts[1]), 1 + x * n1, r[1], 1 + x * n0);
      } else if i == 1 {
        TwoTerms(q, r[0], PairFactor(q, x, pts[2]), 1 + x * n2, r[1], PairFactor(q, x, pts[0]), 1 + x * n0, r[2], 1 + x * n1);
      } else {
        TwoTerms(q, r[2], PairFactor(q, x, pts[1]), 1 + x * n1, r[1], PairFactor(q, x, pts[0]), 1 + x * n0, r[0], 1 + x * n2);
      }
    }
  }

  /** Party `i`'s masked Shamir share. */
  function Padded(q: int, shares: seq<int>, r: seq<int>, pts: seq<int>, i: nat): (y: int)
    requires q > 1 && |shares| == |r| == |pts| == 3 && i < 3
    ensures Element(q, y)
  {
    Add(q, shares[i], RssPairToShamir(q, PrevOf(r, i), r[i], i, pts))
  }

  function PaddedAll(q: int, shares: seq<int>, r: seq<int>, pts: seq<int>): (ys: seq<int>)
    requires q > 1 && |shares| == |r| == |pts| == 3
    ensures |ys| == 3
  {
    [Padded(q, shares, r, pts, 0), Padded(q, shares, r, pts, 1), Padded(q, shares, r, pts, 2)]
  }

  /** Masking a sharing of `secret` gives a sharing of `secret` plus the masks. */
  lemma PaddedOnALine(q: int, pts: seq<int>, shares: seq<int>, r: seq<int>, secret: int, slope: int)
    returns (paddedSlope: int)
    requires Prime(q) && |pts| == |r| == |shares| == 3 && Points(q, pts) && forall i | 0 <= i < 3 :: pts[i] != 0
    requires Line(q, pts, shares, secret, slope)
    ensures Line(q, pts, PaddedAll(q, shares, r, pts), secret + (r[0] + r[1] + r[2]), paddedSlope)
  {
    var m := MasksOnALine(q, pts, r);
    hide RssPairToShamir, Add, PrevOf, OnLine, NearLine;
    var sum := r[0] + r[1] + r[2];
    paddedSlope := slope + m;
    var ys := PaddedAll(q, shares, r, pts);
    forall i | 0 <= i < 3
      ensures OnLine(q, pts[i], ys[i], secret + sum, paddedSlope)
    {
      assert ys[i] == Padded(q, shares, r, pts, i);
      PaddedAt(q, shares[i], RssPairToShamir(q, PrevOf(r, i), r[i], i, pts), pts[i], secret, slope, sum, m);
    }
  }

  lemma PaddedAt(q: int, share: int, mask: int, x: int, secret: int, slope: int, sum: int, m: int)
    requires q > 1 && OnLine(q, x, share, secret, slope) && NearLine(q, x, mask, sum, m)
    ensures OnLine(q, x, Add(q, share, mask), secret + sum, slope + m)
  {
    EqmMod(q, secret + slope * x);
    EqmAdd(q, share, secret + slope * x, mask, sum + m * x);
    Distrib(x, slope, m);
    EqmReduced(q, share + mask, secret + sum + (slope + m) * x);
  }

  /** From shares on one line and any replicated masks, every party reconstructs the same padded
      value, and the finalized shares are a cyclically consistent replicated sharing of the secret. */
  lemma ShamirToRss(q: int, pts: seq<int>, shares: seq<int>, r: seq<int>, secret: int, slope: int)
    requires Prime(q) && |pts| == |r| == |shares| == 3 && Points(q, pts) && forall i | 0 <= i < 3 :: pts[i] != 0
    requires Line(q, pts, shares, secret, slope)
    ensures var padded := (secret + (r[0] + r[1] + r[2])) % q;
            (forall i | 0 <= i < 3 :: PartyReconstruct(q, PaddedAll(q, shares, r, pts), pts, i) == Some(padded)) &&
            var (prev0, next0) := FinalizeShamirToRss(q, padded, PrevOf(r, 0), r[0], 0);
            var (prev1, next1) := FinalizeShamirToRss(q, padded, PrevOf(r, 1), r[1], 1);
            var (prev2, next2) := FinalizeShamirToRss(q, padded, PrevOf(r, 2), r[2], 2);
            next0 == prev1 && next1 == prev2 && next2 == prev0 && (next0 + next1 + next2) % q == secret % q
  {
    var paddedSlope := PaddedOnALine(q, pts, shares, r, secret, slope);
    forall i | 0 <= i < 3
      ensures PartyReconstruct(q, PaddedAll(q, shares, r, pts), pts, i) == Some((secret + (r[0] + r[1] + r[2])) % q)
    {
      LineReconstructs(q, pts, PaddedAll(q, shares, r, pts), i, secret + (r[0] + r[1] + r[2]), paddedSlope);
    }
    SharesSum(q, secret, r[0], r[1], r[2]);
  }

  lemma SharesSum(q: int, secret: int, a: int, b: int, c: int)
    requires q > 1
    ensures (Neg(q, a) + Neg(q, b) + Sub(q, (secret + (a + b + c)) % q, c)) % q == secret % q
  {
    var padded := (secret + (a + b + c)) % q;
    EqmMod(q, -a);
    EqmMod(q, -b);
    EqmMod(q, secret + (a + b + c));
    EqmRefl(q, c);
    EqmSub(q, padded, secret + (a + b + c), c, c);
    EqmMod(q, padded - c);
    EqmTrans(q, Sub(q, padded, c), padded - c, secret + (a + b + c) - c);
    EqmAdd(q, Neg(q, a), -a, Neg(q, b), -b);
    EqmAdd(q, Neg(q, a) + Neg(q, b), -a + -b, Sub(q, padded, c), secret + (a + b + c) - c);
    EqmReduced(q, Neg(q, a) + Neg(q, b) + Sub(q, padded, c), secret);
  }
}
