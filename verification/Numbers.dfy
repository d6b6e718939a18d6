/** Little-endian bit strings as numbers, and the carries of binary addition. */
module Numbers {
  function Bit(b: bool): nat {
    if b then 1 else 0
  }

  function Pow2(n: nat): (r: nat)
    ensures r > 0
  {
    if n == 0 then 1 else 2 * Pow2(n - 1)
  }

  /** What bit `b` adds at position `n`. */
  function Weight(n: nat, b: bool): nat {
    if b then Pow2(n) else 0
  }

  function Num(bits: seq<bool>): nat {
    if bits == [] then 0 else Bit(bits[0]) + 2 * Num(bits[1..])
  }

  lemma {:induction false} NumAppend(a: seq<bool>, b: seq<bool>)
    ensures Num(a + b) == Num(a) + Pow2(|a|) * Num(b)
  {
    if a == [] {
      assert a + b == b;
    } else {
      assert (a + b)[1..] == a[1..] + b;
      NumAppend(a[1..], b);
      MulAssoc(2, Pow2(|a| - 1), Num(b));
    }
  }

  lemma {:induction false} NumSnoc(a: seq<bool>, b: bool)
    ensures Num(a + [b]) == Num(a) + Weight(|a|, b)
  {
    if a == [] {
      assert (a + [b])[1..] == [];
    } else {
      assert (a + [b])[1..] == a[1..] + [b];
      NumSnoc(a[1..], b);
    }
  }

  lemma {:induction false} NumBound(a: seq<bool>)
    ensures Num(a) < Pow2(|a|)
  {
    if a != [] {
      NumBound(a[1..]);
    }
  }

  lemma {:induction false} NumInjective(a: seq<bool>, b: seq<bool>)
    requires |a| == |b| && Num(a) == Num(b)
    ensures a == b
  {
    if a != [] {
      assert a[0] == b[0] && Num(a[1..]) == Num(b[1..]);
      NumInjective(a[1..], b[1..]);
      assert a == [a[0]] + a[1..] && b == [b[0]] + b[1..];
    }
  }

  lemma {:induction false} Pow2Add(a: nat, b: nat)
    ensures Pow2(a + b) == Pow2(a) * Pow2(b)
  {
    if a > 0 {
      Pow2Add(a - 1, b);
      assert Pow2(a + b) == 2 * Pow2(a - 1 + b);
      assert 2 * (Pow2(a - 1) * Pow2(b)) == (2 * Pow2(a - 1)) * Pow2(b);
    }
  }

  lemma {:induction false} Pow2Monotone(a: nat, b: nat)
    requires a <= b
    ensures Pow2(a) <= Pow2(b)
  {
    if a < b {
      Pow2Monotone(a, b - 1);
    }
  }

  /** The low bits of a number given by more bits. */
  lemma NumTake(a: seq<bool>, n: nat)
    requires n <= |a|
    ensures Num(a[..n]) == Num(a) % Pow2(n)
  {
    NumAppend(a[..n], a[n..]);
    assert a[..n] + a[n..] == a;
    NumBound(a[..n]);
    ModUnique(Num(a), Pow2(n), Num(a[n..]), Num(a[..n]));
  }

  lemma ModUnique(x: nat, m: nat, q: nat, r: nat)
    requires m > 0 && r < m && x == r + m * q
    ensures x % m == r && x / m == q
  {
    var k := DivMod(x, m);
    QuotientUnique(x, m, q, r, k, x % m);
  }

  lemma QuotientUnique(x: int, m: int, q: int, r: int, q': int, r': int)
    requires 0 <= r < m && 0 <= r' < m && x == r + m * q && x == r' + m * q'
    ensures q == q' && r == r'
  {
    MulDistrib(m, q', -q);
    assert m * (q' - q) == r - r';
    SmallMultiple(m, q' - q, r - r');
  }

  /** `m * (x / m)` and `x % m` as plain numbers, to keep division out of what follows. */
  lemma DivMod(x: int, m: int) returns (k: int)
    requires m > 0
    ensures x == m * k + x % m && k == x / m && 0 <= x % m < m && (x >= 0 ==> k >= 0)
  {
    k := x / m;
  }

  lemma MulAssoc(a: int, b: int, c: int)
    ensures a * (b * c) == (a * b) * c
  {
  }

  lemma MulDistrib(a: int, b: int, c: int)
    ensures a * (b + c) == a * b + a * c
  {
  }

  lemma MulMono(m: int, a: int, b: int)
    requires 0 <= m && a <= b
    ensures m * a <= m * b
  {
  }

  lemma SmallMultiple(m: int, d: int, r: int)
    requires m > 0 && -m < r < m && m * d == r
    ensures d == 0
  {
    if d >= 1 {
      MulMono(m, 1, d);
    } else if d <= -1 {
      MulMono(m, d, -1);
    }
  }

  /** Numbers of high and low parts compare by the high part first. */
  lemma CompareParts(x: seq<bool>, y: seq<bool>, m: nat)
    requires |x| == |y| && m <= |x|
    ensures Num(x) >= Num(y) <==>
      if x[m..] != y[m..] then Num(x[m..]) >= Num(y[m..]) else Num(x[..m]) >= Num(y[..m])
    ensures x != y <==> x[m..] != y[m..] || x[..m] != y[..m]
  {
    assert x == x[..m] + x[m..] && y == y[..m] + y[m..];
    NumAppend(x[..m], x[m..]);
    NumAppend(y[..m], y[m..]);
    NumBound(x[..m]);
    NumBound(y[..m]);
    PartsCompare(Pow2(m), Num(x[..m]), Num(x[m..]), Num(y[..m]), Num(y[m..]));
    if x[m..] != y[m..] && Num(x[m..]) == Num(y[m..]) {
      NumInjective(x[m..], y[m..]);
    }
  }

  lemma PartsCompare(p: nat, xl: nat, xh: nat, yl: nat, yh: nat)
    requires xl < p && yl < p
    ensures xl + p * xh >= yl + p * yh <==> xh > yh || (xh == yh && xl >= yl)
  {
    if xh > yh {
      MulMono(p, yh + 1, xh);
    } else if xh < yh {
      MulMono(p, xh + 1, yh);
    }
  }

  // ----- addition -----

  /** Carry out of positions `lo..i` of `x + y`, nothing coming in at `lo`. */
  function Gen(x: seq<bool>, y: seq<bool>, lo: nat, i: int): bool
    requires |x| == |y| && i < |x|
    decreases i + 1
  {
    if i < lo then false
    else (x[i] && y[i]) || (x[i] != y[i] && Gen(x, y, lo, i - 1))
  }

  /** A carry into position `lo` travels through to position `i`. */
  function Prop(x: seq<bool>, y: seq<bool>, lo: nat, i: int): bool
    requires |x| == |y| && i < |x|
    decreases i + 1
  {
    if i < lo then true
    else x[i] != y[i] && Prop(x, y, lo, i - 1)
  }

  /** Carries compose over adjacent ranges `lo..m` and `m + 1..i`. */
  lemma {:induction false} PrefixCompose(x: seq<bool>, y: seq<bool>, lo: nat, m: nat, i: nat)
    requires |x| == |y| && lo <= m + 1 && m <= i < |x|
    ensures Gen(x, y, lo, i) == (Gen(x, y, m + 1, i) || (Prop(x, y, m + 1, i) && Gen(x, y, lo, m)))
    ensures Prop(x, y, lo, i) == (Prop(x, y, m + 1, i) && Prop(x, y, lo, m))
    decreases i
  {
    if m < i {
      PrefixCompose(x, y, lo, m, i - 1);
    }
  }

  /** Sum bits of the first `n` positions. */
  function SumBits(x: seq<bool>, y: seq<bool>, n: nat): (r: seq<bool>)
    requires |x| == |y| && n <= |x|
    ensures |r| == n
  {
    seq(n, i requires 0 <= i < n => (x[i] != y[i]) != Gen(x, y, 0, i - 1))
  }

  lemma {:induction false} SumBitsCorrect(x: seq<bool>, y: seq<bool>, n: nat)
    requires |x| == |y| && n <= |x|
    ensures Num(SumBits(x, y, n)) + Weight(n, Gen(x, y, 0, n - 1)) == Num(x[..n]) + Num(y[..n])
  {
    if n > 0 {
      SumBitsCorrect(x, y, n - 1);
      var k := n - 1;
      assert SumBits(x, y, n) == SumBits(x, y, k) + [(x[k] != y[k]) != Gen(x, y, 0, k - 1)];
      assert x[..n] == x[..k] + [x[k]] && y[..n] == y[..k] + [y[k]];
      NumSnoc(SumBits(x, y, k), (x[k] != y[k]) != Gen(x, y, 0, k - 1));
      NumSnoc(x[..k], x[k]);
      NumSnoc(y[..k], y[k]);
    }
  }

  /** The sum bits followed by the last carry are the sum. */
  lemma AdderCorrect(x: seq<bool>, y: seq<bool>)
    requires |x| == |y|
    ensures Num(SumBits(x, y, |x|) + [Gen(x, y, 0, |x| - 1)]) == Num(x) + Num(y)
  {
    var s, c := SumBits(x, y, |x|), Gen(x, y, 0, |x| - 1);
    SumBitsCorrect(x, y, |x|);
    WholeSlice(x);
    WholeSlice(y);
    NumSnoc(s, c);
  }

  lemma WholeSlice(x: seq<bool>)
    ensures x[..|x|] == x
  {
  }
}
