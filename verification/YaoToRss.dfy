/** From Yao labels of a 256-bit number to a replicated key pair: the arithmetic gadget
    (`crates/hd-migration/src/arith_gadget.rs`) and the three-party protocol around it
    (`crates/hd-migration/src/yao_to_rss.rs`). Points of the prime-order curve group are given by
    their discrete logarithm: the group is Z_q with the generator as 1. */
module YaoToRss {
  import opened Wrappers
  import opened Blocks
  import opened Numbers
  import opened PrimeField
  import opened Shamir

  /** `kdf(index, label)`, a scalar. */
  type Kdf = (nat, Block) -> int

  // ----- the gadget -----

  /** The source's table of `a * 2^i`. */
  function TimesPow2(q: int, a: int, i: nat): int
    requires q > 1
  {
    Mul(q, a, Pow2Mod(q, i))
  }

  function Pow2Mod(q: int, i: nat): int
    requires q > 1
  {
    if i == 0 then 1 else Mul(q, Pow2Mod(q, i - 1), Add(q, 1, 1))
  }

  /** What position `i` adds to `b`. */
  function GadgetB(q: int, kdf: Kdf, f: Block, delta: Block, aui: int, i: nat): int
    requires q > 1
  {
    var hk0, hk1 := kdf(i, f), kdf(i, XorBlocks(f, delta));
    Add(q, Sub(q, 0, hk0), if Lsb(f) then Sub(q, Sub(q, hk0, hk1), aui) else 0)
  }

  function GadgetC(q: int, kdf: Kdf, f: Block, delta: Block, aui: int, i: nat): int
    requires q > 1
  {
    var hk0, hk1 := kdf(i, f), kdf(i, XorBlocks(f, delta));
    Add(q, if Lsb(f) then hk0 else Add(q, hk1, aui), GadgetB(q, kdf, f, delta, aui, i))
  }

  /** `b` and the ciphertexts of the first positions. */
  function GarbleGadgetAfter(q: int, kdf: Kdf, fs: seq<Block>, delta: Block, a: int, n: nat): (seq<int>, int)
    requires q > 1 && n <= |fs|
  {
    if n == 0 then ([], 0)
    else
      var (cvec, b) := GarbleGadgetAfter(q, kdf, fs, delta, a, n - 1);
      var aui := TimesPow2(q, a, n - 1);
      (cvec + [GadgetC(q, kdf, fs[n - 1], delta, aui, n - 1)], Add(q, b, GadgetB(q, kdf, fs[n - 1], delta, aui, n - 1)))
  }

  method GetPubVecTimesA(q: int, a: int, n: nat) returns (out: seq<int>)
    requires q > 1
    ensures |out| == n && forall i | 0 <= i < n :: out[i] == TimesPow2(q, a, i)
  {
    out := [];
    var twopow := 1;
    var two := Add(q, 1, 1);
    for i := 0 to n
      invariant |out| == i && twopow == Pow2Mod(q, i) && forall j | 0 <= j < i :: out[j] == TimesPow2(q, a, j)
    {
      var val := Mul(q, a, twopow);
      twopow := Mul(q, twopow, two);
      out := out + [val];
    }
  }

  method GarbleGadget(q: int, kdf: Kdf, fs: seq<Block>, delta: Block, a: int) returns (cvec: seq<int>, b: int)
    requires q > 1
    ensures (cvec, b) == GarbleGadgetAfter(q, kdf, fs, delta, a, |fs|)
  {
    cvec, b := [], 0;
    var pubTimesA := GetPubVecTimesA(q, a, |fs|);
    for i := 0 to |fs|
      invariant (cvec, b) == GarbleGadgetAfter(q, kdf, fs, delta, a, i)
    {
      var pi := Lsb(fs[i]);
      var hk0, hk1 := kdf(i, fs[i]), kdf(i, XorBlocks(fs[i], delta));
      var aui := pubTimesA[i];
      var bi := Add(q, Sub(q, 0, hk0), if pi then Sub(q, Sub(q, hk0, hk1), aui) else 0);
      b := Add(q, b, bi);
      var ci := Add(q, if pi then hk0 else Add(q, hk1, aui), bi);
      cvec := cvec + [ci];
    }
  }

  function GadgetZ(q: int, kdf: Kdf, c: int, lbl: Block, i: nat): int
    requires q > 1
  {
    if Lsb(lbl) then Sub(q, c, kdf(i, lbl)) else Sub(q, 0, kdf(i, lbl))
  }

  function EvalGadgetAfter(q: int, kdf: Kdf, cvec: seq<int>, labels: seq<Block>, n: nat): int
    requires q > 1 && n <= |cvec| == |labels|
  {
    if n == 0 then 0
    else Add(q, EvalGadgetAfter(q, kdf, cvec, labels, n - 1), GadgetZ(q, kdf, cvec[n - 1], labels[n - 1], n - 1))
  }

  method EvaluateGadget(q: int, kdf: Kdf, cvec: seq<int>, labels: seq<Block>) returns (z: int)
    requires q > 1 && |cvec| == |labels|
    ensures z == EvalGadgetAfter(q, kdf, cvec, labels, |cvec|)
  {
    z := 0;
    for i := 0 to |cvec|
      invariant z == EvalGadgetAfter(q, kdf, cvec, labels, i)
    {
      var hke := kdf(i, labels[i]);
      z := Add(q, z, if Lsb(labels[i]) then Sub(q, cvec[i], hke) else Sub(q, 0, hke));
    }
  }

  /** `a^-1 * (z - b)`; inverting zero panics in the source. */
  function DecodeGadget(q: int, a: int, b: int, z: int): Option<int>
    requires q > 1
  {
    if a == 0 then None else Some(Mul(q, Invert(q, a), Sub(q, z, b)))
  }

  lemma AddEqm(q: int, x: int, y: int)
    requires q > 1
    ensures Eqm(q, Add(q, x, y), x + y)
  {
    EqmMod(q, x + y);
  }

  lemma SubEqm(q: int, x: int, y: int)
    requires q > 1
    ensures Eqm(q, Sub(q, x, y), x - y)
  {
    EqmMod(q, x - y);
  }

  /** One position: the evaluator's term is the garbler's, plus `a * 2^i` when the bit is set. */
  lemma GadgetPosition(q: int, kdf: Kdf, f: Block, delta: Block, aui: int, i: nat, bit: bool)
    requires q > 1 && Lsb(delta)
    ensures Eqm(q, GadgetZ(q, kdf, GadgetC(q, kdf, f, delta, aui, i), Active(f, bit, delta), i),
                GadgetB(q, kdf, f, delta, aui, i) + if bit then aui else 0)
  {
    var hk0, hk1 := kdf(i, f), kdf(i, XorBlocks(f, delta));
    var b, c := GadgetB(q, kdf, f, delta, aui, i), GadgetC(q, kdf, f, delta, aui, i);
    var hke := kdf(i, Active(f, bit, delta));
    ActiveLsb(f, bit, delta);
    GadgetBValue(q, kdf, f, delta, aui, i);
    var bi := if Lsb(f) then -hk1 - aui else -hk0;
    if Lsb(f) != bit {
      var p := if Lsb(f) then hk0 else Add(q, hk1, aui);
      var p' := if Lsb(f) then hk0 else hk1 + aui;
      AddEqm(q, hk1, aui);
      EqmRefl(q, hk0);
      assert Eqm(q, p, p');
      AddEqm(q, p, b);
      EqmRefl(q, b);
      EqmAdd(q, p, p', b, b);
      EqmTrans(q, c, p + b, p' + b);
      EqmRefl(q, hke);
      EqmSub(q, c, p' + b, hke, hke);
      SubEqm(q, c, hke);
      EqmTrans(q, Sub(q, c, hke), c - hke, p' + b - hke);
    } else {
      SubEqm(q, 0, hke);
      var e := if bit then aui else 0;
      assert bi + e == -hke;
      EqmRefl(q, e);
      EqmSym(q, b, bi);
      EqmAdd(q, bi, b, e, e);
      EqmTrans(q, Sub(q, 0, hke), -hke, b + e);
    }
  }

  lemma GadgetBValue(q: int, kdf: Kdf, f: Block, delta: Block, aui: int, i: nat)
    requires q > 1
    ensures Eqm(q, GadgetB(q, kdf, f, delta, aui, i),
                if Lsb(f) then -kdf(i, XorBlocks(f, delta)) - aui else -kdf(i, f))
  {
    var hk0, hk1 := kdf(i, f), kdf(i, XorBlocks(f, delta));
    SubEqm(q, 0, hk0);
    var m, d := Sub(q, 0, hk0), Sub(q, hk0, hk1);
    if Lsb(f) {
      SubEqm(q, hk0, hk1);
      EqmRefl(q, aui);
      EqmSub(q, d, hk0 - hk1, aui, aui);
      SubEqm(q, d, aui);
      EqmTrans(q, Sub(q, d, aui), d - aui, hk0 - hk1 - aui);
      EqmAdd(q, m, -hk0, Sub(q, d, aui), hk0 - hk1 - aui);
      AddEqm(q, m, Sub(q, d, aui));
      EqmTrans(q, Add(q, m, Sub(q, d, aui)), m + Sub(q, d, aui), -hk1 - aui);
    } else {
      AddEqm(q, m, 0);
      EqmTrans(q, Add(q, m, 0), m, -hk0);
    }
  }

  lemma {:induction false} Pow2ModEqm(q: int, i: nat)
    requires q > 1
    ensures Eqm(q, Pow2Mod(q, i), Pow2(i))
  {
    if i == 0 {
      EqmRefl(q, 1);
    } else {
      Pow2ModEqm(q, i - 1);
      AddEqm(q, 1, 1);
      EqmMul(q, Pow2Mod(q, i - 1), Pow2(i - 1), Add(q, 1, 1), 2);
      EqmMod(q, Pow2Mod(q, i - 1) * Add(q, 1, 1));
      EqmTrans(q, Pow2Mod(q, i), Pow2Mod(q, i - 1) * Add(q, 1, 1), Pow2(i - 1) * 2);
    }
  }

  /** The labels encode `bits`. */
  predicate Encodes(fs: seq<Block>, labels: seq<Block>, bits: seq<bool>, delta: Block) {
    |fs| == |labels| == |bits| && forall i | 0 <= i < |fs| :: labels[i] == Active(fs[i], bits[i], delta)
  }

  lemma {:induction false} CvecPrefix(q: int, kdf: Kdf, fs: seq<Block>, delta: Block, a: int, k: nat, n: nat)
    requires q > 1 && k <= n <= |fs|
    ensures |GarbleGadgetAfter(q, kdf, fs, delta, a, n).0| == n
    ensures GarbleGadgetAfter(q, kdf, fs, delta, a, k).0 == GarbleGadgetAfter(q, kdf, fs, delta, a, n).0[..k]
    decreases n
  {
    if k < n {
      CvecPrefix(q, kdf, fs, delta, a, k, n - 1);
    } else if n > 0 {
      CvecPrefix(q, kdf, fs, delta, a, n - 1, n - 1);
    }
  }

  lemma {:induction false} GadgetAfter(q: int, kdf: Kdf, fs: seq<Block>, delta: Block, a: int, labels: seq<Block>,
                                       bits: seq<bool>, cvec: seq<int>, n: nat)
    requires q > 1 && Lsb(delta) && Encodes(fs, labels, bits, delta) && n <= |fs| == |cvec|
    requires cvec == GarbleGadgetAfter(q, kdf, fs, delta, a, |fs|).0
    ensures Eqm(q, EvalGadgetAfter(q, kdf, cvec, labels, n),
                GarbleGadgetAfter(q, kdf, fs, delta, a, n).1 + a * Num(bits[..n]))
  {
    hide GadgetZ, GadgetB, GadgetC, TimesPow2, Num;
    if n == 0 {
      assert bits[..0] == [];
      NumNil();
      assert a * 0 == 0;
      EqmRefl(q, 0);
    } else {
      var k := n - 1;
      GadgetAfter(q, kdf, fs, delta, a, labels, bits, cvec, k);
      var aui := TimesPow2(q, a, k);
      CvecPrefix(q, kdf, fs, delta, a, n, |fs|);
      assert cvec[k] == GarbleGadgetAfter(q, kdf, fs, delta, a, n).0[k];
      CvecPrefix(q, kdf, fs, delta, a, k, k);
      assert cvec[k] == GadgetC(q, kdf, fs[k], delta, aui, k);
      GadgetPosition(q, kdf, fs[k], delta, aui, k, bits[k]);
      assert bits[..n] == bits[..k] + [bits[k]];
      NumSnoc(bits[..k], bits[k]);
      GadgetStep(q, EvalGadgetAfter(q, kdf, cvec, labels, k), GadgetZ(q, kdf, cvec[k], labels[k], k),
                 GarbleGadgetAfter(q, kdf, fs, delta, a, k).1, GadgetB(q, kdf, fs[k], delta, aui, k),
                 a, Num(bits[..k]), k, bits[k]);
    }
  }

  lemma NumNil()
    ensures Num([]) == 0
  {
  }

  lemma GadgetStep(q: int, z: int, zi: int, b: int, bi: int, a: int, x: int, k: nat, bit: bool)
    requires q > 1 && Eqm(q, z, b + a * x) && Eqm(q, zi, bi + if bit then TimesPow2(q, a, k) else 0)
    ensures Eqm(q, Add(q, z, zi), Add(q, b, bi) + a * (x + Weight(k, bit)))
  {
    var e, w := if bit then TimesPow2(q, a, k) else 0, Weight(k, bit);
    assert Eqm(q, e, a * w) by {
      if bit {
        Pow2ModEqm(q, k);
        EqmScale(q, a, Pow2Mod(q, k), Pow2(k));
        EqmMod(q, a * Pow2Mod(q, k));
        EqmTrans(q, e, a * Pow2Mod(q, k), a * Pow2(k));
      } else {
        assert a * 0 == 0;
        EqmRefl(q, 0);
      }
    }
    EqmRefl(q, bi);
    EqmAdd(q, bi, bi, e, a * w);
    EqmTrans(q, zi, bi + e, bi + a * w);
    EqmAdd(q, z, b + a * x, zi, bi + a * w);
    AddEqm(q, z, zi);
    EqmTrans(q, Add(q, z, zi), z + zi, b + a * x + (bi + a * w));
    Shamir.Distrib(a, x, w);
    AddEqm(q, b, bi);
    EqmSym(q, Add(q, b, bi), b + bi);
    EqmRefl(q, a * (x + w));
    EqmAdd(q, b + bi, Add(q, b, bi), a * (x + w), a * (x + w));
    EqmTrans(q, Add(q, z, zi), b + bi + a * (x + w), Add(q, b, bi) + a * (x + w));
  }

  /** The gadget evaluates to `a * x + b`, for every number of positions. */
  lemma GadgetCorrect(q: int, kdf: Kdf, fs: seq<Block>, delta: Block, a: int, labels: seq<Block>, bits: seq<bool>)
    requires q > 1 && Lsb(delta) && Encodes(fs, labels, bits, delta)
    ensures var (cvec, b) := GarbleGadgetAfter(q, kdf, fs, delta, a, |fs|);
            |cvec| == |fs| && Eqm(q, EvalGadgetAfter(q, kdf, cvec, labels, |fs|), a * Num(bits) + b)
  {
    CvecPrefix(q, kdf, fs, delta, a, |fs|, |fs|);
    GadgetAfter(q, kdf, fs, delta, a, labels, bits, GarbleGadgetAfter(q, kdf, fs, delta, a, |fs|).0, |fs|);
    assert bits[..|fs|] == bits;
  }

  /** Decoding gives the number back, modulo q. */
  lemma DecodeCorrect(q: int, a: int, b: int, z: int, x: int)
    requires Prime(q) && 0 < a < q && Eqm(q, z, a * x + b)
    ensures DecodeGadget(q, a, b, z) == Some(x % q)
  {
    var i := Invert(q, a);
    InvertCorrect(q, a);
    EqmRefl(q, b);
    EqmSub(q, z, a * x + b, b, b);
    SubEqm(q, z, b);
    EqmTrans(q, Sub(q, z, b), z - b, a * x);
    EqmScale(q, i, Sub(q, z, b), a * x);
    EqmScale(q, x, a * i, 1);
    SwapLast(i, a, x);
    EqmTrans(q, i * Sub(q, z, b), i * (a * x), x);
    EqmReduced(q, i * Sub(q, z, b), x);
  }

  // ----- what each position uses -----

  /** Position `i` of the gadget uses the key derivation at index `i` alone, on both sides. */
  lemma IndexApart(q: int, k1: Kdf, k2: Kdf, f: Block, lbl: Block, delta: Block, aui: int, c: int, i: nat)
    requires q > 1 && forall b: Block :: k1(i, b) == k2(i, b)
    ensures GadgetB(q, k1, f, delta, aui, i) == GadgetB(q, k2, f, delta, aui, i)
    ensures GadgetC(q, k1, f, delta, aui, i) == GadgetC(q, k2, f, delta, aui, i)
    ensures GadgetZ(q, k1, c, lbl, i) == GadgetZ(q, k2, c, lbl, i)
  {
    hide XorBlocks, Lsb, Add, Sub;
  }
}
