/** The Kogge-Stone parallel prefix adder of `src/arithmetic.rs`. Sizes are the source's `usize`
    counts cut to `u16` on the way into the builder, hence the bound 2^16. */
module PrefixAdder {
  import opened Circuits
  import opened Builder
  import opened Numbers
  import opened Gadgets

  /** `size.ilog2()`, the floor. */
  function FloorLog2(n: nat): (r: nat)
    requires n > 0
    ensures Pow2(r) <= n < Pow2(r + 1)
  {
    if n == 1 then 0 else 1 + FloorLog2(n / 2)
  }

  function Lo(i: nat, d: nat): nat {
    if i + 1 > d then i + 1 - d else 0
  }

  /** `p[i]`, `g[i]` carry the propagate and generate bits of the last `d` positions up to `i`. */
  predicate PrefixAt(gates: seq<Gate>, p: seq<nat>, g: seq<nat>, d: nat, inputs: seq<seq<bool>>)
    requires |inputs| == 2 && |p| == |g| == |inputs[0]| == |inputs[1]|
  {
    forall i | 0 <= i < |p| ::
      Val(gates, inputs, p[i]) == Prop(inputs[0], inputs[1], Lo(i, d), i) &&
      Val(gates, inputs, g[i]) == Gen(inputs[0], inputs[1], Lo(i, d), i)
  }

  predicate TwoWords(inputs: seq<seq<bool>>, size: nat) {
    |inputs| == 2 && |inputs[0]| == |inputs[1]| == size
  }

  ghost predicate Prefix(gates: seq<Gate>, p: seq<nat>, g: seq<nat>, d: nat)
    requires |p| == |g|
  {
    forall inputs: seq<seq<bool>> | TwoWords(inputs, |p|) :: PrefixAt(gates, p, g, d, inputs)
  }

  lemma PrefixStart(gates: seq<Gate>, x: seq<nat>, y: seq<nat>, p: seq<nat>, g: seq<nat>)
    requires IsGroup(gates, x, 0) && IsGroup(gates, y, 1) && |x| == |y| == |p| == |g|
    requires forall i | 0 <= i < |p| :: IsXor(gates, x[i], y[i], p[i]) && IsAnd(gates, x[i], y[i], g[i])
    ensures Prefix(gates, p, g, 1)
  {
    forall inputs: seq<seq<bool>> | TwoWords(inputs, |p|)
      ensures PrefixAt(gates, p, g, 1, inputs)
    {
      GroupValues(gates, x, 0, inputs);
      GroupValues(gates, y, 1, inputs);
      forall i | 0 <= i < |p|
        ensures Val(gates, inputs, p[i]) == Prop(inputs[0], inputs[1], i, i)
        ensures Val(gates, inputs, g[i]) == Gen(inputs[0], inputs[1], i, i)
      {
        assert IsXor(gates, x[i], y[i], p[i]) && IsAnd(gates, x[i], y[i], g[i]);
        assert Val(gates, inputs, x[i]) == inputs[0][i] && Val(gates, inputs, y[i]) == inputs[1][i];
      }
    }
  }

  /** One position of one Kogge-Stone step. */
  lemma PrefixStepAt(gates: seq<Gate>, inputs: seq<seq<bool>>, d: nat, i: nat,
                     pi: nat, gi: nat, pm: nat, gm: nat, pg: nat, pp: nat, or: nat)
    requires |inputs| == 2 && |inputs[0]| == |inputs[1]| && 0 < d <= i < |inputs[0]|
    requires Val(gates, inputs, pi) == Prop(inputs[0], inputs[1], Lo(i, d), i)
    requires Val(gates, inputs, gi) == Gen(inputs[0], inputs[1], Lo(i, d), i)
    requires Val(gates, inputs, pm) == Prop(inputs[0], inputs[1], Lo(i - d, d), i - d)
    requires Val(gates, inputs, gm) == Gen(inputs[0], inputs[1], Lo(i - d, d), i - d)
    requires IsAnd(gates, gm, pi, pg) && IsAnd(gates, pm, pi, pp) && IsOr(gates, gi, pg, or)
    ensures Val(gates, inputs, pp) == Prop(inputs[0], inputs[1], Lo(i, 2 * d), i)
    ensures Val(gates, inputs, or) == Gen(inputs[0], inputs[1], Lo(i, 2 * d), i)
  {
    OrValue(gates, gi, pg, or, inputs);
    PrefixCompose(inputs[0], inputs[1], Lo(i, 2 * d), i - d, i);
  }

  /** One Kogge-Stone step doubles the distance. */
  lemma PrefixStep(g1: seq<Gate>, g2: seq<Gate>, p: seq<nat>, g: seq<nat>, d: nat,
                   pg: seq<nat>, pp: seq<nat>, or: seq<nat>, p': seq<nat>, g': seq<nat>)
    requires 0 < d <= |p| == |g|
    requires Extends(g1, g2) && Below(p, |g1|) && Below(g, |g1|) && Prefix(g1, p, g, d)
    requires AreAnds(g2, g[..|p| - d], p[d..], pg) && AreAnds(g2, p[..|p| - d], p[d..], pp) && AreOrs(g2, g[d..], pg, or)
    requires p' == p[..d] + pp && g' == g[..d] + or
    ensures Prefix(g2, p', g', 2 * d)
  {
    hide IsAnd, IsOr, Val, Prop, Gen;
    PrefixStable(g1, g2, p, g, d);
    forall inputs: seq<seq<bool>> | TwoWords(inputs, |p'|)
      ensures PrefixAt(g2, p', g', 2 * d, inputs)
    {
      assert PrefixAt(g2, p, g, d, inputs);
      forall i | 0 <= i < |p|
        ensures Val(g2, inputs, p'[i]) == Prop(inputs[0], inputs[1], Lo(i, 2 * d), i)
        ensures Val(g2, inputs, g'[i]) == Gen(inputs[0], inputs[1], Lo(i, 2 * d), i)
      {
        if i >= d {
          var m := i - d;
          assert p[d..][m] == p[i] && g[d..][m] == g[i];
          PrefixStepAt(g2, inputs, d, i, p[i], g[i], p[m], g[m], pg[m], pp[m], or[m]);
        }
      }
    }
  }

  lemma PrefixStable(g1: seq<Gate>, g2: seq<Gate>, p: seq<nat>, g: seq<nat>, d: nat)
    requires |p| == |g| && Below(p, |g1|) && Below(g, |g1|) && Extends(g1, g2) && Prefix(g1, p, g, d)
    ensures Prefix(g2, p, g, d)
  {
    forall inputs: seq<seq<bool>> | TwoWords(inputs, |p|)
      ensures PrefixAt(g2, p, g, d, inputs)
    {
      assert PrefixAt(g1, p, g, d, inputs);
      forall i | 0 <= i < |p|
        ensures Val(g2, inputs, p[i]) == Val(g1, inputs, p[i]) && Val(g2, inputs, g[i]) == Val(g1, inputs, g[i])
      {
        ValStable(g1, g2, inputs, p[i]);
        ValStable(g1, g2, inputs, g[i]);
      }
    }
  }

  predicate AddsAt(c: BinaryCircuit, inputs: seq<seq<bool>>)
    requires |inputs| == 2
  {
    Num(Output(c, inputs)) == Num(inputs[0]) + Num(inputs[1])
  }

  /** The `size + 1` outputs are the sum of the two inputs. */
  ghost predicate Adds(c: BinaryCircuit, size: nat) {
    Shape(c, [size, size]) && |c.outputGateIds| == size + 1 &&
    forall inputs: seq<seq<bool>> | TwoWords(inputs, size) :: AddsAt(c, inputs)
  }

  /** One sum bit. */
  lemma SumBitAt(gates: seq<Gate>, inputs: seq<seq<bool>>, size: nat, p0: seq<nat>, g0: seq<nat>, p: seq<nat>, g: seq<nat>,
                 d: nat, zero: nat, i: nat, sum: nat)
    requires |inputs| == 2 && |inputs[0]| == |inputs[1]| == |p0| == |g0| == |p| == |g| == size && i < size <= d
    requires PrefixAt(gates, p0, g0, 1, inputs) && PrefixAt(gates, p, g, d, inputs)
    requires zero < |gates| && gates[zero] == Constant(false, zero)
    requires IsXor(gates, p0[i], if i == 0 then zero else g[i - 1], sum)
    ensures Val(gates, inputs, sum) == SumBits(inputs[0], inputs[1], size)[i]
  {
    var x, y := inputs[0], inputs[1];
    assert Val(gates, inputs, p0[i]) == Prop(x, y, Lo(i, 1), i) == (x[i] != y[i]);
    if i > 0 {
      assert Val(gates, inputs, g[i - 1]) == Gen(x, y, Lo(i - 1, d), i - 1);
    }
  }

  /** Once the distance covers the word, xoring the first propagate bits with the shifted
      generate bits gives the sum. */
  lemma AdderOutputs(c: BinaryCircuit, size: nat, p0: seq<nat>, g0: seq<nat>, p: seq<nat>, g: seq<nat>, d: nat,
                     zero: nat, sum: seq<nat>)
    requires Shape(c, [size, size]) && 0 < size == |p0| == |g0| == |p| == |g| == |sum| && size <= d
    requires Prefix(c.gates, p0, g0, 1) && Prefix(c.gates, p, g, d)
    requires zero < |c.gates| && c.gates[zero] == Constant(false, zero)
    requires AreXors(c.gates, p0, [zero] + g[..size - 1], sum)
    requires c.outputGateIds == sum + [g[size - 1]]
    ensures Adds(c, size)
  {
    hide BuilderForm, IsXor, SumBits, Num;
    forall inputs: seq<seq<bool>> | TwoWords(inputs, size)
      ensures AddsAt(c, inputs)
    {
      var x, y := inputs[0], inputs[1];
      assert PrefixAt(c.gates, p0, g0, 1, inputs) && PrefixAt(c.gates, p, g, d, inputs);
      var shifted := [zero] + g[..size - 1];
      forall i | 0 <= i < size
        ensures Val(c.gates, inputs, sum[i]) == SumBits(x, y, size)[i]
      {
        assert IsXor(c.gates, p0[i], shifted[i], sum[i]);
        SumBitAt(c.gates, inputs, size, p0, g0, p, g, d, zero, i, sum[i]);
      }
      assert Output(c, inputs) == SumBits(x, y, size) + [Gen(x, y, 0, size - 1)];
      AdderCorrect(x, y);
    }
  }

  /** One step of the adder: the new propagate and generate wires. */
  method PpaStep(b: CircuitBuilder, p: seq<nat>, g: seq<nat>, d: nat) returns (p': seq<nat>, g': seq<nat>)
    requires b.Valid() && 0 < d < |p| == |g| && Below(p, |b.gates|) && Below(g, |b.gates|)
    requires Prefix(b.gates, p, g, d)
    modifies b
    ensures b.Valid() && Extends(old(b.gates), b.gates) && |b.gates| <= |old(b.gates)| + 5 * |p|
    ensures b.inputGateIds == old(b.inputGateIds) && b.outputGateIds == old(b.outputGateIds)
    ensures |p'| == |g'| == |p| && Below(p', |b.gates|) && Below(g', |b.gates|)
    ensures Prefix(b.gates, p', g', 2 * d)
  {
    hide BuilderForm, Prefix;
    hide AreAnds, AreOrs;
    ghost var before := b.gates;
    var size := |p|;
    var gcToOr := AndPairs(b, g[..size - d], p[d..]);
    ghost var b1 := b.gates;
    var pcAfterAnd := AndPairs(b, p[..size - d], p[d..]);
    ghost var b2 := b.gates;
    var gcAfterOr := OrPairs(b, g[d..], gcToOr);
    p', g' := p[..d] + pcAfterAnd, g[..d] + gcAfterOr;
    AndsStable(b1, b.gates, g[..size - d], p[d..], gcToOr);
    AndsStable(b2, b.gates, p[..size - d], p[d..], pcAfterAnd);
    PrefixStep(before, b.gates, p, g, d, gcToOr, pcAfterAnd, gcAfterOr, p', g');
  }

  /** All steps of the adder, from distance 1 to a distance that covers the word. */
  method PpaSteps(b: CircuitBuilder, p0: seq<nat>, g0: seq<nat>, sizeLog2: nat) returns (p: seq<nat>, g: seq<nat>)
    requires b.Valid() && |p0| == |g0| > 0 && Below(p0, |b.gates|) && Below(g0, |b.gates|)
    requires Prefix(b.gates, p0, g0, 1) && (sizeLog2 > 0 ==> Pow2(sizeLog2 - 1) < |p0|)
    modifies b
    ensures b.Valid() && Extends(old(b.gates), b.gates)
    ensures |b.gates| <= |old(b.gates)| + 5 * |p0| * sizeLog2
    ensures b.inputGateIds == old(b.inputGateIds) && b.outputGateIds == old(b.outputGateIds)
    ensures |p| == |g| == |p0| && Below(p, |b.gates|) && Below(g, |b.gates|)
    ensures Prefix(b.gates, p, g, Pow2(sizeLog2))
  {
    hide BuilderForm, Prefix;
    p, g := p0, g0;
    for step := 0 to sizeLog2
      invariant b.Valid() && Extends(old(b.gates), b.gates)
      invariant |b.gates| <= |old(b.gates)| + 5 * |p0| * step
      invariant b.inputGateIds == old(b.inputGateIds) && b.outputGateIds == old(b.outputGateIds)
      invariant |p| == |g| == |p0| && Below(p, |b.gates|) && Below(g, |b.gates|)
      invariant Prefix(b.gates, p, g, Pow2(step))
    {
      Pow2Monotone(step, sizeLog2 - 1);
      p, g := PpaStep(b, p, g, Pow2(step));
      MulDistrib(5 * |p0|, step, 1);
    }
  }

  /** The number of steps: the logarithm of the size, rounded up. */
  method SizeLog2(size: nat) returns (sizeLog2: nat)
    requires size > 0
    ensures size <= Pow2(sizeLog2) && (sizeLog2 > 0 ==> Pow2(sizeLog2 - 1) < size)
    ensures size < 0x1_0000 ==> sizeLog2 <= 16
  {
    sizeLog2 := FloorLog2(size);
    var sizeDiff := size - Pow2(sizeLog2);
    if sizeDiff != 0 {
      sizeLog2 := sizeLog2 + 1;
    }
    if sizeLog2 > 16 {
      Pow2Monotone(16, sizeLog2 - 1);
      Pow2Add(8, 8);
      assert Pow2(8) == 256;
    }
  }

  /** The wires fit the 32-bit counter with room to spare. */
  method BuildPpaCircuit(size: nat) returns (c: BinaryCircuit)
    requires 0 < size < 0x1_0000
    ensures Shape(c, [size, size]) && |c.outputGateIds| == size + 1
    ensures Adds(c, size) && c.numWires < 0x100_0000
  {
    hide BuilderForm, Prefix, Num, Adds;
    var b := new CircuitBuilder();
    var inp1 := b.NewInputs(size);
    var inp2 := b.NewInputs(size);
    var sizeLog2 := SizeLog2(size);
    var pc, g0 := FirstPrefix(b, inp1, inp2);
    ghost var b1 := b.gates;
    var p, g := PpaSteps(b, pc, g0, sizeLog2);
    PrefixStable(b1, b.gates, pc, g0, 1);
    MulMono(5 * size, sizeLog2, 16);
    c := FinishAdder(b, pc, g0, p, g, Pow2(sizeLog2));
  }

  /** The sum bits: first propagate bits xor shifted generate bits, then the last carry. */
  method FinishAdder(b: CircuitBuilder, pc: seq<nat>, ghost g0: seq<nat>, ghost p: seq<nat>, g: seq<nat>, ghost d: nat)
    returns (c: BinaryCircuit)
    requires b.Valid() && 0 < |pc| == |g0| == |p| == |g| <= d && b.outputGateIds == []
    requires |b.inputGateIds| == 2 && |b.inputGateIds[0]| == |b.inputGateIds[1]| == |pc|
    requires Below(pc, |b.gates|) && Below(g0, |b.gates|) && Below(p, |b.gates|) && Below(g, |b.gates|)
    requires Prefix(b.gates, pc, g0, 1) && Prefix(b.gates, p, g, d)
    modifies b
    ensures Shape(c, [|pc|, |pc|]) && |c.outputGateIds| == |pc| + 1
    ensures Adds(c, |pc|) && c.numWires <= |old(b.gates)| + |pc| + 1
  {
    hide BuilderForm, Prefix, Num, Adds;
    ghost var before := b.gates;
    var size := |pc|;
    var gSize := g[size - 1];
    var zero := b.Const(false);
    var gMulTwo := [zero] + g[..size - 1];
    var sum := XorPairs(b, pc, gMulTwo);
    PrefixStable(before, b.gates, pc, g0, 1);
    PrefixStable(before, b.gates, p, g, d);
    b.MarkOutputs(sum);
    b.MarkOutput(gSize);
    c := b.Finish();
    AdderOutputs(c, size, pc, g0, p, g, d, zero, sum);
  }

  /** The propagate and generate wires of single positions. */
  method FirstPrefix(b: CircuitBuilder, x: seq<nat>, y: seq<nat>) returns (p: seq<nat>, g: seq<nat>)
    requires b.Valid() && |x| == |y| && IsGroup(b.gates, x, 0) && IsGroup(b.gates, y, 1)
    modifies b
    ensures b.Valid() && Extends(old(b.gates), b.gates) && |b.gates| == |old(b.gates)| + 2 * |x|
    ensures b.inputGateIds == old(b.inputGateIds) && b.outputGateIds == old(b.outputGateIds)
    ensures |p| == |g| == |x| && Below(p, |b.gates|) && Below(g, |b.gates|)
    ensures Prefix(b.gates, p, g, 1)
  {
    hide BuilderForm, Prefix;
    p, g := [], [];
    for i := 0 to |x|
      invariant b.Valid() && Extends(old(b.gates), b.gates) && |b.gates| == |old(b.gates)| + 2 * i
      invariant b.inputGateIds == old(b.inputGateIds) && b.outputGateIds == old(b.outputGateIds)
      invariant |p| == |g| == i
      invariant forall j | 0 <= j < i :: IsXor(b.gates, x[j], y[j], p[j]) && IsAnd(b.gates, x[j], y[j], g[j])
    {
      var o := b.Xor(x[i], y[i]);
      p := p + [o];
      o := b.And(x[i], y[i]);
      g := g + [o];
    }
    PrefixStart(b.gates, x, y, p, g);
  }
}
