/** The other circuit generators of `src/arithmetic.rs`: multiplexer, comparators, subtraction of
    a constant, and addition modulo a constant. */
module Arithmetic {
  import opened Circuits
  import opened Builder
  import opened Numbers
  import opened Gadgets
  import opened PrefixAdder

  // ----- if then else -----

  predicate IsMux(gates: seq<Gate>, x: nat, y: nat, c: nat, o: nat) {
    o < |gates| && gates[o].Xor? &&
    var d := gates[o].xid;
    d < |gates| && gates[d].And? &&
    var z := gates[d].xid;
    IsXor(gates, x, y, z) && IsAnd(gates, z, c, d) && IsXor(gates, d, y, o)
  }

  lemma MuxValue(gates: seq<Gate>, x: nat, y: nat, c: nat, o: nat, inputs: seq<seq<bool>>)
    requires IsMux(gates, x, y, c, o)
    ensures Val(gates, inputs, o) == if Val(gates, inputs, c) then Val(gates, inputs, x) else Val(gates, inputs, y)
  {
    var d := gates[o].xid;
    var z := gates[d].xid;
    assert Val(gates, inputs, z) == (Val(gates, inputs, x) != Val(gates, inputs, y));
  }

  method MuxGate(b: CircuitBuilder, x: nat, y: nat, c: nat) returns (o: nat)
    requires b.Valid() && x < |b.gates| && y < |b.gates| && c < |b.gates|
    modifies b
    ensures b.Valid() && Extends(old(b.gates), b.gates) && |b.gates| == |old(b.gates)| + 3
    ensures b.inputGateIds == old(b.inputGateIds) && b.outputGateIds == old(b.outputGateIds)
    ensures IsMux(b.gates, x, y, c, o)
  {
    hide BuilderForm;
    var z := b.Xor(x, y);
    var d := b.And(z, c);
    o := b.Xor(d, y);
  }

  predicate Words(inputs: seq<seq<bool>>, count: nat, size: nat) {
    |inputs| == count && forall n | 0 <= n < count :: |inputs[n]| == size
  }

  predicate MuxAt(c: BinaryCircuit, inputs: seq<seq<bool>>, size: nat)
    requires Words(inputs, 3, size) && |c.outputGateIds| == size
  {
    forall i | 0 <= i < size :: Output(c, inputs)[i] == if inputs[0][i] then inputs[1][i] else inputs[2][i]
  }

  /** Output `i` is bit `i` of the second group where the first group says so, else of the third. */
  ghost predicate Selects(c: BinaryCircuit, size: nat) {
    Shape(c, [size, size, size]) && |c.outputGateIds| == size &&
    forall inputs: seq<seq<bool>> | Words(inputs, 3, size) :: MuxAt(c, inputs, size)
  }

  lemma MuxOutputs(c: BinaryCircuit, size: nat, choice: seq<nat>, x: seq<nat>, y: seq<nat>)
    requires Shape(c, [size, size, size]) && |choice| == |x| == |y| == |c.outputGateIds| == size
    requires IsGroup(c.gates, choice, 0) && IsGroup(c.gates, x, 1) && IsGroup(c.gates, y, 2)
    requires forall i | 0 <= i < size :: IsMux(c.gates, x[i], y[i], choice[i], c.outputGateIds[i])
    ensures Selects(c, size)
  {
    hide BuilderForm;
    forall inputs: seq<seq<bool>> | Words(inputs, 3, size)
      ensures MuxAt(c, inputs, size)
    {
      GroupValues(c.gates, choice, 0, inputs);
      GroupValues(c.gates, x, 1, inputs);
      GroupValues(c.gates, y, 2, inputs);
      forall i | 0 <= i < size
        ensures Output(c, inputs)[i] == if inputs[0][i] then inputs[1][i] else inputs[2][i]
      {
        MuxValue(c.gates, x[i], y[i], choice[i], c.outputGateIds[i], inputs);
        assert Val(c.gates, inputs, choice[i]) == inputs[0][i];
        assert Val(c.gates, inputs, x[i]) == inputs[1][i] && Val(c.gates, inputs, y[i]) == inputs[2][i];
      }
    }
  }

  method MuxRow(b: CircuitBuilder, cs: seq<nat>, xs: seq<nat>, ys: seq<nat>) returns (r: seq<nat>)
    requires b.Valid() && |xs| == |ys| == |cs|
    requires Below(xs, |b.gates|) && Below(ys, |b.gates|) && Below(cs, |b.gates|)
    modifies b
    ensures b.Valid() && Extends(old(b.gates), b.gates)
    ensures b.inputGateIds == old(b.inputGateIds) && b.outputGateIds == old(b.outputGateIds)
    ensures |r| == |xs| && Below(r, |b.gates|)
    ensures forall j | 0 <= j < |xs| :: IsMux(b.gates, xs[j], ys[j], cs[j], r[j])
  {
    hide BuilderForm;
    r := [];
    for i := 0 to |xs|
      invariant b.Valid() && Extends(old(b.gates), b.gates)
      invariant b.inputGateIds == old(b.inputGateIds) && b.outputGateIds == old(b.outputGateIds)
      invariant |r| == i && Below(r, |b.gates|)
      invariant forall j | 0 <= j < i :: IsMux(b.gates, xs[j], ys[j], cs[j], r[j])
    {
      var o := MuxGate(b, xs[i], ys[i], cs[i]);
      r := r + [o];
    }
  }

  method BuildIfThenElseCircuit(size: nat) returns (c: BinaryCircuit)
    requires size < 0x1_0000
    ensures Shape(c, [size, size, size]) && |c.outputGateIds| == size
    ensures Selects(c, size)
  {
    hide BuilderForm, Selects, IsMux;
    var b := new CircuitBuilder();
    var choice := b.NewInputs(size);
    var gin := b.NewInputs(size);
    var ein := b.NewInputs(size);
    var r := MuxRow(b, choice, gin, ein);
    b.MarkOutputs(r);
    c := b.Finish();
    MuxOutputs(c, size, choice, gin, ein);
  }

  // ----- equality -----

  predicate EqAt(c: BinaryCircuit, inputs: seq<seq<bool>>)
    requires |inputs| == 2
  {
    Output(c, inputs) == [inputs[0] == inputs[1]]
  }

  /** The one output says whether the two words are equal. */
  ghost predicate TestsEqual(c: BinaryCircuit, size: nat) {
    Shape(c, [size, size]) && |c.outputGateIds| == 1 &&
    forall inputs: seq<seq<bool>> | TwoWords(inputs, size) :: EqAt(c, inputs)
  }

  predicate DiffersAt(gates: seq<Gate>, o: nat, i: nat, inputs: seq<seq<bool>>)
    requires |inputs| == 2 && i <= |inputs[0]| && i <= |inputs[1]|
  {
    Val(gates, inputs, o) == (inputs[0][..i] != inputs[1][..i])
  }

  /** Wire `o` tells whether the words differ in their first `i` positions. */
  ghost predicate Differs(gates: seq<Gate>, o: nat, i: nat, size: nat)
    requires i <= size
  {
    forall inputs: seq<seq<bool>> | TwoWords(inputs, size) :: DiffersAt(gates, o, i, inputs)
  }

  lemma DiffersStep(g1: seq<Gate>, g2: seq<Gate>, x: seq<nat>, y: seq<nat>, o: nat, xor: nat, o': nat, i: nat)
    requires |x| == |y| && i < |x| && IsGroup(g2, x, 0) && IsGroup(g2, y, 1) && Extends(g1, g2)
    requires IsXor(g2, x[i], y[i], xor) && IsOr(g2, o, xor, o')
    requires o < |g1| && Differs(g1, o, i, |x|)
    ensures Differs(g2, o', i + 1, |x|)
  {
    var i' := i + 1;
    forall inputs: seq<seq<bool>> | TwoWords(inputs, |x|)
      ensures DiffersAt(g2, o', i', inputs)
    {
      assert DiffersAt(g1, o, i, inputs);
      ValStable(g1, g2, inputs, o);
      OrValue(g2, o, xor, o', inputs);
      assert Val(g2, inputs, x[i]) == inputs[0][i] && Val(g2, inputs, y[i]) == inputs[1][i];
      SplitLast(inputs[0], inputs[1], i);
    }
  }

  lemma SplitLast(x: seq<bool>, y: seq<bool>, i: nat)
    requires i < |x| == |y|
    ensures x[..i + 1] == y[..i + 1] <==> x[..i] == y[..i] && x[i] == y[i]
  {
    assert x[..i + 1] == x[..i] + [x[i]] && y[..i + 1] == y[..i] + [y[i]];
  }

  lemma EqOutputs(c: BinaryCircuit, size: nat, o: nat)
    requires Shape(c, [size, size]) && Differs(c.gates, o, size, size)
    requires |c.outputGateIds| == 1
    requires var t := c.outputGateIds[0]; o < t < |c.gates| && c.gates[t] == Inv(o, t)
    ensures TestsEqual(c, size)
  {
    hide BuilderForm;
    forall inputs: seq<seq<bool>> | TwoWords(inputs, size)
      ensures EqAt(c, inputs)
    {
      assert DiffersAt(c.gates, o, size, inputs);
      assert inputs[0][..size] == inputs[0] && inputs[1][..size] == inputs[1];
      assert Output(c, inputs)[0] == !Val(c.gates, inputs, o);
    }
  }

  /** `x | y` in the order the comparators build it. */
  method XorAndXor(b: CircuitBuilder, x: nat, y: nat) returns (o: nat)
    requires b.Valid() && x < |b.gates| && y < |b.gates|
    modifies b
    ensures b.Valid() && Extends(old(b.gates), b.gates) && |b.gates| == |old(b.gates)| + 3
    ensures b.inputGateIds == old(b.inputGateIds) && b.outputGateIds == old(b.outputGateIds)
    ensures IsOr(b.gates, x, y, o) && o < |b.gates|
  {
    hide BuilderForm;
    var t1 := b.Xor(x, y);
    var t2 := b.And(x, y);
    o := b.Xor(t1, t2);
  }

  method BuildCompareEqCircuit(inputLen: nat) returns (c: BinaryCircuit)
    requires 0 < inputLen < 0x1_0000
    ensures Shape(c, [inputLen, inputLen]) && |c.outputGateIds| == 1
    ensures TestsEqual(c, inputLen)
  {
    hide BuilderForm, Differs, TestsEqual;
    var b := new CircuitBuilder();
    var input1 := b.NewInputs(inputLen);
    var input2 := b.NewInputs(inputLen);
    var xors := XorPairs(b, input1, input2);
    var output: nat := xors[0];
    DiffersFirst(b.gates, input1, input2, output);
    for i := 1 to inputLen
      invariant b.Valid() && b.outputGateIds == [] && output < |b.gates|
      invariant Shape(b.Circuit(), [inputLen, inputLen])
      invariant IsGroup(b.gates, input1, 0) && IsGroup(b.gates, input2, 1)
      invariant AreXors(b.gates, input1, input2, xors)
      invariant Differs(b.gates, output, i, inputLen)
    {
      ghost var before, o: nat := b.gates, output;
      output := XorAndXor(b, output, xors[i]);
      DiffersStep(before, b.gates, input1, input2, o, xors[i], output, i);
    }
    ghost var before := b.gates;
    var op := b.Negate(output);
    DiffersStable(before, b.gates, output, inputLen, inputLen);
    b.MarkOutput(op);
    c := b.Finish();
    EqOutputs(c, inputLen, output);
  }

  lemma DiffersFirst(gates: seq<Gate>, x: seq<nat>, y: seq<nat>, o: nat)
    requires |x| == |y| > 0 && IsGroup(gates, x, 0) && IsGroup(gates, y, 1) && IsXor(gates, x[0], y[0], o)
    ensures Differs(gates, o, 1, |x|)
  {
    forall inputs: seq<seq<bool>> | TwoWords(inputs, |x|)
      ensures DiffersAt(gates, o, 1, inputs)
    {
      assert Val(gates, inputs, x[0]) == inputs[0][0] && Val(gates, inputs, y[0]) == inputs[1][0];
      SplitLast(inputs[0], inputs[1], 0);
    }
  }

  lemma DiffersStable(g1: seq<Gate>, g2: seq<Gate>, o: nat, i: nat, size: nat)
    requires Extends(g1, g2) && o < |g1| && i <= size && Differs(g1, o, i, size)
    ensures Differs(g2, o, i, size)
  {
    forall inputs: seq<seq<bool>> | TwoWords(inputs, size)
      ensures DiffersAt(g2, o, i, inputs)
    {
      assert DiffersAt(g1, o, i, inputs);
      ValStable(g1, g2, inputs, o);
    }
  }

  // ----- greater or equal -----

  predicate CompareAt(c: BinaryCircuit, lo: nat, hi: nat, inputs: seq<seq<bool>>)
    requires |inputs| == 2 && lo <= hi < |inputs[0]| == |inputs[1]|
  {
    var x, y := inputs[0][lo..hi + 1], inputs[1][lo..hi + 1];
    Output(c, inputs) == [Num(x) >= Num(y), x != y]
  }

  /** The outputs compare bits `lo..=hi` of the two words: greater or equal, and different. */
  ghost predicate Compares(c: BinaryCircuit, size: nat, lo: nat, hi: nat)
    requires lo <= hi < size
  {
    Shape(c, [size, size]) && |c.outputGateIds| == 2 &&
    forall inputs: seq<seq<bool>> | TwoWords(inputs, size) :: CompareAt(c, lo, hi, inputs)
  }

  lemma CompareBit(c: BinaryCircuit, size: nat, lo: nat, x: seq<nat>, y: seq<nat>, a: nat, temp: nat, t: nat)
    requires Shape(c, [size, size]) && lo < size == |x| == |y| && IsGroup(c.gates, x, 0) && IsGroup(c.gates, y, 1)
    requires IsXor(c.gates, x[lo], y[lo], a) && IsAnd(c.gates, a, y[lo], temp)
    requires temp < t < |c.gates| && c.gates[t] == Inv(temp, t) && c.outputGateIds == [t, a]
    ensures Compares(c, size, lo, lo)
  {
    hide BuilderForm;
    forall inputs: seq<seq<bool>> | TwoWords(inputs, size)
      ensures CompareAt(c, lo, lo, inputs)
    {
      var xb, yb := inputs[0][lo], inputs[1][lo];
      assert Val(c.gates, inputs, x[lo]) == xb && Val(c.gates, inputs, y[lo]) == yb;
      assert inputs[0][lo..lo + 1] == [xb] && inputs[1][lo..lo + 1] == [yb];
      OneBit(xb);
      OneBit(yb);
      assert Val(c.gates, inputs, a) == (xb != yb);
      assert Val(c.gates, inputs, temp) == (xb != yb && yb);
      assert Output(c, inputs)[0] == Val(c.gates, inputs, t) == !(xb != yb && yb);
    }
  }

  lemma OneBit(b: bool)
    ensures Num([b]) == Bit(b)
  {
    assert [b][1..] == [];
  }

  predicate SelectsAt(gates: seq<Gate>, c: nat, x: nat, y: nat, o: nat, inputs: seq<seq<bool>>) {
    Val(gates, inputs, o) == if Val(gates, inputs, c) then Val(gates, inputs, x) else Val(gates, inputs, y)
  }

  /** Wire `o` is wire `x` where wire `c` is true, else wire `y`. */
  ghost predicate SelectsWire(gates: seq<Gate>, c: nat, x: nat, y: nat, o: nat) {
    forall inputs: seq<seq<bool>> :: SelectsAt(gates, c, x, y, o, inputs)
  }

  /** A one-bit multiplexer circuit inlined on three wires. */
  method SelectBit(b: CircuitBuilder, c: nat, x: nat, y: nat) returns (o: nat)
    requires b.Valid() && c < |b.gates| && x < |b.gates| && y < |b.gates|
    modifies b
    ensures b.Valid() && Extends(old(b.gates), b.gates) && o < |b.gates|
    ensures b.inputGateIds == old(b.inputGateIds) && b.outputGateIds == old(b.outputGateIds)
    ensures SelectsWire(b.gates, c, x, y, o)
  {
    hide BuilderForm, Selects, InlinedHere;
    var mux := BuildIfThenElseCircuit(1);
    var subres := Inline(b, mux, [[c], [x], [y]], [1, 1, 1]);
    o := subres[0];
    forall inputs: seq<seq<bool>>
      ensures SelectsAt(b.gates, c, x, y, o, inputs)
    {
      MuxedOutput(b.gates, inputs, c, x, y, subres, mux);
    }
  }

  lemma SelectsStable(g1: seq<Gate>, g2: seq<Gate>, c: nat, x: nat, y: nat, o: nat)
    requires Extends(g1, g2) && c < |g1| && x < |g1| && y < |g1| && o < |g1| && SelectsWire(g1, c, x, y, o)
    ensures SelectsWire(g2, c, x, y, o)
  {
    forall inputs: seq<seq<bool>>
      ensures SelectsAt(g2, c, x, y, o, inputs)
    {
      assert SelectsAt(g1, c, x, y, o, inputs);
      ValStable(g1, g2, inputs, c);
      ValStable(g1, g2, inputs, x);
      ValStable(g1, g2, inputs, y);
      ValStable(g1, g2, inputs, o);
    }
  }

  /** Combining the two halves at `m`: the high half decides unless it is equal. */
  lemma CompareCombine(c: BinaryCircuit, size: nat, lo: nat, m: nat, hi: nat, x: seq<nat>, y: seq<nat>,
                       low: BinaryCircuit, high: BinaryCircuit, lowout: seq<nat>, highout: seq<nat>)
    requires Shape(c, [size, size]) && lo <= m < hi < size == |x| == |y|
    requires IsGroup(c.gates, x, 0) && IsGroup(c.gates, y, 1)
    requires Compares(low, size, lo, m) && Compares(high, size, m + 1, hi)
    requires InlinedHere(c.gates, low, [x, y], lowout) && InlinedHere(c.gates, high, [x, y], highout)
    requires |c.outputGateIds| == 2 && SelectsWire(c.gates, highout[1], highout[0], lowout[0], c.outputGateIds[0])
    requires IsOr(c.gates, highout[1], lowout[1], c.outputGateIds[1])
    ensures Compares(c, size, lo, hi)
  {
    hide BuilderForm;
    forall inputs: seq<seq<bool>> | TwoWords(inputs, size)
      ensures CompareAt(c, lo, hi, inputs)
    {
      InlinedOnInputs(c.gates, low, x, y, lowout, inputs);
      InlinedOnInputs(c.gates, high, x, y, highout, inputs);
      assert CompareAt(low, lo, m, inputs) && CompareAt(high, m + 1, hi, inputs);
      assert SelectsAt(c.gates, highout[1], highout[0], lowout[0], c.outputGateIds[0], inputs);
      OrValue(c.gates, highout[1], lowout[1], c.outputGateIds[1], inputs);
      CombineAt(c, lo, m, hi, inputs, lowout, highout);
    }
  }

  lemma CombineAt(c: BinaryCircuit, lo: nat, m: nat, hi: nat, inputs: seq<seq<bool>>, lowout: seq<nat>, highout: seq<nat>)
    requires |inputs| == 2 && lo <= m < hi < |inputs[0]| == |inputs[1]|
    requires |c.outputGateIds| == |lowout| == |highout| == 2
    requires var x, y := inputs[0], inputs[1];
      Vals(c.gates, inputs, lowout) == [Num(x[lo..m + 1]) >= Num(y[lo..m + 1]), x[lo..m + 1] != y[lo..m + 1]] &&
      Vals(c.gates, inputs, highout) == [Num(x[m + 1..hi + 1]) >= Num(y[m + 1..hi + 1]), x[m + 1..hi + 1] != y[m + 1..hi + 1]]
    requires Val(c.gates, inputs, c.outputGateIds[0]) ==
      if Val(c.gates, inputs, highout[1]) then Val(c.gates, inputs, highout[0]) else Val(c.gates, inputs, lowout[0])
    requires Val(c.gates, inputs, c.outputGateIds[1]) == (Val(c.gates, inputs, highout[1]) || Val(c.gates, inputs, lowout[1]))
    ensures CompareAt(c, lo, hi, inputs)
  {
    hide Num, Val;
    CompareHalves(inputs[0], inputs[1], lo, m, hi);
    var l, h, o := Vals(c.gates, inputs, lowout), Vals(c.gates, inputs, highout), Output(c, inputs);
    assert l[0] == Val(c.gates, inputs, lowout[0]) && l[1] == Val(c.gates, inputs, lowout[1]);
    assert h[0] == Val(c.gates, inputs, highout[0]) && h[1] == Val(c.gates, inputs, highout[1]);
    assert o[0] == Val(c.gates, inputs, c.outputGateIds[0]) && o[1] == Val(c.gates, inputs, c.outputGateIds[1]);
  }

  lemma MuxedOutput(gates: seq<Gate>, inputs: seq<seq<bool>>, c: nat, x: nat, y: nat, subres: seq<nat>, mux: BinaryCircuit)
    requires Selects(mux, 1) && InlinedHere(gates, mux, [[c], [x], [y]], subres)
    ensures |subres| == 1 && SelectsAt(gates, c, x, y, subres[0], inputs)
  {
    hide BuilderForm, Val;
    var sel := [[c], [x], [y]];
    Inlined(gates, mux, sel, subres, inputs);
    var groups := Groups(gates, inputs, sel);
    assert MuxAt(mux, groups, 1);
    assert Output(mux, groups)[0] == if groups[0][0] then groups[1][0] else groups[2][0];
    assert Vals(gates, inputs, subres)[0] == Val(gates, inputs, subres[0]);
  }

  lemma CompareHalves(x: seq<bool>, y: seq<bool>, lo: nat, m: nat, hi: nat)
    requires |x| == |y| && lo <= m < hi < |x|
    ensures Num(x[lo..hi + 1]) >= Num(y[lo..hi + 1]) <==>
      if x[m + 1..hi + 1] != y[m + 1..hi + 1] then Num(x[m + 1..hi + 1]) >= Num(y[m + 1..hi + 1])
      else Num(x[lo..m + 1]) >= Num(y[lo..m + 1])
    ensures x[lo..hi + 1] != y[lo..hi + 1] <==> x[m + 1..hi + 1] != y[m + 1..hi + 1] || x[lo..m + 1] != y[lo..m + 1]
  {
    var xs, ys := x[lo..hi + 1], y[lo..hi + 1];
    var k := m + 1 - lo;
    assert xs[k..] == x[m + 1..hi + 1] && ys[k..] == y[m + 1..hi + 1];
    assert xs[..k] == x[lo..m + 1] && ys[..k] == y[lo..m + 1];
    CompareParts(xs, ys, k);
  }

  /** The recursion's base case. */
  method CompareOneBit(b: CircuitBuilder, size: nat, lo: nat, xvals: seq<nat>, yvals: seq<nat>)
    returns (c: BinaryCircuit)
    requires b.Valid() && Shape(b.Circuit(), [size, size]) && b.outputGateIds == []
    requires lo < size == |xvals| == |yvals| && IsGroup(b.gates, xvals, 0) && IsGroup(b.gates, yvals, 1)
    modifies b
    ensures Shape(c, [size, size]) && |c.outputGateIds| == 2
    ensures Compares(c, size, lo, lo)
  {
    hide BuilderForm, Compares;
    var a := b.Xor(xvals[lo], yvals[lo]);
    var temp := b.And(a, yvals[lo]);
    var t := b.Negate(temp);
    b.MarkOutput(t);
    b.MarkOutput(a);
    c := b.Finish();
    CompareBit(c, size, lo, xvals, yvals, a, temp, t);
  }

  method BuildCompareGeRecCircuit(size: nat, lo: nat, hi: nat) returns (c: BinaryCircuit)
    requires lo <= hi < size < 0x1_0000
    ensures Shape(c, [size, size]) && |c.outputGateIds| == 2
    ensures Compares(c, size, lo, hi)
    decreases hi - lo
  {
    hide BuilderForm, Compares, InlinedHere, SelectsWire, IsOr, IsXor, IsAnd, Val, Output, DefineBeforeUse, Groups;
    var b := new CircuitBuilder();
    var xvals := b.NewInputs(size);
    var yvals := b.NewInputs(size);
    if lo == hi {
      c := CompareOneBit(b, size, lo, xvals, yvals);
      return;
    }
    var m := lo + (hi - lo) / 2;
    var circLow := BuildCompareGeRecCircuit(size, lo, m);
    var circHigh := BuildCompareGeRecCircuit(size, m + 1, hi);
    var lowout := Inline(b, circLow, [xvals, yvals], [size, size]);
    ghost var b1 := b.gates;
    var highout := Inline(b, circHigh, [xvals, yvals], [size, size]);
    ghost var b2 := b.gates;
    assert |lowout| == 2 && |highout| == 2;
    var (subresL, diffL) := (lowout[0], lowout[1]);
    var (subresH, diffH) := (highout[0], highout[1]);
    var subres := SelectBit(b, diffH, subresH, subresL);
    ghost var b3 := b.gates;
    var diff := XorAndXor(b, diffH, diffL);
    InlinedStable(b1, b.gates, circLow, [xvals, yvals], lowout);
    InlinedStable(b2, b.gates, circHigh, [xvals, yvals], highout);
    SelectsStable(b3, b.gates, diffH, subresH, subresL, subres);
    b.MarkOutput(subres);
    b.MarkOutput(diff);
    c := b.Finish();
    CompareCombine(c, size, lo, m, hi, xvals, yvals, circLow, circHigh, lowout, highout);
  }

  predicate GeAt(c: BinaryCircuit, inputs: seq<seq<bool>>)
    requires |inputs| == 2
  {
    Output(c, inputs) == [Num(inputs[0]) >= Num(inputs[1])]
  }

  /** The one output is `x >= y`. */
  ghost predicate TestsGe(c: BinaryCircuit, size: nat) {
    Shape(c, [size, size]) && |c.outputGateIds| == 1 &&
    forall inputs: seq<seq<bool>> | TwoWords(inputs, size) :: GeAt(c, inputs)
  }

  method BuildCompareGeCircuit(size: nat) returns (c: BinaryCircuit)
    requires 0 < size < 0x1_0000
    ensures Shape(c, [size, size]) && |c.outputGateIds| == 1
    ensures TestsGe(c, size)
  {
    hide BuilderForm, Compares, TestsGe;
    var b := new CircuitBuilder();
    var x := b.NewInputs(size);
    var y := b.NewInputs(size);
    var rec := BuildCompareGeRecCircuit(size, 0, size - 1);
    var ops := Inline(b, rec, [x, y], [size, size]);
    b.MarkOutput(ops[0]);
    c := b.Finish();
    GeOutputs(c, size, x, y, rec, ops);
  }

  lemma GeOutputs(c: BinaryCircuit, size: nat, x: seq<nat>, y: seq<nat>, rec: BinaryCircuit, ops: seq<nat>)
    requires Shape(c, [size, size]) && 0 < size == |x| == |y| && IsGroup(c.gates, x, 0) && IsGroup(c.gates, y, 1)
    requires Compares(rec, size, 0, size - 1) && InlinedHere(c.gates, rec, [x, y], ops)
    requires c.outputGateIds == [ops[0]]
    ensures TestsGe(c, size)
  {
    hide BuilderForm;
    forall inputs: seq<seq<bool>> | TwoWords(inputs, size)
      ensures GeAt(c, inputs)
    {
      InlinedOnInputs(c.gates, rec, x, y, ops, inputs);
      assert CompareAt(rec, 0, size - 1, inputs);
      assert inputs[0][0..size] == inputs[0] && inputs[1][0..size] == inputs[1];
      assert Output(c, inputs)[0] == Vals(c.gates, inputs, ops)[0];
    }
  }
}
