/** Shapes, gates and gate rows shared by the circuit generators of `src/arithmetic.rs`. */
module Gadgets {
  import opened Circuits
  import opened Builder

  /** A builder-made circuit with input groups of the given widths. */
  ghost predicate Shape(c: BinaryCircuit, widths: seq<nat>) {
    BuilderForm(c) && |c.inputGateIds| == |widths| &&
    forall n | 0 <= n < |widths| :: |c.inputGateIds[n]| == widths[n]
  }

  /** `outs` are the outputs of a copy of `c` fed by the wires `ids`. */
  ghost predicate InlinedHere(gates: seq<Gate>, c: BinaryCircuit, ids: seq<seq<nat>>, outs: seq<nat>) {
    BuilderForm(c) && FitsGroups(c, ids) && c.WiresInRange() && c.InputsFit(ids) && |outs| == |c.outputGateIds| &&
    Embeds(gates, c, ids, outs) && IdsBelow(ids, |gates|) && Below(outs, |gates|)
  }

  /** A copy computes on its wires what the circuit computes on its inputs. */
  lemma Inlined(gates: seq<Gate>, c: BinaryCircuit, ids: seq<seq<nat>>, outs: seq<nat>, inputs: seq<seq<bool>>)
    requires InlinedHere(gates, c, ids, outs)
    ensures FitsGroups(c, Groups(gates, inputs, ids))
    ensures Vals(gates, inputs, outs) == Output(c, Groups(gates, inputs, ids))
  {
    assert EmbedsAt(gates, c, ids, outs, inputs);
    OutputIsEval(c, Groups(gates, inputs, ids));
  }

  lemma InlinedStable(g1: seq<Gate>, g2: seq<Gate>, c: BinaryCircuit, ids: seq<seq<nat>>, outs: seq<nat>)
    requires Extends(g1, g2) && InlinedHere(g1, c, ids, outs)
    ensures InlinedHere(g2, c, ids, outs)
  {
    hide BuilderForm;
    EmbedsStable(g1, g2, c, ids, outs);
  }

  /** `add_circuit` for a builder-made circuit. */
  method Inline(b: CircuitBuilder, c: BinaryCircuit, ids: seq<seq<nat>>, ghost widths: seq<nat>) returns (outs: seq<nat>)
    requires b.Valid() && Shape(c, widths) && |ids| == |widths| && IdsBelow(ids, |b.gates|)
    requires forall n | 0 <= n < |ids| :: |ids[n]| == widths[n]
    modifies b
    ensures b.Valid() && Extends(old(b.gates), b.gates)
    ensures b.inputGateIds == old(b.inputGateIds) && b.outputGateIds == old(b.outputGateIds)
    ensures |outs| == |c.outputGateIds| && Below(outs, |b.gates|) && InlinedHere(b.gates, c, ids, outs)
  {
    BuilderFormInlines(c);
    FitsInputs(c, ids);
    hide BuilderForm;
    outs := b.AddCircuit(c, ids);
  }

  // ----- small gadgets on a builder -----

  predicate IsXor(gates: seq<Gate>, x: nat, y: nat, o: nat) {
    x < o && y < o && o < |gates| && gates[o] == Gate.Xor(x, y, o)
  }

  predicate IsAnd(gates: seq<Gate>, x: nat, y: nat, o: nat) {
    x < o && y < o && o < |gates| && gates[o].And? && gates[o].xid == x && gates[o].yid == y
  }

  /** `o` is built as `(x & y) ^ (x ^ y)`, in either order of the two halves. */
  predicate IsOr(gates: seq<Gate>, x: nat, y: nat, o: nat) {
    o < |gates| && gates[o].Xor? &&
    var l, m := gates[o].xid, gates[o].yid;
    l < o && m < o && ((IsAnd(gates, x, y, l) && IsXor(gates, x, y, m)) || (IsXor(gates, x, y, l) && IsAnd(gates, x, y, m)))
  }

  predicate AreXors(gates: seq<Gate>, xs: seq<nat>, ys: seq<nat>, rs: seq<nat>) {
    |xs| == |ys| == |rs| && forall i | 0 <= i < |rs| :: IsXor(gates, xs[i], ys[i], rs[i])
  }

  predicate AreAnds(gates: seq<Gate>, xs: seq<nat>, ys: seq<nat>, rs: seq<nat>) {
    |xs| == |ys| == |rs| && forall i | 0 <= i < |rs| :: IsAnd(gates, xs[i], ys[i], rs[i])
  }

  predicate AreOrs(gates: seq<Gate>, xs: seq<nat>, ys: seq<nat>, rs: seq<nat>) {
    |xs| == |ys| == |rs| && forall i | 0 <= i < |rs| :: IsOr(gates, xs[i], ys[i], rs[i])
  }

  lemma OrsStable(g1: seq<Gate>, g2: seq<Gate>, xs: seq<nat>, ys: seq<nat>, rs: seq<nat>)
    requires Extends(g1, g2) && AreOrs(g1, xs, ys, rs)
    ensures AreOrs(g2, xs, ys, rs)
  {
  }

  lemma OrsBelow(gates: seq<Gate>, xs: seq<nat>, ys: seq<nat>, rs: seq<nat>)
    requires AreOrs(gates, xs, ys, rs)
    ensures Below(rs, |gates|)
  {
  }

  lemma AndsStable(g1: seq<Gate>, g2: seq<Gate>, xs: seq<nat>, ys: seq<nat>, rs: seq<nat>)
    requires Extends(g1, g2) && AreAnds(g1, xs, ys, rs)
    ensures AreAnds(g2, xs, ys, rs)
  {
  }

  lemma OrValue(gates: seq<Gate>, x: nat, y: nat, o: nat, inputs: seq<seq<bool>>)
    requires IsOr(gates, x, y, o)
    ensures Val(gates, inputs, o) == (Val(gates, inputs, x) || Val(gates, inputs, y))
  {
  }

  predicate Below(ids: seq<nat>, n: nat) {
    forall i | 0 <= i < |ids| :: ids[i] < n
  }

  /** `ids` are the wires of input group `no`. */
  predicate IsGroup(gates: seq<Gate>, ids: seq<nat>, no: nat) {
    forall i | 0 <= i < |ids| :: ids[i] < |gates| && gates[ids[i]] == Input(no, i, ids[i])
  }

  lemma GroupValues(gates: seq<Gate>, ids: seq<nat>, no: nat, inputs: seq<seq<bool>>)
    requires IsGroup(gates, ids, no) && no < |inputs| && |inputs[no]| == |ids|
    ensures Vals(gates, inputs, ids) == inputs[no]
  {
  }

  /** A copy fed by the two input groups computes its circuit on the inputs themselves. */
  lemma InlinedOnInputs(gates: seq<Gate>, c: BinaryCircuit, x: seq<nat>, y: seq<nat>, outs: seq<nat>,
                        inputs: seq<seq<bool>>)
    requires IsGroup(gates, x, 0) && IsGroup(gates, y, 1) && InlinedHere(gates, c, [x, y], outs)
    requires |inputs| == 2 && |inputs[0]| == |x| && |inputs[1]| == |y|
    ensures FitsGroups(c, inputs) && Vals(gates, inputs, outs) == Output(c, inputs)
  {
    hide BuilderForm;
    GroupValues(gates, x, 0, inputs);
    GroupValues(gates, y, 1, inputs);
    assert Groups(gates, inputs, [x, y]) == inputs;
    Inlined(gates, c, [x, y], outs, inputs);
  }

  method AndPairs(b: CircuitBuilder, xs: seq<nat>, ys: seq<nat>) returns (r: seq<nat>)
    requires b.Valid() && |xs| == |ys| && Below(xs, |b.gates|) && Below(ys, |b.gates|)
    modifies b
    ensures b.Valid() && Extends(old(b.gates), b.gates) && |b.gates| == |old(b.gates)| + |xs|
    ensures b.inputGateIds == old(b.inputGateIds) && b.outputGateIds == old(b.outputGateIds)
    ensures |r| == |xs| && AreAnds(b.gates, xs, ys, r) && Below(r, |b.gates|)
  {
    r := [];
    for k := 0 to |xs|
      invariant b.Valid() && Extends(old(b.gates), b.gates) && |b.gates| == |old(b.gates)| + k
      invariant b.inputGateIds == old(b.inputGateIds) && b.outputGateIds == old(b.outputGateIds)
      invariant AreAnds(b.gates, xs[..k], ys[..k], r)
    {
      var o := b.And(xs[k], ys[k]);
      r := r + [o];
    }
    assert xs[..|xs|] == xs && ys[..|ys|] == ys;
  }

  method XorPairs(b: CircuitBuilder, xs: seq<nat>, ys: seq<nat>) returns (r: seq<nat>)
    requires b.Valid() && |xs| == |ys| && Below(xs, |b.gates|) && Below(ys, |b.gates|)
    modifies b
    ensures b.Valid() && Extends(old(b.gates), b.gates) && |b.gates| == |old(b.gates)| + |xs|
    ensures b.inputGateIds == old(b.inputGateIds) && b.outputGateIds == old(b.outputGateIds)
    ensures |r| == |xs| && AreXors(b.gates, xs, ys, r) && Below(r, |b.gates|)
  {
    r := [];
    for k := 0 to |xs|
      invariant b.Valid() && Extends(old(b.gates), b.gates) && |b.gates| == |old(b.gates)| + k
      invariant b.inputGateIds == old(b.inputGateIds) && b.outputGateIds == old(b.outputGateIds)
      invariant AreXors(b.gates, xs[..k], ys[..k], r)
    {
      var o := b.Xor(xs[k], ys[k]);
      r := r + [o];
    }
    assert xs[..|xs|] == xs && ys[..|ys|] == ys;
  }

  method OrGate(b: CircuitBuilder, x: nat, y: nat) returns (o: nat)
    requires b.Valid() && x < |b.gates| && y < |b.gates|
    modifies b
    ensures b.Valid() && Extends(old(b.gates), b.gates) && |b.gates| == |old(b.gates)| + 3
    ensures b.inputGateIds == old(b.inputGateIds) && b.outputGateIds == old(b.outputGateIds)
    ensures IsOr(b.gates, x, y, o)
  {
    var l := b.And(x, y);
    var m := b.Xor(x, y);
    o := b.Xor(l, m);
  }

  method OrPairs(b: CircuitBuilder, xs: seq<nat>, ys: seq<nat>) returns (r: seq<nat>)
    requires b.Valid() && |xs| == |ys| && Below(xs, |b.gates|) && Below(ys, |b.gates|)
    modifies b
    ensures b.Valid() && Extends(old(b.gates), b.gates) && |b.gates| == |old(b.gates)| + 3 * |xs|
    ensures b.inputGateIds == old(b.inputGateIds) && b.outputGateIds == old(b.outputGateIds)
    ensures |r| == |xs| && AreOrs(b.gates, xs, ys, r) && Below(r, |b.gates|)
  {
    hide IsOr, BuilderForm;
    r := [];
    for k := 0 to |xs|
      invariant b.Valid() && Extends(old(b.gates), b.gates) && |b.gates| == |old(b.gates)| + 3 * k
      invariant b.inputGateIds == old(b.inputGateIds) && b.outputGateIds == old(b.outputGateIds)
      invariant AreOrs(b.gates, xs[..k], ys[..k], r)
    {
      ghost var before := b.gates;
      var o := OrGate(b, xs[k], ys[k]);
      OrsStable(before, b.gates, xs[..k], ys[..k], r);
      r := r + [o];
    }
    assert xs[..|xs|] == xs && ys[..|ys|] == ys;
    OrsBelow(b.gates, xs, ys, r);
  }
}
