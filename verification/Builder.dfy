/** `CircuitBuilder` of `src/circuit.rs`: wire allocation, cached constants, gate inlining. */
module Builder {
  import opened Wrappers
  import opened Circuits

  /** The form every builder keeps: gate k drives wire k from earlier wires, AND ids count the
      ANDs before, each constant value has at most one gate (the cached one), and the input
      groups list exactly the input gates. */
  ghost predicate BuilderForm(c: BinaryCircuit) {
    Ordered(c.gates) && c.numWires == |c.gates| &&
    (forall i | 0 <= i < |c.outputGateIds| :: c.outputGateIds[i] < |c.gates|) &&
    (forall k | 0 <= k < |c.gates| && c.gates[k].And? :: c.gates[k].id == CountAnd(c.gates[..k])) &&
    c.numNonfreeGates == CountAnd(c.gates) &&
    c.NumConstantGates() == CountConst(c.gates) &&
    (forall k | 0 <= k < |c.gates| && c.gates[k].Constant? ::
      (if c.gates[k].val then c.trueWire else c.falseWire) == Some(k)) &&
    (c.trueWire.Some? ==> c.trueWire.value < |c.gates| && c.gates[c.trueWire.value] == Constant(true, c.trueWire.value)) &&
    (c.falseWire.Some? ==> c.falseWire.value < |c.gates| && c.gates[c.falseWire.value] == Constant(false, c.falseWire.value)) &&
    c.numInputs == |c.inputGateIds| &&
    (forall n | 0 <= n < |c.inputGateIds| :: forall i | 0 <= i < |c.inputGateIds[n]| :: c.inputGateIds[n][i] == i) &&
    (forall k | 0 <= k < |c.gates| && c.gates[k].Input? ::
      c.gates[k].no < |c.inputGateIds| && c.gates[k].id < |c.inputGateIds[c.gates[k].no]|)
  }

  /** `inputs` has one entry per input group, as wide as the group. */
  predicate FitsGroups<T>(c: BinaryCircuit, inputs: seq<seq<T>>) {
    |inputs| == |c.inputGateIds| &&
    forall n | 0 <= n < |inputs| :: |inputs[n]| == |c.inputGateIds[n]|
  }

  /** The gates of the first `n` wires of input group `no`, from wire `at` on. */
  function InputRun(no: nat, at: nat, n: nat): (r: seq<Gate>)
    ensures |r| == n
  {
    seq(n, i requires 0 <= i < n => Input(no, i, at + i))
  }

  lemma FitsInputs<T>(c: BinaryCircuit, inputs: seq<seq<T>>)
    requires BuilderForm(c) && FitsGroups(c, inputs)
    ensures c.WiresInRange() && c.InputsFit(inputs)
  {
  }

  /** What a builder-made circuit computes. */
  function Output(c: BinaryCircuit, inputs: seq<seq<bool>>): (r: seq<bool>)
    ensures |r| == |c.outputGateIds|
  {
    Vals(c.gates, inputs, c.outputGateIds)
  }

  lemma OutputIsEval(c: BinaryCircuit, inputs: seq<seq<bool>>)
    requires BuilderForm(c) && FitsGroups(c, inputs)
    ensures c.WiresInRange() && c.InputsFit(inputs) && Output(c, inputs) == Eval(c, inputs)
  {
    FitsInputs(c, inputs);
    EvalIsVals(c, inputs);
  }

  lemma AppendCounts(gates: seq<Gate>, g: Gate)
    ensures CountAnd(gates + [g]) == CountAnd(gates) + if g.And? then 1 else 0
    ensures CountConst(gates + [g]) == CountConst(gates) + if g.Constant? then 1 else 0
    ensures forall k | 0 <= k <= |gates| :: (gates + [g])[..k] == gates[..k]
  {
    assert (gates + [g])[..|gates|] == gates;
  }

  lemma GateForm(c: BinaryCircuit, g: Gate)
    requires BuilderForm(c) && !g.Input? && !g.Constant?
    requires g.Out() == |c.gates| && g.ReadsBelow(|c.gates|) && (g.And? ==> g.id == c.numNonfreeGates)
    ensures BuilderForm(c.(gates := c.gates + [g], numWires := c.numWires + 1,
                           numNonfreeGates := c.numNonfreeGates + if g.And? then 1 else 0))
  {
    AppendCounts(c.gates, g);
  }

  lemma ConstantForm(c: BinaryCircuit, val: bool)
    requires BuilderForm(c) && (if val then c.trueWire else c.falseWire).None?
    ensures var n := |c.gates|;
            var c' := c.(gates := c.gates + [Constant(val, n)], numWires := n + 1);
            BuilderForm(if val then c'.(trueWire := Some(n)) else c'.(falseWire := Some(n)))
  {
    AppendCounts(c.gates, Constant(val, |c.gates|));
  }

  /** Wires driven by the first `k` gates. */
  function Driven(gates: seq<Gate>, k: nat): set<nat>
    requires k <= |gates|
  {
    if k == 0 then {} else Driven(gates, k - 1) + {gates[k - 1].Out()}
  }

  /** Every gate and output reads wires that an earlier gate drives. */
  predicate DefineBeforeUse(c: BinaryCircuit) {
    (forall k | 0 <= k < |c.gates| :: c.gates[k].Operands() <= Driven(c.gates, k)) &&
    forall i | 0 <= i < |c.outputGateIds| :: c.outputGateIds[i] in Driven(c.gates, |c.gates|)
  }

  lemma {:induction false} OrderedDriven(gates: seq<Gate>, k: nat)
    requires Ordered(gates) && k <= |gates|
    ensures forall w: nat :: w in Driven(gates, k) <==> w < k
  {
    if k > 0 {
      OrderedDriven(gates, k - 1);
    }
  }

  /** What the builder makes can itself be inlined. */
  lemma BuilderFormInlines(c: BinaryCircuit)
    requires BuilderForm(c)
    ensures DefineBeforeUse(c) && c.WiresInRange()
  {
    forall k | 0 <= k <= |c.gates|
      ensures forall w: nat :: w in Driven(c.gates, k) <==> w < k
    {
      OrderedDriven(c.gates, k);
    }
  }

  /** The bits the wires `ids` carry, group by group. */
  function Groups(gates: seq<Gate>, inputs: seq<seq<bool>>, ids: seq<seq<nat>>): (r: seq<seq<bool>>)
    ensures |r| == |ids| && forall n | 0 <= n < |ids| :: r[n] == Vals(gates, inputs, ids[n])
  {
    seq(|ids|, n requires 0 <= n < |ids| => Vals(gates, inputs, ids[n]))
  }

  predicate EmbedsAt(gates: seq<Gate>, c: BinaryCircuit, ids: seq<seq<nat>>, outs: seq<nat>, inputs: seq<seq<bool>>)
    requires c.WiresInRange() && c.InputsFit(ids)
  {
    Vals(gates, inputs, outs) == Eval(c, Groups(gates, inputs, ids))
  }

  /** Whatever the outer inputs are, the wires `outs` carry what `c` computes from the wires `ids`. */
  ghost predicate Embeds(gates: seq<Gate>, c: BinaryCircuit, ids: seq<seq<nat>>, outs: seq<nat>)
    requires c.WiresInRange() && c.InputsFit(ids)
  {
    |outs| == |c.outputGateIds| && forall inputs: seq<seq<bool>> :: EmbedsAt(gates, c, ids, outs, inputs)
  }

  lemma EmbedsStable(g1: seq<Gate>, g2: seq<Gate>, c: BinaryCircuit, ids: seq<seq<nat>>, outs: seq<nat>)
    requires Extends(g1, g2) && c.WiresInRange() && c.InputsFit(ids) && Embeds(g1, c, ids, outs)
    requires forall i | 0 <= i < |outs| :: outs[i] < |g1|
    requires IdsBelow(ids, |g1|)
    ensures Embeds(g2, c, ids, outs)
  {
    forall inputs: seq<seq<bool>>
      ensures EmbedsAt(g2, c, ids, outs, inputs)
    {
      ValsStable(g1, g2, inputs, outs);
      GroupsStable(g1, g2, inputs, ids);
      assert EmbedsAt(g1, c, ids, outs, inputs);
    }
  }

  predicate IdsBelow(ids: seq<seq<nat>>, n: nat) {
    forall k, i | 0 <= k < |ids| && 0 <= i < |ids[k]| :: ids[k][i] < n
  }

  lemma GroupsStable(g1: seq<Gate>, g2: seq<Gate>, inputs: seq<seq<bool>>, ids: seq<seq<nat>>)
    requires Extends(g1, g2) && IdsBelow(ids, |g1|)
    ensures Groups(g1, inputs, ids) == Groups(g2, inputs, ids)
  {
    forall n | 0 <= n < |ids|
      ensures Vals(g1, inputs, ids[n]) == Vals(g2, inputs, ids[n])
    {
      ValsStable(g1, g2, inputs, ids[n]);
    }
  }

  // ----- inlining: the renaming map after k gates -----

  /** The gate at `id` is gate `g` with its operands renamed by `m`. */
  predicate Renames(g: Gate, m: seq<nat>, ids: seq<seq<nat>>, gates: seq<Gate>, id: nat)
    requires g.InRange(|m|) && g.Finds(ids)
  {
    id < |gates| &&
    match g
    case Input(no, i, _) => id == ids[no][i]
    case Constant(val, _) => gates[id] == Constant(val, id)
    case Xor(x, y, _) => gates[id] == Gate.Xor(m[x], m[y], id) && m[x] < id && m[y] < id
    case And(x, y, _, _) =>
      gates[id].And? && gates[id].xid == m[x] && gates[id].yid == m[y] && m[x] < id && m[y] < id
    case Inv(x, _) => gates[id] == Inv(m[x], id) && m[x] < id
  }

  /** Every wire driven so far is renamed to a wire that carries its value. */
  predicate TracksAt(gates: seq<Gate>, c: BinaryCircuit, ids: seq<seq<nat>>, m: seq<nat>, k: nat,
                     inputs: seq<seq<bool>>)
    requires c.WiresInRange() && c.InputsFit(ids) && k <= |c.gates| && |m| == c.numWires
  {
    var v := WiresAfter(c, Groups(gates, inputs, ids), k);
    forall w | w in Driven(c.gates, k) :: w < |m| && m[w] < |gates| && Val(gates, inputs, m[w]) == v[w]
  }

  ghost predicate Tracks(gates: seq<Gate>, c: BinaryCircuit, ids: seq<seq<nat>>, m: seq<nat>, k: nat)
    requires c.WiresInRange() && c.InputsFit(ids) && k <= |c.gates| && |m| == c.numWires
  {
    (forall w | w in Driven(c.gates, k) :: w < |m| && m[w] < |gates|) &&
    forall inputs: seq<seq<bool>> :: TracksAt(gates, c, ids, m, k, inputs)
  }

  lemma TracksNothing(gates: seq<Gate>, c: BinaryCircuit, ids: seq<seq<nat>>, m: seq<nat>)
    requires c.WiresInRange() && c.InputsFit(ids) && |m| == c.numWires
    ensures Tracks(gates, c, ids, m, 0)
  {
  }

  /** The operands of the next gate have been renamed. */
  lemma TracksOperands(gates: seq<Gate>, c: BinaryCircuit, ids: seq<seq<nat>>, m: seq<nat>, k: nat)
    requires c.WiresInRange() && c.InputsFit(ids) && k < |c.gates| && |m| == c.numWires
    requires Tracks(gates, c, ids, m, k) && DefineBeforeUse(c)
    ensures forall w | w in c.gates[k].Operands() :: w < |m| && m[w] < |gates|
  {
    assert c.gates[k].Operands() <= Driven(c.gates, k);
  }

  /** After the last gate the renamed outputs carry what the circuit computes. */
  lemma TracksAll(gates: seq<Gate>, c: BinaryCircuit, ids: seq<seq<nat>>, m: seq<nat>, outs: seq<nat>)
    requires c.WiresInRange() && c.InputsFit(ids) && |m| == c.numWires
    requires Tracks(gates, c, ids, m, |c.gates|) && DefineBeforeUse(c) && outs == Pick(m, c.outputGateIds)
    ensures Embeds(gates, c, ids, outs) && forall i | 0 <= i < |outs| :: outs[i] < |gates|
  {
    forall inputs: seq<seq<bool>>
      ensures EmbedsAt(gates, c, ids, outs, inputs)
    {
      assert TracksAt(gates, c, ids, m, |c.gates|, inputs);
    }
  }

  lemma TracksStep(g1: seq<Gate>, g2: seq<Gate>, c: BinaryCircuit, ids: seq<seq<nat>>, m: seq<nat>, k: nat, id: nat)
    requires c.WiresInRange() && c.InputsFit(ids) && k < |c.gates| && |m| == c.numWires
    requires Tracks(g1, c, ids, m, k) && Extends(g1, g2) && IdsBelow(ids, |g1|)
    requires c.gates[k].Operands() <= Driven(c.gates, k) && Renames(c.gates[k], m, ids, g2, id)
    ensures Tracks(g2, c, ids, m[c.gates[k].Out() := id], k + 1)
  {
    var m2, k2 := m[c.gates[k].Out() := id], k + 1;
    forall inputs: seq<seq<bool>>
      ensures TracksAt(g2, c, ids, m2, k2, inputs)
    {
      assert TracksAt(g1, c, ids, m, k, inputs);
      GroupsStable(g1, g2, inputs, ids);
      forall w | w in Driven(c.gates, k)
        ensures Val(g2, inputs, m[w]) == Val(g1, inputs, m[w])
      {
        ValStable(g1, g2, inputs, m[w]);
      }
      RenamedValue(g1, g2, c, ids, m, k, id, inputs);
    }
  }

  lemma RenamedValue(g1: seq<Gate>, g2: seq<Gate>, c: BinaryCircuit, ids: seq<seq<nat>>, m: seq<nat>, k: nat, id: nat,
                     inputs: seq<seq<bool>>)
    requires c.WiresInRange() && c.InputsFit(ids) && k < |c.gates| && |m| == c.numWires
    requires TracksAt(g2, c, ids, m, k, inputs)
    requires c.gates[k].Operands() <= Driven(c.gates, k) && Renames(c.gates[k], m, ids, g2, id)
    ensures var groups := Groups(g2, inputs, ids);
            Val(g2, inputs, id) == GateValue(c.gates[k], groups, WiresAfter(c, groups, k))
  {
    var g := c.gates[k];
    match g
    case Input(no, i, _) =>
      assert Groups(g2, inputs, ids)[no][i] == Val(g2, inputs, ids[no][i]);
    case Constant(_, _) =>
    case Xor(x, y, _) => assert x in g.Operands() && y in g.Operands();
    case And(x, y, _, _) => assert x in g.Operands() && y in g.Operands();
    case Inv(x, _) => assert x in g.Operands();
  }

  class CircuitBuilder {
    var nextRefId: nat
    var falseWire: Option<nat>
    var trueWire: Option<nat>
    var gates: seq<Gate>
    var numInputs: nat
    var inputGateIds: seq<seq<nat>>
    var outputGateIds: seq<nat>
    var numNonfreeGates: nat

    ghost predicate Valid()
      reads this
    {
      BuilderForm(Circuit())
    }

    function Circuit(): BinaryCircuit
      reads this
    {
      BinaryCircuit(gates, numInputs, inputGateIds, outputGateIds, falseWire, trueWire, numNonfreeGates, nextRefId)
    }

    constructor ()
      ensures Valid() && Circuit() == BinaryCircuit([], 0, [], [], None, None, 0, 0)
    {
      nextRefId, falseWire, trueWire, gates := 0, None, None, [];
      numInputs, inputGateIds, outputGateIds, numNonfreeGates := 0, [], [], 0;
    }

    method Finish() returns (c: BinaryCircuit)
      requires Valid()
      ensures c == Circuit() && BuilderForm(c)
    {
      c := BinaryCircuit(gates, numInputs, inputGateIds, outputGateIds, falseWire, trueWire, numNonfreeGates, nextRefId);
    }

    method GetNextRefId() returns (current: nat)
      modifies this`nextRefId
      ensures current == old(nextRefId) && nextRefId == current + 1
    {
      current := nextRefId;
      nextRefId := nextRefId + 1;
    }

    method GetNextCiphertextId() returns (current: nat)
      modifies this`numNonfreeGates
      ensures current == old(numNonfreeGates) && numNonfreeGates == current + 1
    {
      current := numNonfreeGates;
      numNonfreeGates := numNonfreeGates + 1;
    }

    /** One more input wire in group `no`. */
    method PushInput(no: nat) returns (gateId: nat)
      requires Valid() && no < |inputGateIds|
      modifies this`nextRefId, this`gates, this`inputGateIds
      ensures Valid() && gateId == |old(gates)|
      ensures gates == old(gates) + [Input(no, |old(inputGateIds)[no]|, gateId)]
      ensures inputGateIds == old(inputGateIds)[no := old(inputGateIds)[no] + [|old(inputGateIds)[no]|]]
    {
      AppendCounts(gates, Input(no, |inputGateIds[no]|, nextRefId));
      var id := |inputGateIds[no]|;
      gateId := GetNextRefId();
      gates := gates + [Input(no, id, gateId)];
      inputGateIds := inputGateIds[no := inputGateIds[no] + [id]];
    }

    /** A new, still empty input group. */
    method PushGroup() returns (no: nat)
      requires Valid()
      modifies this`numInputs, this`inputGateIds
      ensures Valid() && no == |old(inputGateIds)| && inputGateIds == old(inputGateIds) + [[]]
    {
      no := numInputs;
      inputGateIds := inputGateIds + [[]];
      numInputs := numInputs + 1;
    }

    /** A new input group of one wire. */
    method NewInput() returns (r: nat)
      requires Valid()
      modifies this
      ensures Valid() && gates == old(gates) + [Input(|old(inputGateIds)|, 0, r)] && r == |old(gates)|
      ensures inputGateIds == old(inputGateIds) + [[0]] && outputGateIds == old(outputGateIds)
    {
      var no := PushGroup();
      r := PushInput(no);
      assert [] + [0] == [0];
    }

    /** A new input group of the given width; its wires come back in order. */
    method NewInputs(width: nat) returns (r: seq<nat>)
      requires Valid()
      modifies this
      ensures Valid() && Extends(old(gates), gates)
      ensures |r| == width && |gates| == |old(gates)| + width
      ensures forall i | 0 <= i < width ::
        r[i] == |old(gates)| + i && gates[r[i]] == Input(|old(inputGateIds)|, i, r[i])
      ensures |inputGateIds| == |old(inputGateIds)| + 1 && |inputGateIds[|old(inputGateIds)|]| == width
      ensures forall n | 0 <= n < |old(inputGateIds)| :: inputGateIds[n] == old(inputGateIds)[n]
      ensures outputGateIds == old(outputGateIds)
    {
      hide BuilderForm;
      r := [];
      var no := PushGroup();
      ghost var at := |gates|;
      for i := 0 to width
        invariant Valid() && gates == old(gates) + InputRun(no, at, i)
        invariant |inputGateIds| == no + 1 && |inputGateIds[no]| == i
        invariant forall n | 0 <= n < no :: inputGateIds[n] == old(inputGateIds)[n]
        invariant outputGateIds == old(outputGateIds)
        invariant |r| == i && forall j | 0 <= j < i :: r[j] == at + j
      {
        var gateId := PushInput(no);
        assert InputRun(no, at, i + 1) == InputRun(no, at, i) + [Input(no, i, gateId)];
        r := r + [gateId];
      }
    }

    method Xor(x: nat, y: nat) returns (out: nat)
      requires Valid() && x < |gates| && y < |gates|
      modifies this
      ensures Valid() && out == |old(gates)| && gates == old(gates) + [Gate.Xor(x, y, out)]
      ensures inputGateIds == old(inputGateIds) && outputGateIds == old(outputGateIds)
    {
      GateForm(Circuit(), Gate.Xor(x, y, nextRefId));
      out := GetNextRefId();
      gates := gates + [Gate.Xor(x, y, out)];
    }

    method Negate(x: nat) returns (out: nat)
      requires Valid() && x < |gates|
      modifies this
      ensures Valid() && out == |old(gates)| && gates == old(gates) + [Inv(x, out)]
      ensures inputGateIds == old(inputGateIds) && outputGateIds == old(outputGateIds)
    {
      GateForm(Circuit(), Inv(x, nextRefId));
      out := GetNextRefId();
      gates := gates + [Inv(x, out)];
    }

    method And(x: nat, y: nat) returns (out: nat)
      requires Valid() && x < |gates| && y < |gates|
      modifies this
      ensures Valid() && out == |old(gates)| && gates == old(gates) + [Gate.And(x, y, old(numNonfreeGates), out)]
      ensures inputGateIds == old(inputGateIds) && outputGateIds == old(outputGateIds)
    {
      GateForm(Circuit(), Gate.And(x, y, numNonfreeGates, nextRefId));
      out := GetNextRefId();
      var id := GetNextCiphertextId();
      gates := gates + [Gate.And(x, y, id, out)];
    }

    /** The wire of a constant, created at most once per value. */
    method Const(val: bool) returns (wire: nat)
      requires Valid()
      modifies this
      ensures Valid() && wire < |gates| && gates[wire] == Constant(val, wire)
      ensures gates == if old(if val then trueWire else falseWire).Some? then old(gates)
                       else old(gates) + [Constant(val, |old(gates)|)]
      ensures inputGateIds == old(inputGateIds) && outputGateIds == old(outputGateIds)
    {
      var cached := if val then trueWire else falseWire;
      if cached.Some? {
        return cached.value;
      }
      ConstantForm(Circuit(), val);
      wire := GetNextRefId();
      gates := gates + [Constant(val, wire)];
      if val {
        trueWire := Some(wire);
      } else {
        falseWire := Some(wire);
      }
    }

    method MarkOutput(id: nat)
      requires Valid() && id < |gates|
      modifies this`outputGateIds
      ensures Valid() && outputGateIds == old(outputGateIds) + [id]
    {
      outputGateIds := outputGateIds + [id];
    }

    method MarkOutputs(ids: seq<nat>)
      requires Valid() && forall i | 0 <= i < |ids| :: ids[i] < |gates|
      modifies this`outputGateIds
      ensures Valid() && outputGateIds == old(outputGateIds) + ids
    {
      for i := 0 to |ids|
        invariant Valid() && outputGateIds == old(outputGateIds) + ids[..i]
      {
        MarkOutput(ids[i]);
      }
    }

    /** Copies `other` into this builder with every wire renamed: the returned wires carry what
        `other` computes from the wires `inputIds`, and no earlier gate changes. */
    method AddCircuit(other: BinaryCircuit, inputIds: seq<seq<nat>>) returns (outs: seq<nat>)
      requires Valid() && other.WiresInRange() && DefineBeforeUse(other)
      requires FitsGroups(other, inputIds) && other.InputsFit(inputIds) && IdsBelow(inputIds, |gates|)
      modifies this
      ensures Valid() && Extends(old(gates), gates)
      ensures forall i | 0 <= i < |outs| :: outs[i] < |gates|
      ensures Embeds(gates, other, inputIds, outs)
      ensures inputGateIds == old(inputGateIds) && outputGateIds == old(outputGateIds)
      ensures |gates| <= |old(gates)| + |other.gates|
    {
      hide BuilderForm, Tracks, Embeds, Renames;
      var oldToNew := new nat[other.numWires](_ => 0);
      TracksNothing(gates, other, inputIds, oldToNew[..]);
      for k := 0 to |other.gates|
        invariant Valid() && Extends(old(gates), gates) && |gates| <= |old(gates)| + k
        invariant inputGateIds == old(inputGateIds) && outputGateIds == old(outputGateIds)
        invariant Tracks(gates, other, inputIds, oldToNew[..], k)
      {
        ghost var before := gates;
        TracksOperands(gates, other, inputIds, oldToNew[..], k);
        var id := AddGate(other.gates[k], oldToNew[..], inputIds);
        TracksStep(before, gates, other, inputIds, oldToNew[..], k, id);
        oldToNew[other.gates[k].Out()] := id;
      }
      outs := Pick(oldToNew[..], other.outputGateIds);
      TracksAll(gates, other, inputIds, oldToNew[..], outs);
    }

    method AddGate(g: Gate, m: seq<nat>, inputIds: seq<seq<nat>>) returns (id: nat)
      requires Valid() && g.InRange(|m|) && g.Finds(inputIds) && IdsBelow(inputIds, |gates|)
      requires forall w | w in g.Operands() :: w < |m| && m[w] < |gates|
      modifies this
      ensures Valid() && Extends(old(gates), gates) && |gates| <= |old(gates)| + 1
      ensures inputGateIds == old(inputGateIds) && outputGateIds == old(outputGateIds)
      ensures Renames(g, m, inputIds, gates, id)
    {
      match g {
        case Xor(x, y, _) =>
          assert x in g.Operands() && y in g.Operands();
          id := Xor(m[x], m[y]);
        case And(x, y, _, _) =>
          assert x in g.Operands() && y in g.Operands();
          id := And(m[x], m[y]);
        case Inv(x, _) =>
          assert x in g.Operands();
          id := Negate(m[x]);
        case Input(no, i, _) =>
          id := inputIds[no][i];
        case Constant(val, _) =>
          id := Const(val);
      }
    }
  }
}
