/** The Boolean-circuit representation of `src/circuit.rs` and its plain evaluator. */
module Circuits {
  import opened Wrappers

  datatype Gate =
    | Input(no: nat, id: nat, wire: nat)
    | Constant(val: bool, wire: nat)
    | Xor(xid: nat, yid: nat, out: nat)
    | And(xid: nat, yid: nat, id: nat, out: nat)
    | Inv(xid: nat, out: nat)
  {
    /** The wire this gate drives. */
    function Out(): nat {
      match this
      case Input(_, _, w) => w
      case Constant(_, w) => w
      case Xor(_, _, o) => o
      case And(_, _, _, o) => o
      case Inv(_, o) => o
    }

    /** The wires this gate reads. */
    function Operands(): set<nat> {
      match this
      case Input(_, _, _) => {}
      case Constant(_, _) => {}
      case Xor(x, y, _) => {x, y}
      case And(x, y, _, _) => {x, y}
      case Inv(x, _) => {x}
    }

    /** Every wire this gate reads is below `n`. */
    predicate ReadsBelow(n: nat) {
      match this
      case Input(_, _, _) => true
      case Constant(_, _) => true
      case Xor(x, y, _) => x < n && y < n
      case And(x, y, _, _) => x < n && y < n
      case Inv(x, _) => x < n
    }

    predicate InRange(n: nat) {
      Out() < n && ReadsBelow(n)
    }

    /** The input share or bit this gate asks for is present. */
    predicate Finds<T>(inputs: seq<seq<T>>) {
      Input? ==> no < |inputs| && id < |inputs[no]|
    }
  }

  datatype BinaryCircuit = BinaryCircuit(
    gates: seq<Gate>,
    numInputs: nat,
    inputGateIds: seq<seq<nat>>,
    outputGateIds: seq<nat>,
    falseWire: Option<nat>,
    trueWire: Option<nat>,
    numNonfreeGates: nat,
    numWires: nat)
  {
    /** Every wire ID indexes the wire table. */
    predicate WiresInRange() {
      (forall k | 0 <= k < |gates| :: gates[k].InRange(numWires)) &&
      (forall i | 0 <= i < |outputGateIds| :: outputGateIds[i] < numWires)
    }

    /** Every input gate finds its input. */
    predicate InputsFit<T>(inputs: seq<seq<T>>) {
      forall k | 0 <= k < |gates| :: gates[k].Finds(inputs)
    }

    function NumConstantGates(): nat {
      (if falseWire.Some? then 1 else 0) + (if trueWire.Some? then 1 else 0)
    }
  }

  function CountAnd(gates: seq<Gate>): nat {
    if gates == [] then 0
    else CountAnd(gates[..|gates| - 1]) + if gates[|gates| - 1].And? then 1 else 0
  }

  function CountConst(gates: seq<Gate>): nat {
    if gates == [] then 0
    else CountConst(gates[..|gates| - 1]) + if gates[|gates| - 1].Constant? then 1 else 0
  }

  /** Blocks of garbled table the gates consume: two per AND, one per constant. */
  function TableLength(gates: seq<Gate>): nat {
    2 * CountAnd(gates) + CountConst(gates)
  }

  lemma TableLengthStep(gates: seq<Gate>, k: nat)
    requires k < |gates|
    ensures TableLength(gates[..k + 1]) == TableLength(gates[..k])
         + (if gates[k].And? then 2 else if gates[k].Constant? then 1 else 0)
  {
    assert gates[..k + 1][..k] == gates[..k];
  }

  // ----- plain evaluation -----

  function GateValue(g: Gate, inputs: seq<seq<bool>>, wires: seq<bool>): bool
    requires g.InRange(|wires|) && g.Finds(inputs)
  {
    match g
    case Input(no, id, _) => inputs[no][id]
    case Constant(val, _) => val
    case Xor(x, y, _) => wires[x] != wires[y]
    case And(x, y, _, _) => wires[x] && wires[y]
    case Inv(x, _) => !wires[x]
  }

  /** The wire table after the first `k` gates, from the all-false start. */
  function WiresAfter(c: BinaryCircuit, inputs: seq<seq<bool>>, k: nat): (w: seq<bool>)
    requires c.WiresInRange() && c.InputsFit(inputs) && k <= |c.gates|
    ensures |w| == c.numWires
  {
    if k == 0 then seq(c.numWires, _ => false)
    else
      var w := WiresAfter(c, inputs, k - 1);
      w[c.gates[k - 1].Out() := GateValue(c.gates[k - 1], inputs, w)]
  }

  function Pick<T>(table: seq<T>, ids: seq<nat>): (r: seq<T>)
    requires forall i | 0 <= i < |ids| :: ids[i] < |table|
    ensures |r| == |ids| && forall i | 0 <= i < |ids| :: r[i] == table[ids[i]]
  {
    seq(|ids|, i requires 0 <= i < |ids| => table[ids[i]])
  }

  /** What `BinaryCircuit::evaluate` returns. */
  function Eval(c: BinaryCircuit, inputs: seq<seq<bool>>): (r: seq<bool>)
    requires c.WiresInRange() && c.InputsFit(inputs)
    ensures |r| == |c.outputGateIds|
  {
    Pick(WiresAfter(c, inputs, |c.gates|), c.outputGateIds)
  }

  method Evaluate(c: BinaryCircuit, inputs: seq<seq<bool>>) returns (r: seq<bool>)
    requires c.WiresInRange() && c.InputsFit(inputs)
    ensures r == Eval(c, inputs)
  {
    var wires := new bool[c.numWires](_ => false);
    for k := 0 to |c.gates|
      invariant wires[..] == WiresAfter(c, inputs, k)
    {
      var value := match c.gates[k]
        case Input(no, id, _) => inputs[no][id]
        case Constant(val, _) => val
        case Xor(x, y, _) => wires[x] != wires[y]
        case And(x, y, _, _) => wires[x] && wires[y]
        case Inv(x, _) => !wires[x];
      assert value == GateValue(c.gates[k], inputs, wires[..]);
      wires[c.gates[k].Out()] := value;
    }
    r := [];
    for i := 0 to |c.outputGateIds|
      invariant |r| == i && forall j | 0 <= j < i :: r[j] == wires[c.outputGateIds[j]]
    {
      r := r + [wires[c.outputGateIds[i]]];
    }
  }

  // ----- gate lists in which gate k drives wire k -----

  /** Gate k drives wire k and reads earlier wires only. */
  predicate Ordered(gates: seq<Gate>) {
    forall k | 0 <= k < |gates| :: gates[k].Out() == k && gates[k].ReadsBelow(k)
  }

  function InputBit(inputs: seq<seq<bool>>, no: nat, id: nat): bool {
    no < |inputs| && id < |inputs[no]| && inputs[no][id]
  }

  /** The value of wire `k`, by recursion over the gates that feed it. */
  function Val(gates: seq<Gate>, inputs: seq<seq<bool>>, k: nat): bool {
    if k >= |gates| then false
    else match gates[k]
      case Input(no, id, _) => InputBit(inputs, no, id)
      case Constant(val, _) => val
      case Xor(x, y, _) => x < k && y < k && Val(gates, inputs, x) != Val(gates, inputs, y)
      case And(x, y, _, _) => x < k && y < k && Val(gates, inputs, x) && Val(gates, inputs, y)
      case Inv(x, _) => x < k && !Val(gates, inputs, x)
  }

  function Vals(gates: seq<Gate>, inputs: seq<seq<bool>>, ids: seq<nat>): (r: seq<bool>)
    ensures |r| == |ids| && forall i | 0 <= i < |ids| :: r[i] == Val(gates, inputs, ids[i])
  {
    seq(|ids|, i requires 0 <= i < |ids| => Val(gates, inputs, ids[i]))
  }

  /** `g2` appends gates to `g1`. */
  predicate Extends(g1: seq<Gate>, g2: seq<Gate>) {
    |g1| <= |g2| && forall k | 0 <= k < |g1| :: g2[k] == g1[k]
  }

  /** Appending gates changes no earlier wire's value. */
  lemma {:induction false} ValStable(g1: seq<Gate>, g2: seq<Gate>, inputs: seq<seq<bool>>, k: nat)
    requires Extends(g1, g2) && k < |g1|
    ensures Val(g1, inputs, k) == Val(g2, inputs, k)
  {
    assert g2[k] == g1[k];
    forall j: nat | j < k
      ensures Val(g1, inputs, j) == Val(g2, inputs, j)
    {
      ValStable(g1, g2, inputs, j);
    }
  }

  lemma ValsStable(g1: seq<Gate>, g2: seq<Gate>, inputs: seq<seq<bool>>, ids: seq<nat>)
    requires Extends(g1, g2) && forall i | 0 <= i < |ids| :: ids[i] < |g1|
    ensures Vals(g1, inputs, ids) == Vals(g2, inputs, ids)
  {
    forall i | 0 <= i < |ids|
      ensures Val(g1, inputs, ids[i]) == Val(g2, inputs, ids[i])
    {
      ValStable(g1, g2, inputs, ids[i]);
    }
  }

  /** On ordered gate lists the table-driven evaluator and the recursive one agree. */
  lemma {:induction false} WiresAreVals(c: BinaryCircuit, inputs: seq<seq<bool>>, k: nat)
    requires Ordered(c.gates) && c.numWires == |c.gates| && c.WiresInRange() && c.InputsFit(inputs)
    requires k <= |c.gates|
    ensures forall w | 0 <= w < k :: WiresAfter(c, inputs, k)[w] == Val(c.gates, inputs, w)
  {
    if k > 0 {
      WiresAreVals(c, inputs, k - 1);
      var g := c.gates[k - 1];
      assert g.Out() == k - 1;
    }
  }

  lemma EvalIsVals(c: BinaryCircuit, inputs: seq<seq<bool>>)
    requires Ordered(c.gates) && c.numWires == |c.gates| && c.WiresInRange() && c.InputsFit(inputs)
    ensures Eval(c, inputs) == Vals(c.gates, inputs, c.outputGateIds)
  {
    WiresAreVals(c, inputs, |c.gates|);
  }
}
