/** Half-gates garbling (`src/functionality/garble.rs`) and evaluation
    (`src/functionality/evaluate.rs`) over one circuit, against the plain evaluator. */
module Garbling {
  import opened Wrappers
  import opened Blocks
  import opened Circuits
  import opened LabelPrfs

  /** The tweakable hash `tccr_hash(block, tweak)`. */
  type TccrHash = (Block, nat) -> Block

  // ----- garbler -----

  datatype GarblerState = GarblerState(w: seq<Block>, f: seq<Block>, prf: PrfState)

  /** The two table blocks of an AND gate and the false label of its output. */
  function GarbleAnd(x: Block, y: Block, delta: Block, hash: TccrHash, i: nat): (Block, Block, Block) {
    var hx0, hx1 := hash(x, 2 * i), hash(XorBlocks(x, delta), 2 * i);
    var hy0, hy1 := hash(y, 2 * i + 1), hash(XorBlocks(y, delta), 2 * i + 1);
    var g0 := if Lsb(y) then XorBlocks(XorBlocks(hx0, hx1), delta) else XorBlocks(hx0, hx1);
    var g1 := XorBlocks(XorBlocks(hy0, hy1), x);
    var out1 := if Lsb(x) then hx1 else hx0;
    var out2 := if Lsb(y) then hy1 else hy0;
    (g0, g1, if Lsb(x) && Lsb(y) then XorBlocks(XorBlocks(out1, out2), delta) else XorBlocks(out1, out2))
  }

  function GarbleGate(g: Gate, i: nat, shares: seq<seq<Block>>, delta: Block, core: Core, hash: TccrHash,
                      s: GarblerState): (r: GarblerState)
    requires g.InRange(|s.w|) && g.Finds(shares)
    ensures |r.w| == |s.w|
  {
    match g
    case Input(no, id, wire) => s.(w := s.w[wire := shares[no][id]])
    case Constant(val, wire) =>
      var (drawn, prf) := DrawBlock(core, s.prf);
      var zero := SetLow(drawn);
      GarblerState(s.w[wire := zero], s.f + [Active(zero, val, delta)], prf)
    case Xor(x, y, out) => s.(w := s.w[out := XorBlocks(s.w[x], s.w[y])])
    case And(x, y, _, out) =>
      var (g0, g1, lbl) := GarbleAnd(s.w[x], s.w[y], delta, hash, i);
      s.(w := s.w[out := lbl], f := s.f + [g0, g1])
    case Inv(x, out) => s.(w := s.w[out := XorBlocks(s.w[x], delta)])
  }

  /** False labels, table and label stream after the first `k` gates. */
  function GarbleAfter(c: BinaryCircuit, shares: seq<seq<Block>>, delta: Block, core: Core, hash: TccrHash,
                       prf: PrfState, k: nat): (r: GarblerState)
    requires c.WiresInRange() && c.InputsFit(shares) && k <= |c.gates|
    ensures |r.w| == c.numWires
  {
    if k == 0 then GarblerState(seq(c.numWires, _ => Zero()), [], prf)
    else GarbleGate(c.gates[k - 1], k - 1, shares, delta, core, hash,
                    GarbleAfter(c, shares, delta, core, hash, prf, k - 1))
  }

  function GarbleAll(c: BinaryCircuit, shares: seq<seq<Block>>, delta: Block, core: Core, hash: TccrHash,
                     prf: PrfState): (r: GarblerState)
    requires c.WiresInRange() && c.InputsFit(shares)
    ensures |r.w| == c.numWires
  {
    GarbleAfter(c, shares, delta, core, hash, prf, |c.gates|)
  }

  class GarblerSetup {
    const delta: Block
    const partyId: nat
    const prf: LabelPrf

    constructor (delta: Block, partyId: nat, prf: LabelPrf)
      ensures this.delta == delta && this.partyId == partyId && this.prf == prf
    {
      this.delta, this.partyId, this.prf := delta, partyId, prf;
    }
  }

  /** The outputs are keyed by wire ID, as in the source's hash map. */
  method Garble(c: BinaryCircuit, shares: seq<seq<Block>>, setup: GarblerSetup, hash: TccrHash)
    returns (f: seq<Block>, outputs: map<nat, Block>)
    requires c.WiresInRange() && c.InputsFit(shares) && setup.prf.Valid()
    modifies setup.prf`wordPos
    ensures setup.prf.Valid()
    ensures var r := GarbleAll(c, shares, setup.delta, setup.prf.core, hash, old(setup.prf.State()));
            f == r.f && setup.prf.State() == r.prf && outputs == OutputMap(r.w, c.outputGateIds)
  {
    hide XorBlocks, SetLow, GarbleAnd, OutputMap;
    var w := new Block[c.numWires](_ => Zero());
    f := [];
    ghost var start := setup.prf.State();
    for i := 0 to |c.gates|
      invariant setup.prf.Valid()
      invariant GarblerState(w[..], f, setup.prf.State())
             == GarbleAfter(c, shares, setup.delta, setup.prf.core, hash, start, i)
    {
      ghost var before := GarblerState(w[..], f, setup.prf.State());
      match c.gates[i] {
        case Input(no, id, wire) =>
          w[wire] := shares[no][id];
        case Constant(val, wire) =>
          var zero := setup.prf.NextBlock();
          zero := SetLow(zero);
          f := f + [if val then XorBlocks(zero, setup.delta) else zero];
          w[wire] := zero;
        case Xor(x, y, out) =>
          w[out] := XorBlocks(w[x], w[y]);
        case And(x, y, _, out) =>
          var g0, g1, lbl := GarbleAndGate(w[x], w[y], setup.delta, hash, i);
          f := f + [g0] + [g1];
          w[out] := lbl;
        case Inv(x, out) =>
          w[out] := XorBlocks(w[x], setup.delta);
      }
      assert GarblerState(w[..], f, setup.prf.State())
          == GarbleGate(c.gates[i], i, shares, setup.delta, setup.prf.core, hash, before);
    }
    outputs := CollectOutputs(w[..], c.outputGateIds);
  }

  method GarbleAndGate(x: Block, y: Block, delta: Block, hash: TccrHash, i: nat)
    returns (g0: Block, g1: Block, lbl: Block)
    ensures (g0, g1, lbl) == GarbleAnd(x, y, delta, hash, i)
  {
    var xp, yp := XorBlocks(x, delta), XorBlocks(y, delta);
    var px, py := Lsb(x), Lsb(y);
    var g0p1, g0p2 := hash(x, 2 * i), hash(xp, 2 * i);
    g0 := if py then XorBlocks(XorBlocks(g0p1, g0p2), delta) else XorBlocks(g0p1, g0p2);
    var g1p1, g1p2 := hash(y, 2 * i + 1), hash(yp, 2 * i + 1);
    g1 := XorBlocks(XorBlocks(g1p1, g1p2), x);
    var out1 := if px then g0p2 else g0p1;
    var out2 := if py then g1p2 else g1p1;
    lbl := if px && py then XorBlocks(XorBlocks(out1, out2), delta) else XorBlocks(out1, out2);
  }

  function OutputMap(w: seq<Block>, ids: seq<nat>): (r: map<nat, Block>)
    requires forall i | 0 <= i < |ids| :: ids[i] < |w|
    ensures forall i | 0 <= i < |ids| :: ids[i] in r && r[ids[i]] == w[ids[i]]
  {
    map id | id in ids :: w[id]
  }

  method CollectOutputs(w: seq<Block>, ids: seq<nat>) returns (r: map<nat, Block>)
    requires forall i | 0 <= i < |ids| :: ids[i] < |w|
    ensures r == OutputMap(w, ids)
  {
    r := map[];
    for i := 0 to |ids|
      invariant r == OutputMap(w, ids[..i])
    {
      r := r[ids[i] := w[ids[i]]];
    }
    assert ids[..|ids|] == ids;
  }

  // ----- evaluator -----

  datatype EvaluatorState = EvaluatorState(w: seq<Block>, cursor: nat)

  function EvalAnd(x: Block, y: Block, g0: Block, g1: Block, hash: TccrHash, i: nat): Block {
    var p := XorBlocks(hash(x, 2 * i), hash(y, 2 * i + 1));
    var q := if Lsb(x) then XorBlocks(p, g0) else p;
    if Lsb(y) then XorBlocks(XorBlocks(x, g1), q) else q
  }

  /** One gate of the evaluator; `None` is the source's `InvalidLength`. */
  function EvalGate(g: Gate, i: nat, labels: seq<seq<Block>>, f: seq<Block>, hash: TccrHash,
                    s: EvaluatorState): (r: Option<EvaluatorState>)
    ensures r.Some? ==> |r.value.w| == |s.w|
  {
    if !g.InRange(|s.w|) then None
    else match g
      case Input(no, id, wire) =>
        if g.Finds(labels) then Some(s.(w := s.w[wire := labels[no][id]])) else None
      case Constant(_, wire) =>
        if s.cursor < |f| then Some(EvaluatorState(s.w[wire := f[s.cursor]], s.cursor + 1)) else None
      case Xor(x, y, out) => Some(s.(w := s.w[out := XorBlocks(s.w[x], s.w[y])]))
      case And(x, y, _, out) =>
        if s.cursor + 1 < |f| then
          var lbl := EvalAnd(s.w[x], s.w[y], f[s.cursor], f[s.cursor + 1], hash, i);
          Some(EvaluatorState(s.w[out := lbl], s.cursor + 2))
        else None
      case Inv(x, out) => Some(s.(w := s.w[out := s.w[x]]))
  }

  function EvalAfter(c: BinaryCircuit, labels: seq<seq<Block>>, f: seq<Block>, hash: TccrHash,
                     k: nat): (r: Option<EvaluatorState>)
    requires k <= |c.gates|
    ensures r.Some? ==> |r.value.w| == c.numWires
  {
    if k == 0 then Some(EvaluatorState(seq(c.numWires, _ => Zero()), 0))
    else
      var s := EvalAfter(c, labels, f, hash, k - 1);
      if s.None? then None else EvalGate(c.gates[k - 1], k - 1, labels, f, hash, s.value)
  }

  function EvalAll(c: BinaryCircuit, labels: seq<seq<Block>>, f: seq<Block>, hash: TccrHash)
    : (r: Result<map<nat, Block>, ProtocolError>)
  {
    var s := EvalAfter(c, labels, f, hash, |c.gates|);
    if s.None? || exists i | 0 <= i < |c.outputGateIds| :: c.outputGateIds[i] >= c.numWires then Err(InvalidLength)
    else Ok(OutputMap(s.value.w, c.outputGateIds))
  }

  method EvaluateGarbled(c: BinaryCircuit, labels: seq<seq<Block>>, f: seq<Block>, hash: TccrHash)
    returns (r: Result<map<nat, Block>, ProtocolError>)
    ensures r == EvalAll(c, labels, f, hash)
  {
    var fIndex := 0;
    var w := new Block[c.numWires](_ => Zero());
    assert w[..] == seq(c.numWires, _ => Zero());
    for i := 0 to |c.gates|
      invariant EvalAfter(c, labels, f, hash, i) == Some(EvaluatorState(w[..], fIndex))
    {
      ghost var before := EvaluatorState(w[..], fIndex);
      var outGate, lbl, used := EvaluateGate(c.gates[i], i, labels, f, hash, w[..], fIndex);
      assert EvalAfter(c, labels, f, hash, i + 1) == EvalGate(c.gates[i], i, labels, f, hash, before);
      if lbl.None? || outGate >= w.Length {
        EvalAfterNone(c, labels, f, hash, i + 1, |c.gates|);
        return Err(InvalidLength);
      }
      w[outGate] := lbl.value;
      fIndex := fIndex + used;
      assert w[..] == before.w[outGate := lbl.value];
    }
    r := CollectChecked(w[..], c.outputGateIds);
  }

  /** The output map, unless an output wire is out of range. */
  method CollectChecked(w: seq<Block>, ids: seq<nat>) returns (r: Result<map<nat, Block>, ProtocolError>)
    ensures r == if exists i | 0 <= i < |ids| :: ids[i] >= |w| then Err(InvalidLength) else Ok(OutputMap(w, ids))
  {
    var outputs := map[];
    for i := 0 to |ids|
      invariant forall j | 0 <= j < i :: ids[j] < |w|
      invariant outputs == OutputMap(w, ids[..i])
    {
      if ids[i] >= |w| {
        return Err(InvalidLength);
      }
      outputs := outputs[ids[i] := w[ids[i]]];
    }
    assert ids[..|ids|] == ids;
    r := Ok(outputs);
  }

  /** The output wire, its label unless something was missing, and the table blocks used. */
  method EvaluateGate(g: Gate, i: nat, labels: seq<seq<Block>>, f: seq<Block>, hash: TccrHash,
                      w: seq<Block>, fIndex: nat) returns (out: nat, lbl: Option<Block>, used: nat)
    ensures out == g.Out()
    ensures EvalGate(g, i, labels, f, hash, EvaluatorState(w, fIndex))
         == if lbl.Some? && out < |w| then Some(EvaluatorState(w[out := lbl.value], fIndex + used)) else None
  {
    out, lbl, used := g.Out(), None, 0;
    match g {
      case Input(no, id, _) =>
        if no < |labels| && id < |labels[no]| {
          lbl := Some(labels[no][id]);
        }
      case Constant(_, _) =>
        if fIndex < |f| {
          lbl, used := Some(f[fIndex]), 1;
        }
      case Xor(x, y, _) =>
        if x < |w| && y < |w| {
          lbl := Some(XorBlocks(w[x], w[y]));
        }
      case And(x, y, _, _) =>
        if x < |w| && y < |w| && fIndex < |f| && fIndex + 1 < |f| {
          var sx, sy := Lsb(w[x]), Lsb(w[y]);
          var g0, g1 := f[fIndex], f[fIndex + 1];
          var p1, p2 := hash(w[x], 2 * i), hash(w[y], 2 * i + 1);
          var p3 := if sx then XorBlocks(XorBlocks(p1, p2), g0) else XorBlocks(p1, p2);
          lbl, used := Some(if sy then XorBlocks(XorBlocks(w[x], g1), p3) else p3), 2;
        }
      case Inv(x, _) =>
        if x < |w| {
          lbl := Some(w[x]);
        }
    }
  }

  lemma {:induction false} EvalAfterNone(c: BinaryCircuit, labels: seq<seq<Block>>, f: seq<Block>, hash: TccrHash,
                                         k: nat, n: nat)
    requires k <= n <= |c.gates| && EvalAfter(c, labels, f, hash, k).None?
    ensures EvalAfter(c, labels, f, hash, n).None?
  {
    if k < n {
      EvalAfterNone(c, labels, f, hash, k, n - 1);
    }
  }

  // ----- when evaluation succeeds -----

  /** Evaluation gets through the first `k` gates exactly when their wires are in range, their
      inputs are present and the table holds two blocks per AND and one per constant. */
  lemma {:induction false} EvalAfterOk(c: BinaryCircuit, labels: seq<seq<Block>>, f: seq<Block>, hash: TccrHash, k: nat)
    requires k <= |c.gates|
    ensures EvalAfter(c, labels, f, hash, k).Some? <==>
      (forall j | 0 <= j < k :: c.gates[j].InRange(c.numWires) && c.gates[j].Finds(labels)) &&
      TableLength(c.gates[..k]) <= |f|
    ensures var s := EvalAfter(c, labels, f, hash, k);
            s.Some? ==> s.value.cursor == TableLength(c.gates[..k])
  {
    if k > 0 {
      EvalAfterOk(c, labels, f, hash, k - 1);
      TableLengthStep(c.gates, k - 1);
    }
  }

  /** `evaluate_functionality` returns `Ok` exactly on circuits in range, with every input label
      present and a table at least as long as the circuit needs. */
  lemma EvalOkIff(c: BinaryCircuit, labels: seq<seq<Block>>, f: seq<Block>, hash: TccrHash)
    ensures EvalAll(c, labels, f, hash).Ok? <==>
      c.WiresInRange() && c.InputsFit(labels) && TableLength(c.gates) <= |f|
  {
    EvalAfterOk(c, labels, f, hash, |c.gates|);
    assert c.gates[..|c.gates|] == c.gates;
  }

  // ----- garbling and evaluation agree with the plain evaluator -----

  /** The xor cancellations of one half-gates AND: `hx`, `hy` are the hashes under the active
      labels, `px`, `py` the low bits of the false labels. */
  lemma HalfGatesXor(x: Block, d: Block, hx0: Block, hx1: Block, hy0: Block, hy1: Block,
                     a: bool, b: bool, px: bool, py: bool)
    ensures var hx, hy := if a then hx1 else hx0, if b then hy1 else hy0;
            var g0 := if py then XorBlocks(XorBlocks(hx0, hx1), d) else XorBlocks(hx0, hx1);
            var g1 := XorBlocks(XorBlocks(hy0, hy1), x);
            var q := if px != a then XorBlocks(XorBlocks(hx, hy), g0) else XorBlocks(hx, hy);
            var r := if py != b then XorBlocks(XorBlocks(Active(x, a, d), g1), q) else q;
            var out := XorBlocks(if px then hx1 else hx0, if py then hy1 else hy0);
            r == Active(if px && py then XorBlocks(out, d) else out, a && b, d)
  {
    var hx, hy := if a then hx1 else hx0, if b then hy1 else hy0;
    var g0 := if py then XorBlocks(XorBlocks(hx0, hx1), d) else XorBlocks(hx0, hx1);
    var g1 := XorBlocks(XorBlocks(hy0, hy1), x);
    var q := if px != a then XorBlocks(XorBlocks(hx, hy), g0) else XorBlocks(hx, hy);
    var r := if py != b then XorBlocks(XorBlocks(Active(x, a, d), g1), q) else q;
    var out := XorBlocks(if px then hx1 else hx0, if py then hy1 else hy0);
    var lbl := Active(if px && py then XorBlocks(out, d) else out, a && b, d);
    forall i | 0 <= i < 16
      ensures r[i] == lbl[i]
    {
      HalfGatesByte(x[i], d[i], hx0[i], hx1[i], hy0[i], hy1[i], a, b, px, py);
    }
  }

  lemma HalfGatesByte(x: Byte, d: Byte, hx0: Byte, hx1: Byte, hy0: Byte, hy1: Byte,
                      a: bool, b: bool, px: bool, py: bool)
    ensures var hx, hy := if a then hx1 else hx0, if b then hy1 else hy0;
            var g0 := if py then hx0 ^ hx1 ^ d else hx0 ^ hx1;
            var g1 := hy0 ^ hy1 ^ x;
            var q := if px != a then hx ^ hy ^ g0 else hx ^ hy;
            var r := if py != b then (if a then x ^ d else x) ^ g1 ^ q else q;
            var out := (if px then hx1 else hx0) ^ (if py then hy1 else hy0);
            var f := if px && py then out ^ d else out;
            r == if a && b then f ^ d else f
  {
  }

  /** The half-gates identity, for both input bits and arbitrary hash values. */
  lemma AndGateCorrect(x: Block, y: Block, delta: Block, hash: TccrHash, i: nat, a: bool, b: bool)
    requires Lsb(delta)
    ensures var (g0, g1, out) := GarbleAnd(x, y, delta, hash, i);
            EvalAnd(Active(x, a, delta), Active(y, b, delta), g0, g1, hash, i) == Active(out, a && b, delta)
  {
    ActiveLsb(x, a, delta);
    ActiveLsb(y, b, delta);
    HalfGatesXor(x, delta, hash(x, 2 * i), hash(XorBlocks(x, delta), 2 * i),
                 hash(y, 2 * i + 1), hash(XorBlocks(y, delta), 2 * i + 1), a, b, Lsb(x), Lsb(y));
  }

  /** Every input's active label encodes the input bit. */
  predicate InputsEncode(c: BinaryCircuit, shares: seq<seq<Block>>, labels: seq<seq<Block>>,
                         inputs: seq<seq<bool>>, delta: Block)
    requires c.InputsFit(shares) && c.InputsFit(labels) && c.InputsFit(inputs)
  {
    forall k | 0 <= k < |c.gates| && c.gates[k].Input? ::
      var g := c.gates[k];
      labels[g.no][g.id] == Active(shares[g.no][g.id], inputs[g.no][g.id], delta)
  }

  /** Table blocks written by the first `k` gates stay in place and have the expected number. */
  lemma {:induction false} TablePrefix(c: BinaryCircuit, shares: seq<seq<Block>>, delta: Block, core: Core,
                                       hash: TccrHash, prf: PrfState, k: nat, n: nat)
    requires c.WiresInRange() && c.InputsFit(shares) && k <= n <= |c.gates|
    ensures GarbleAfter(c, shares, delta, core, hash, prf, k).f <= GarbleAfter(c, shares, delta, core, hash, prf, n).f
    ensures |GarbleAfter(c, shares, delta, core, hash, prf, n).f| == TableLength(c.gates[..n])
    decreases n
  {
    if n > 0 {
      TablePrefix(c, shares, delta, core, hash, prf, if k < n then k else n - 1, n - 1);
      TableLengthStep(c.gates, n - 1);
    }
  }

  /** On every wire the evaluator's label is the garbler's false label, shifted by delta exactly
      when the plain value is true, and both stand at the same place of the table. */
  predicate Agrees(s: GarblerState, e: Option<EvaluatorState>, v: seq<bool>, delta: Block) {
    e.Some? && |s.w| == |e.value.w| == |v| && e.value.cursor == |s.f| &&
    forall w | 0 <= w < |v| :: e.value.w[w] == Active(s.w[w], v[w], delta)
  }

  /** The two loops agree after every gate. Agreement holds from the all-zero start, so no wire
      need be driven before it is read. */
  lemma {:induction false} WireLabels(c: BinaryCircuit, shares: seq<seq<Block>>, labels: seq<seq<Block>>,
                                      inputs: seq<seq<bool>>, delta: Block, core: Core, hash: TccrHash, prf: PrfState,
                                      f: seq<Block>, k: nat)
    requires c.WiresInRange() && c.InputsFit(shares) && c.InputsFit(labels) && c.InputsFit(inputs)
    requires InputsEncode(c, shares, labels, inputs, delta) && Lsb(delta)
    requires GarbleAll(c, shares, delta, core, hash, prf).f <= f && k <= |c.gates|
    ensures Agrees(GarbleAfter(c, shares, delta, core, hash, prf, k), EvalAfter(c, labels, f, hash, k),
                   WiresAfter(c, inputs, k), delta)
  {
    if k > 0 {
      WireLabels(c, shares, labels, inputs, delta, core, hash, prf, f, k - 1);
      TablePrefix(c, shares, delta, core, hash, prf, k, |c.gates|);
      WireLabelsStep(c.gates[k - 1], k - 1, shares, labels, inputs, delta, core, hash, f,
                     GarbleAfter(c, shares, delta, core, hash, prf, k - 1), EvalAfter(c, labels, f, hash, k - 1).value,
                     WiresAfter(c, inputs, k - 1));
    }
  }

  lemma WireLabelsStep(g: Gate, i: nat, shares: seq<seq<Block>>, labels: seq<seq<Block>>, inputs: seq<seq<bool>>,
                       delta: Block, core: Core, hash: TccrHash, f: seq<Block>,
                       s: GarblerState, e: EvaluatorState, v: seq<bool>)
    requires Agrees(s, Some(e), v, delta) && g.InRange(|v|)
    requires g.Finds(shares) && g.Finds(labels) && g.Finds(inputs) && Lsb(delta)
    requires g.Input? ==> labels[g.no][g.id] == Active(shares[g.no][g.id], inputs[g.no][g.id], delta)
    requires GarbleGate(g, i, shares, delta, core, hash, s).f <= f
    ensures Agrees(GarbleGate(g, i, shares, delta, core, hash, s), EvalGate(g, i, labels, f, hash, e),
                   v[g.Out() := GateValue(g, inputs, v)], delta)
  {
    match g
    case Input(no, id, _) =>
    case Constant(_, _) =>
      assert f[|s.f|] == GarbleGate(g, i, shares, delta, core, hash, s).f[|s.f|];
    case Xor(x, y, _) =>
      ActiveXor(s.w[x], v[x], s.w[y], v[y], delta);
    case And(x, y, _, _) =>
      var table := GarbleGate(g, i, shares, delta, core, hash, s).f;
      assert f[|s.f|] == table[|s.f|] && f[|s.f| + 1] == table[|s.f| + 1];
      AndGateCorrect(s.w[x], s.w[y], delta, hash, i, v[x], v[y]);
    case Inv(x, _) =>
      ActiveNot(s.w[x], v[x], delta);
  }

  /** Garble, send the table (possibly followed by more blocks), evaluate: the evaluator succeeds
      and holds, for every output wire, the label of the plain evaluator's bit. */
  lemma GarbleThenEvaluate(c: BinaryCircuit, shares: seq<seq<Block>>, labels: seq<seq<Block>>,
                           inputs: seq<seq<bool>>, delta: Block, core: Core, hash: TccrHash, prf: PrfState,
                           f: seq<Block>)
    requires c.WiresInRange() && c.InputsFit(shares) && c.InputsFit(labels) && c.InputsFit(inputs)
    requires InputsEncode(c, shares, labels, inputs, delta) && Lsb(delta)
    requires GarbleAll(c, shares, delta, core, hash, prf).f <= f
    ensures var garbled, r := GarbleAll(c, shares, delta, core, hash, prf), EvalAll(c, labels, f, hash);
            |garbled.f| == TableLength(c.gates) && r.Ok? &&
            forall i | 0 <= i < |c.outputGateIds| ::
              var w := c.outputGateIds[i];
              w in r.value && r.value[w] == Active(garbled.w[w], Eval(c, inputs)[i], delta)
  {
    WireLabels(c, shares, labels, inputs, delta, core, hash, prf, f, |c.gates|);
    TablePrefix(c, shares, delta, core, hash, prf, |c.gates|, |c.gates|);
    assert c.gates[..|c.gates|] == c.gates;
  }
}
