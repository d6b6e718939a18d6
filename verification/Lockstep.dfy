/** The two garblers in lockstep: both run the same public sequence of functionalities on one
    generator state, each with its own private bits and received messages
    (`src/functionality/input.rs`, `garble.rs`, `b_to_y.rs`, `y_to_b.rs`,
    `crates/hd-migration/src/yao_to_rss.rs`). */
module Lockstep {
  import opened Wrappers
  import opened Blocks
  import opened Circuits
  import opened LabelPrfs
  import opened Garbling
  import opened Inputs
  import opened BinaryShares

  /** One functionality with its public parameters. Shares made so far are named by position. */
  datatype Op =
    | InputFromAll(n: nat)
    | EvalCircuit(c: BinaryCircuit, args: seq<nat>)
    | BitsToYao(n: nat)
    | YaoToBits(arg: nat)
    | KeyPair

  /** What a garbler feeds into one functionality: its own input bits, the bits received from the
      evaluator, its binary shares, and the mask labels of Yao to binary. */
  datatype Private = Private(input: seq<bool>, recv: seq<bool>, shares: seq<BinaryShare>, masks: seq<Block>)

  datatype Oracles = Oracles(commit: Commit, pairHash: PairHash, tccr: TccrHash)

  type Store = seq<seq<Block>>

  const SCALAR_BYTES: nat := 32

  function Chosen(store: Store, args: seq<nat>): seq<seq<Block>>
    requires forall i | 0 <= i < |args| :: args[i] < |store|
  {
    seq(|args|, i requires 0 <= i < |args| => store[args[i]])
  }

  /** The public arguments make sense; otherwise the functionality panics. */
  predicate Runs(op: Op, store: Store) {
    match op
    case EvalCircuit(c, args) =>
      (forall i | 0 <= i < |args| :: args[i] < |store|) && c.WiresInRange() && c.InputsFit(Chosen(store, args))
    case YaoToBits(arg) => arg < |store|
    case _ => true
  }

  function OutputLabels(w: seq<Block>, ids: seq<nat>): seq<Block>
    requires forall i | 0 <= i < |ids| :: ids[i] < |w|
  {
    seq(|ids|, i requires 0 <= i < |ids| => w[ids[i]])
  }

  /** The false labels and the generator state after one functionality. Neither the garbler's index
      nor anything private appears. */
  function After(op: Op, store: Store, delta: Block, core: Core, tccr: TccrHash, st: PrfState): (Store, PrfState)
    requires Runs(op, store)
  {
    match op
    case InputFromAll(n) =>
      var (ds1, ds2, mid) := InputDraws(core, st, n);
      var (ps, end) := DrawPads(core, mid, n);
      (store + [FalseLabels(ds1), FalseLabels(ds2), PadShares(ps)], end)
    case EvalCircuit(c, args) =>
      var r := GarbleAll(c, Chosen(store, args), delta, core, tccr, st);
      (store + [OutputLabels(r.w, c.outputGateIds)], r.prf)
    case BitsToYao(n) =>
      var (ds, end) := DrawShares(core, st, n);
      (store + [ShareLabels(ds)], end)
    case YaoToBits(arg) => (store, WitnessPairs(core, st, |store[arg]|).1)
    case KeyPair => (store, FourScalars(st))
  }

  function FourScalars(st: PrfState): PrfState {
    Advance(Advance(Advance(Advance(st, 8), 8), 8), 8)
  }

  function AfterAll(ops: seq<Op>, store: Store, delta: Block, core: Core, tccr: TccrHash, st: PrfState)
    : Option<(Store, PrfState)>
  {
    if ops == [] then Some((store, st))
    else
      match AfterAll(ops[..|ops| - 1], store, delta, core, tccr, st)
      case None => None
      case Some((mid, st')) =>
        if Runs(ops[|ops| - 1], mid) then Some(After(ops[|ops| - 1], mid, delta, core, tccr, st')) else None
  }

  /** The private data has the public lengths. */
  predicate FitsOp(op: Op, store: Store, p: Private) {
    match op
    case InputFromAll(n) => |p.input| == |p.recv| == n
    case BitsToYao(n) => |p.shares| == n
    case YaoToBits(arg) => arg < |store| && |p.masks| == |store[arg]|
    case _ => true
  }

  method DrawScalars(prf: LabelPrf)
    requires prf.Valid()
    modifies prf`wordPos
    ensures prf.Valid() && prf.State() == FourScalars(old(prf.State()))
  {
    var bytes := new Byte[SCALAR_BYTES](_ => 0);
    prf.FillBytes(bytes);
    prf.FillBytes(bytes);
    prf.FillBytes(bytes);
    prf.FillBytes(bytes);
  }

  method InputStep(input: seq<bool>, recv: seq<bool>, setup: GarblerSetup, commit: Commit)
    returns (i1: seq<Block>, i2: seq<Block>, i3: seq<Block>)
    requires setup.prf.Valid() && |input| == |recv|
    modifies setup.prf`wordPos
    ensures setup.prf.Valid()
    ensures var (ds1, ds2, mid) := InputDraws(setup.prf.core, old(setup.prf.State()), |input|);
            var (ps, end) := DrawPads(setup.prf.core, mid, |input|);
            i1 == FalseLabels(ds1) && i2 == FalseLabels(ds2) && i3 == PadShares(ps) && setup.prf.State() == end
  {
    hide DrawWires, DrawPads, Msg1, Msg2, FalseLabels, PadShares;
    ghost var msg1;
    msg1, i1, i2 := CreateMsg1(commit, setup, input);
    var r := CreateMsg2(commit, setup, |input|, recv);
    i3 := r.value.1;
  }

  /** One functionality as garbler `setup.partyId` runs it, on its own private data: the shares it
      ends with and the state of its generator are the ones above. */
  method Step(op: Op, store: Store, p: Private, setup: GarblerSetup, o: Oracles) returns (out: Store)
    requires setup.prf.Valid() && Runs(op, store) && FitsOp(op, store, p)
    modifies setup.prf`wordPos
    ensures setup.prf.Valid()
    ensures (out, setup.prf.State()) == After(op, store, setup.delta, setup.prf.core, o.tccr, old(setup.prf.State()))
  {
    hide DrawWires, DrawPads, DrawShares, WitnessPairs, GarbleAll, FalseLabels, PadShares, ShareLabels, FourScalars;
    match op {
      case InputFromAll(n) =>
        var i1, i2, i3 := InputStep(p.input, p.recv, setup, o.commit);
        out := store + [i1, i2, i3];
      case EvalCircuit(c, args) =>
        var f, outputs := Garble(c, Chosen(store, args), setup, o.tccr);
        ghost var w := GarbleAll(c, Chosen(store, args), setup.delta, setup.prf.core, o.tccr, old(setup.prf.State())).w;
        var labels := seq(|c.outputGateIds|, i requires 0 <= i < |c.outputGateIds| => outputs[c.outputGateIds[i]]);
        assert labels == OutputLabels(w, c.outputGateIds);
        out := store + [labels];
      case BitsToYao(n) =>
        var msgs, labels := CreateShareMsgs(p.shares, setup, o.commit, o.pairHash);
        out := store + [labels];
      case YaoToBits(arg) =>
        var msgs := CreateYaoMsgs2(p.masks, store[arg], setup, o.commit);
        out := store;
      case KeyPair =>
        DrawScalars(setup.prf);
        out := store;
    }
  }

  /** Every functionality of the run can be run, with private data of the public lengths. */
  predicate AllFit(ops: seq<Op>, ps: seq<Private>, delta: Block, core: Core, tccr: TccrHash, st: PrfState) {
    |ps| == |ops| && forall k | 0 <= k < |ops| ::
      var before := AfterAll(ops[..k], [], delta, core, tccr, st);
      before.Some? && Runs(ops[k], before.value.0) && FitsOp(ops[k], before.value.0, ps[k])
  }

  method Run(ops: seq<Op>, ps: seq<Private>, setup: GarblerSetup, o: Oracles) returns (store: Store)
    requires setup.prf.Valid() && AllFit(ops, ps, setup.delta, setup.prf.core, o.tccr, setup.prf.State())
    modifies setup.prf`wordPos
    ensures setup.prf.Valid()
    ensures AfterAll(ops, [], setup.delta, setup.prf.core, o.tccr, old(setup.prf.State())) == Some((store, setup.prf.State()))
  {
    hide After, Runs, FitsOp;
    store := [];
    ghost var st := setup.prf.State();
    for k := 0 to |ops|
      invariant setup.prf.Valid()
      invariant AfterAll(ops[..k], [], setup.delta, setup.prf.core, o.tccr, st) == Some((store, setup.prf.State()))
    {
      store := Step(ops[k], store, ps[k], setup, o);
      assert ops[..k + 1][..k] == ops[..k];
    }
    assert ops[..|ops|] == ops;
  }

  /** Two garblers that start from equal states and run the same public sequence end with equal
      false labels and equal generator states, whatever their private data. */
  method RunBoth(ops: seq<Op>, ps0: seq<Private>, ps1: seq<Private>, g0: GarblerSetup, g1: GarblerSetup, o: Oracles)
    returns (labels0: Store, labels1: Store)
    requires g0.prf != g1.prf && g0.prf.Valid() && g0.prf.State() == g1.prf.State()
    requires g0.delta == g1.delta && g0.prf.core == g1.prf.core
    requires AllFit(ops, ps0, g0.delta, g0.prf.core, o.tccr, g0.prf.State())
    requires AllFit(ops, ps1, g1.delta, g1.prf.core, o.tccr, g1.prf.State())
    modifies g0.prf`wordPos, g1.prf`wordPos
    ensures labels0 == labels1 && g0.prf.State() == g1.prf.State() && g0.prf.Valid()
  {
    hide AllFit, AfterAll;
    labels0 := Run(ops, ps0, g0, o);
    labels1 := Run(ops, ps1, g1, o);
  }

  // ----- how far the generator moves -----

  type Shape = seq<nat>

  function ShapeOf(store: Store): Shape {
    seq(|store|, i requires 0 <= i < |store| => |store[i]|)
  }

  function NextShape(op: Op, shape: Shape): Shape {
    match op
    case InputFromAll(n) => shape + [n, n, n]
    case EvalCircuit(c, _) => shape + [|c.outputGateIds|]
    case BitsToYao(n) => shape + [n]
    case _ => shape
  }

  /** Words of the label stream one functionality uses. */
  function Words(op: Op, shape: Shape): nat {
    match op
    case InputFromAll(n) => 50 * n
    case EvalCircuit(c, _) => 4 * CountConst(c.gates)
    case BitsToYao(n) => 28 * n
    case YaoToBits(arg) => if arg < |shape| then 8 * shape[arg] else 0
    case KeyPair => 32
  }

  function ShapeAfter(ops: seq<Op>): Shape {
    if ops == [] then [] else NextShape(ops[|ops| - 1], ShapeAfter(ops[..|ops| - 1]))
  }

  function TotalWords(ops: seq<Op>): nat {
    if ops == [] then 0
    else TotalWords(ops[..|ops| - 1]) + Words(ops[|ops| - 1], ShapeAfter(ops[..|ops| - 1]))
  }

  lemma AdvanceNone(st: PrfState)
    requires st.Valid()
    ensures Advance(st, 0) == st
  {
  }

  lemma {:induction false} WiresAdvance(core: Core, st: PrfState, n: nat)
    requires st.Valid()
    ensures DrawWires(core, st, n).1 == Advance(st, 13 * n)
  {
    hide Advance, KeyBytes, FromLeBytes;
    if n > 0 {
      WiresAdvance(core, st, n - 1);
      var s := DrawWires(core, st, n - 1).1;
      AdvanceFour(s, 1, 4, 4, 4);
      AdvanceTwice(st, 13 * (n - 1), 13);
    } else {
      AdvanceNone(st);
    }
  }

  lemma AdvanceFour(st: PrfState, a: nat, b: nat, c: nat, d: nat)
    ensures Advance(Advance(Advance(Advance(st, a), b), c), d) == Advance(st, a + b + c + d)
  {
    AdvanceTwice(st, a, b);
    AdvanceTwice(st, a + b, c);
    AdvanceTwice(st, a + b + c, d);
  }

  lemma {:induction false} PadsAdvance(core: Core, st: PrfState, n: nat)
    requires st.Valid()
    ensures DrawPads(core, st, n).1 == Advance(st, 24 * n)
  {
    hide Advance, KeyBytes, FromLeBytes;
    if n > 0 {
      PadsAdvance(core, st, n - 1);
      var s := DrawPads(core, st, n - 1).1;
      AdvanceFour(s, 4, 4, 4, 4);
      AdvanceTwice(s, 16, 4);
      AdvanceTwice(s, 20, 4);
      AdvanceTwice(st, 24 * (n - 1), 24);
    } else {
      AdvanceNone(st);
    }
  }

  lemma {:induction false} SharesAdvance(core: Core, st: PrfState, n: nat)
    requires st.Valid()
    ensures DrawShares(core, st, n).1 == Advance(st, 28 * n)
  {
    hide Advance, KeyBytes, FromLeBytes;
    if n > 0 {
      SharesAdvance(core, st, n - 1);
      var s := DrawShares(core, st, n - 1).1;
      AdvanceFour(s, 4, 4, 4, 4);
      AdvanceTwice(s, 16, 4);
      AdvanceTwice(s, 20, 4);
      AdvanceTwice(s, 24, 4);
      AdvanceTwice(st, 28 * (n - 1), 28);
    } else {
      AdvanceNone(st);
    }
  }

  lemma {:induction false} WitnessesAdvance(core: Core, st: PrfState, n: nat)
    requires st.Valid()
    ensures WitnessPairs(core, st, n).1 == Advance(st, 8 * n)
  {
    hide Advance, KeyBytes, FromLeBytes;
    if n > 0 {
      WitnessesAdvance(core, st, n - 1);
      AdvanceTwice(WitnessPairs(core, st, n - 1).1, 4, 4);
      AdvanceTwice(st, 8 * (n - 1), 8);
    } else {
      AdvanceNone(st);
    }
  }

  lemma {:induction false} GarblingAdvances(c: BinaryCircuit, shares: seq<seq<Block>>, delta: Block, core: Core,
                                            tccr: TccrHash, st: PrfState, k: nat)
    requires c.WiresInRange() && c.InputsFit(shares) && k <= |c.gates| && st.Valid()
    ensures GarbleAfter(c, shares, delta, core, tccr, st, k).prf == Advance(st, 4 * CountConst(c.gates[..k]))
  {
    hide XorBlocks, GarbleAnd, SetLow, KeyBytes;
    if k > 0 {
      GarblingAdvances(c, shares, delta, core, tccr, st, k - 1);
      assert c.gates[..k][..k - 1] == c.gates[..k - 1];
      AdvanceTwice(st, 4 * CountConst(c.gates[..k - 1]), 4);
    }
  }

  lemma OpAdvances(op: Op, store: Store, delta: Block, core: Core, tccr: TccrHash, st: PrfState)
    requires Runs(op, store) && st.Valid()
    ensures var (out, end) := After(op, store, delta, core, tccr, st);
            end == Advance(st, Words(op, ShapeOf(store))) && ShapeOf(out) == NextShape(op, ShapeOf(store))
  {
    hide DrawWires, DrawPads, DrawShares, WitnessPairs, GarbleAfter;
    match op {
      case InputFromAll(n) =>
        WiresAdvance(core, st, n);
        WiresAdvance(core, Advance(st, 13 * n), n);
        AdvanceTwice(st, 13 * n, 13 * n);
        PadsAdvance(core, Advance(st, 26 * n), n);
        AdvanceTwice(st, 26 * n, 24 * n);
      case EvalCircuit(c, args) =>
        GarblingAdvances(c, Chosen(store, args), delta, core, tccr, st, |c.gates|);
        assert c.gates[..|c.gates|] == c.gates;
      case BitsToYao(n) => SharesAdvance(core, st, n);
      case YaoToBits(arg) => WitnessesAdvance(core, st, |store[arg]|);
      case KeyPair => AdvanceFour(st, 8, 8, 8, 8);
    }
  }

  /** The generator's final position and the number of shares follow from the public sequence
      alone: 50 words an input bit, 28 a converted bit, 8 a revealed bit, 4 a constant gate, 32 a
      key pair. */
  lemma {:induction false} RunAdvances(ops: seq<Op>, delta: Block, core: Core, tccr: TccrHash, st: PrfState)
    requires st.Valid()
    ensures var r := AfterAll(ops, [], delta, core, tccr, st);
            r.Some? ==> r.value.1 == Advance(st, TotalWords(ops)) && ShapeOf(r.value.0) == ShapeAfter(ops)
  {
    hide After, Words, NextShape, ShapeOf, Runs;
    if ops == [] {
      AdvanceNone(st);
      ShapeOfNothing();
    } else {
      var k := |ops| - 1;
      RunAdvances(ops[..k], delta, core, tccr, st);
      var before := AfterAll(ops[..k], [], delta, core, tccr, st);
      if before.Some? && Runs(ops[k], before.value.0) {
        OpAdvances(ops[k], before.value.0, delta, core, tccr, before.value.1);
        AdvanceTwice(st, TotalWords(ops[..k]), Words(ops[k], ShapeAfter(ops[..k])));
      }
    }
  }

  lemma ShapeOfNothing()
    ensures ShapeOf([]) == []
  {
  }
}
