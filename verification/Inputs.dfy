/** Private inputs of all three parties as Yao shares
    (`crates/zcash/src/derivation_session/phases/batch_input_yao.rs`, `src/functionality/input.rs`).
    The commitment scheme is a parameter. The garblers' inputs are committed by both garblers and
    opened by their owner; the evaluator's input is split into two random pads, one per garbler. */
module Inputs {
  import opened Wrappers
  import opened Blocks
  import opened LabelPrfs
  import opened Garbling

  /** `commit(message, witness)`; verification recomputes it. */
  type Commit = (Block, Block) -> Block

  // ----- what the garblers draw -----

  datatype WireDraw = WireDraw(permute: bool, w0: Block, wit0: Block, wit1: Block)

  function DrawWire(core: Core, st: PrfState): (WireDraw, PrfState) {
    var (b, s1) := DrawBit(core, st);
    var (w0, s2) := DrawBlock(core, s1);
    var (wit0, s3) := DrawBlock(core, s2);
    var (wit1, s4) := DrawBlock(core, s3);
    (WireDraw(b, w0, wit0, wit1), s4)
  }

  function DrawWires(core: Core, st: PrfState, n: nat): (r: (seq<WireDraw>, PrfState))
    ensures |r.0| == n
  {
    if n == 0 then ([], st)
    else
      var (ds, s) := DrawWires(core, st, n - 1);
      var (d, s') := DrawWire(core, s);
      (ds + [d], s')
  }

  datatype PadDraw = PadDraw(w01: Block, w02: Block, wit1f: Block, wit1t: Block, wit2f: Block, wit2t: Block)

  function DrawPad(core: Core, st: PrfState): (PadDraw, PrfState) {
    var (w01, s1) := DrawBlock(core, st);
    var (w02, s2) := DrawBlock(core, s1);
    var (wit1f, s3) := DrawBlock(core, s2);
    var (wit1t, s4) := DrawBlock(core, s3);
    var (wit2f, s5) := DrawBlock(core, s4);
    var (wit2t, s6) := DrawBlock(core, s5);
    (PadDraw(w01, w02, wit1f, wit1t, wit2f, wit2t), s6)
  }

  function DrawPads(core: Core, st: PrfState, n: nat): (r: (seq<PadDraw>, PrfState))
    ensures |r.0| == n
  {
    if n == 0 then ([], st)
    else
      var (ds, s) := DrawPads(core, st, n - 1);
      var (d, s') := DrawPad(core, s);
      (ds + [d], s')
  }

  // ----- the garblers' first message -----

  datatype InputMsg1 = InputMsg1(comI1_0: seq<Block>, comI2_0: seq<Block>, comI1_1: seq<Block>, comI2_1: seq<Block>,
                                 w: seq<Block>, wit: seq<Block>)

  /** The two commitments of a wire, in the order given by the permute bit. */
  function Com(commit: Commit, d: WireDraw, delta: Block, second: bool): Block {
    if d.permute == second then commit(d.w0, d.wit0) else commit(XorBlocks(d.w0, delta), d.wit1)
  }

  function Coms(commit: Commit, ds: seq<WireDraw>, delta: Block, second: bool): seq<Block> {
    seq(|ds|, i requires 0 <= i < |ds| => Com(commit, ds[i], delta, second))
  }

  function FalseLabels(ds: seq<WireDraw>): (r: seq<Block>)
    ensures |r| == |ds|
  {
    seq(|ds|, i requires 0 <= i < |ds| => ds[i].w0)
  }

  /** The labels of the input, which open one commitment of each pair. */
  function OpenLabels(ds: seq<WireDraw>, input: seq<bool>, delta: Block): (r: seq<Block>)
    requires |ds| <= |input|
    ensures |r| == |ds|
  {
    seq(|ds|, i requires 0 <= i < |ds| => Active(ds[i].w0, input[i], delta))
  }

  function OpenWitnesses(ds: seq<WireDraw>, input: seq<bool>): (r: seq<Block>)
    requires |ds| <= |input|
    ensures |r| == |ds|
  {
    seq(|ds|, i requires 0 <= i < |ds| => if input[i] then ds[i].wit1 else ds[i].wit0)
  }

  /** Garbler `id`'s message: all commitments, and openings for its own pass alone. */
  function Msg1(commit: Commit, id: nat, delta: Block, ds1: seq<WireDraw>, ds2: seq<WireDraw>, input: seq<bool>)
    : InputMsg1
    requires |ds1| <= |input| && |ds2| <= |input|
  {
    InputMsg1(Coms(commit, ds1, delta, false), Coms(commit, ds2, delta, false),
              Coms(commit, ds1, delta, true), Coms(commit, ds2, delta, true),
              (if id == 0 then OpenLabels(ds1, input, delta) else []) +
              (if id == 1 then OpenLabels(ds2, input, delta) else []),
              (if id == 0 then OpenWitnesses(ds1, input) else []) +
              (if id == 1 then OpenWitnesses(ds2, input) else []))
  }

  lemma ComsLength(commit: Commit, ds: seq<WireDraw>, delta: Block)
    ensures |Coms(commit, ds, delta, false)| == |Coms(commit, ds, delta, true)| == |ds|
  {
  }

  lemma ComsSnoc(commit: Commit, ds: seq<WireDraw>, d: WireDraw, delta: Block, second: bool)
    ensures Coms(commit, ds + [d], delta, second) == Coms(commit, ds, delta, second) + [Com(commit, d, delta, second)]
  {
    hide Com;
  }

  lemma OpenSnoc(ds: seq<WireDraw>, d: WireDraw, input: seq<bool>, delta: Block)
    requires |ds| < |input|
    ensures OpenLabels(ds + [d], input, delta) == OpenLabels(ds, input, delta) + [Active(d.w0, input[|ds|], delta)]
    ensures OpenWitnesses(ds + [d], input) == OpenWitnesses(ds, input) + [if input[|ds|] then d.wit1 else d.wit0]
    ensures FalseLabels(ds + [d]) == FalseLabels(ds) + [d.w0]
  {
    hide Active;
  }

  lemma Msg1Snoc1(commit: Commit, id: nat, delta: Block, ds1: seq<WireDraw>, d: WireDraw, input: seq<bool>)
    requires |ds1| < |input|
    ensures var i, m, m' := |ds1|, Msg1(commit, id, delta, ds1, [], input), Msg1(commit, id, delta, ds1 + [d], [], input);
            m' == m.(comI1_0 := m.comI1_0 + [Com(commit, d, delta, false)],
                     comI1_1 := m.comI1_1 + [Com(commit, d, delta, true)],
                     w := if id == 0 then m.w + [Active(d.w0, input[i], delta)] else m.w,
                     wit := if id == 0 then m.wit + [if input[i] then d.wit1 else d.wit0] else m.wit)
    ensures FalseLabels(ds1 + [d]) == FalseLabels(ds1) + [d.w0]
  {
    hide Coms, Com, OpenLabels, OpenWitnesses, FalseLabels, Active;
    ComsSnoc(commit, ds1, d, delta, false);
    ComsSnoc(commit, ds1, d, delta, true);
    OpenSnoc(ds1, d, input, delta);
    NoneOpened(input, delta);
  }

  lemma NoneOpened(input: seq<bool>, delta: Block)
    ensures OpenLabels([], input, delta) == [] && OpenWitnesses([], input) == []
  {
  }

  lemma Msg1Snoc2(commit: Commit, id: nat, delta: Block, ds1: seq<WireDraw>, ds2: seq<WireDraw>, d: WireDraw,
                  input: seq<bool>)
    requires |ds2| < |input| && |ds1| <= |input|
    ensures var i, m, m' := |ds2|, Msg1(commit, id, delta, ds1, ds2, input), Msg1(commit, id, delta, ds1, ds2 + [d], input);
            m' == m.(comI2_0 := m.comI2_0 + [Com(commit, d, delta, false)],
                     comI2_1 := m.comI2_1 + [Com(commit, d, delta, true)],
                     w := if id == 1 then m.w + [Active(d.w0, input[i], delta)] else m.w,
                     wit := if id == 1 then m.wit + [if input[i] then d.wit1 else d.wit0] else m.wit)
    ensures FalseLabels(ds2 + [d]) == FalseLabels(ds2) + [d.w0]
  {
    hide Coms, Com, OpenLabels, OpenWitnesses, FalseLabels, Active;
    ComsSnoc(commit, ds2, d, delta, false);
    ComsSnoc(commit, ds2, d, delta, true);
    OpenSnoc(ds2, d, input, delta);
  }

  method DrawInputWire(commit: Commit, setup: GarblerSetup) returns (d: WireDraw, comm0: Block, comm1: Block)
    requires setup.prf.Valid()
    modifies setup.prf`wordPos
    ensures setup.prf.Valid() && (d, setup.prf.State()) == DrawWire(setup.prf.core, old(setup.prf.State()))
    ensures comm0 == Com(commit, d, setup.delta, false) && comm1 == Com(commit, d, setup.delta, true)
  {
    var word := setup.prf.NextU32();
    var b := word % 2 == 0;
    var w0 := setup.prf.NextBlock();
    var wit0 := setup.prf.NextBlock();
    var wit1 := setup.prf.NextBlock();
    comm0 := if !b then commit(w0, wit0) else commit(XorBlocks(w0, setup.delta), wit1);
    comm1 := if b then commit(w0, wit0) else commit(XorBlocks(w0, setup.delta), wit1);
    d := WireDraw(b, w0, wit0, wit1);
  }

  /** The draws of both passes. */
  function InputDraws(core: Core, st: PrfState, n: nat): (seq<WireDraw>, seq<WireDraw>, PrfState) {
    var (ds1, mid) := DrawWires(core, st, n);
    var (ds2, end) := DrawWires(core, mid, n);
    (ds1, ds2, end)
  }

  /** The message depends on the garbler and its input; the shares and the generator do not. */
  method CreateMsg1(commit: Commit, setup: GarblerSetup, input: seq<bool>)
    returns (msg: InputMsg1, i1: seq<Block>, i2: seq<Block>)
    requires setup.prf.Valid()
    modifies setup.prf`wordPos
    ensures setup.prf.Valid()
    ensures var (ds1, ds2, end) := InputDraws(setup.prf.core, old(setup.prf.State()), |input|);
            msg == Msg1(commit, setup.partyId, setup.delta, ds1, ds2, input) &&
            i1 == FalseLabels(ds1) && i2 == FalseLabels(ds2) && setup.prf.State() == end
  {
    hide Com, DrawWire;
    msg := InputMsg1([], [], [], [], [], []);
    i1, i2 := [], [];
    ghost var ds: seq<seq<WireDraw>> := [[], []];
    ghost var st := setup.prf.State();
    ghost var core, id, delta := setup.prf.core, setup.partyId, setup.delta;
    for pass := 0 to 2
      invariant setup.prf.Valid() && |ds| == 2
      invariant pass == 0 ==> setup.prf.State() == st && ds[0] == []
      invariant pass >= 1 ==> ds[0] == DrawWires(core, st, |input|).0
      invariant pass == 1 ==> setup.prf.State() == DrawWires(core, st, |input|).1
      invariant pass <= 1 ==> ds[1] == []
      invariant pass == 2 ==> InputDraws(core, st, |input|) == (ds[0], ds[1], setup.prf.State())
      invariant msg == Msg1(commit, id, delta, ds[0], ds[1], input)
      invariant i1 == FalseLabels(ds[0]) && i2 == FalseLabels(ds[1])
    {
      ghost var from := setup.prf.State();
      for k := 0 to |input|
        invariant setup.prf.Valid() && |ds| == 2
        invariant DrawWires(core, from, k) == (ds[pass], setup.prf.State())
        invariant pass == 0 ==> ds[1] == []
        invariant pass == 1 ==> ds[0] == DrawWires(core, st, |input|).0
        invariant msg == Msg1(commit, id, delta, ds[0], ds[1], input)
        invariant i1 == FalseLabels(ds[0]) && i2 == FalseLabels(ds[1])
      {
        var d, comm0, comm1 := DrawInputWire(commit, setup);
        var bit := input[k];
        if pass == 0 {
          Msg1Snoc1(commit, id, delta, ds[0], d, input);
          msg := msg.(comI1_0 := msg.comI1_0 + [comm0], comI1_1 := msg.comI1_1 + [comm1]);
          i1 := i1 + [d.w0];
        } else {
          Msg1Snoc2(commit, id, delta, ds[0], ds[1], d, input);
          msg := msg.(comI2_0 := msg.comI2_0 + [comm0], comI2_1 := msg.comI2_1 + [comm1]);
          i2 := i2 + [d.w0];
        }
        if setup.partyId == pass {
          if bit {
            msg := msg.(w := msg.w + [XorBlocks(d.w0, setup.delta)], wit := msg.wit + [d.wit1]);
          } else {
            msg := msg.(w := msg.w + [d.w0], wit := msg.wit + [d.wit0]);
          }
        }
        ds := ds[pass := ds[pass] + [d]];
      }
    }
  }

  // ----- the garblers' second message -----

  datatype InputMsg2 = InputMsg2(comm1f: seq<Block>, comm1t: seq<Block>, comm2f: seq<Block>, comm2t: seq<Block>,
                                 w: seq<Block>, wit: seq<Block>)

  function PadLabel(id: nat, d: PadDraw, choice: bool, delta: Block): Block {
    Active(if id == 0 then d.w01 else d.w02, choice, delta)
  }

  function PadWitness(id: nat, d: PadDraw, choice: bool): Block {
    if id == 0 then (if choice then d.wit1t else d.wit1f) else (if choice then d.wit2t else d.wit2f)
  }

  function PadCom(commit: Commit, d: PadDraw, delta: Block, first: bool, choice: bool): Block {
    if first then commit(Active(d.w01, choice, delta), if choice then d.wit1t else d.wit1f)
    else commit(Active(d.w02, choice, delta), if choice then d.wit2t else d.wit2f)
  }

  function PadComs(commit: Commit, ds: seq<PadDraw>, delta: Block, first: bool, choice: bool): seq<Block> {
    seq(|ds|, i requires 0 <= i < |ds| => PadCom(commit, ds[i], delta, first, choice))
  }

  /** Garbler `id`'s message: all commitments, and one opening per bit it received. */
  function Msg2(commit: Commit, id: nat, delta: Block, ds: seq<PadDraw>, recv: seq<bool>): InputMsg2
    requires |ds| <= |recv|
  {
    InputMsg2(PadComs(commit, ds, delta, true, false), PadComs(commit, ds, delta, true, true),
              PadComs(commit, ds, delta, false, false), PadComs(commit, ds, delta, false, true),
              seq(|ds|, i requires 0 <= i < |ds| => PadLabel(id, ds[i], recv[i], delta)),
              seq(|ds|, i requires 0 <= i < |ds| => PadWitness(id, ds[i], recv[i])))
  }

  /** The false labels of the evaluator's input. */
  function PadShares(ds: seq<PadDraw>): (r: seq<Block>)
    ensures |r| == |ds|
  {
    seq(|ds|, i requires 0 <= i < |ds| => XorBlocks(ds[i].w01, ds[i].w02))
  }

  lemma Msg2Snoc(commit: Commit, id: nat, delta: Block, ds: seq<PadDraw>, d: PadDraw, recv: seq<bool>)
    requires |ds| < |recv|
    ensures var choice, m := recv[|ds|], Msg2(commit, id, delta, ds, recv);
            Msg2(commit, id, delta, ds + [d], recv) ==
            InputMsg2(m.comm1f + [commit(d.w01, d.wit1f)], m.comm1t + [commit(XorBlocks(d.w01, delta), d.wit1t)],
                      m.comm2f + [commit(d.w02, d.wit2f)], m.comm2t + [commit(XorBlocks(d.w02, delta), d.wit2t)],
                      m.w + [PadLabel(id, d, choice, delta)], m.wit + [PadWitness(id, d, choice)])
    ensures PadShares(ds + [d]) == PadShares(ds) + [XorBlocks(d.w01, d.w02)]
  {
  }

  method DrawPadWire(setup: GarblerSetup) returns (d: PadDraw)
    requires setup.prf.Valid()
    modifies setup.prf`wordPos
    ensures setup.prf.Valid() && (d, setup.prf.State()) == DrawPad(setup.prf.core, old(setup.prf.State()))
  {
    var w01 := setup.prf.NextBlock();
    var w02 := setup.prf.NextBlock();
    var wit1f := setup.prf.NextBlock();
    var wit1t := setup.prf.NextBlock();
    var wit2f := setup.prf.NextBlock();
    var wit2t := setup.prf.NextBlock();
    d := PadDraw(w01, w02, wit1f, wit1t, wit2f, wit2t);
  }

  method CreateMsg2(commit: Commit, setup: GarblerSetup, len: nat, recv: seq<bool>)
    returns (r: Result<(InputMsg2, seq<Block>), ProtocolError>)
    requires setup.prf.Valid()
    modifies setup.prf`wordPos
    ensures setup.prf.Valid()
    ensures |recv| != len ==> r == Err(InvalidMessage) && setup.prf.State() == old(setup.prf.State())
    ensures |recv| == len ==>
      var (ds, end) := DrawPads(setup.prf.core, old(setup.prf.State()), len);
      r == Ok((Msg2(commit, setup.partyId, setup.delta, ds, recv), PadShares(ds))) && setup.prf.State() == end
  {
    hide DrawPad;
    if |recv| != len {
      return Err(InvalidMessage);
    }
    var out := InputMsg2([], [], [], [], [], []);
    var shares: seq<Block> := [];
    ghost var ds: seq<PadDraw> := [];
    ghost var core, st, delta := setup.prf.core, setup.prf.State(), setup.delta;
    for k := 0 to len
      invariant setup.prf.Valid() && DrawPads(core, st, k) == (ds, setup.prf.State())
      invariant out == Msg2(commit, setup.partyId, delta, ds, recv) && shares == PadShares(ds)
    {
      var choice := recv[k];
      var d := DrawPadWire(setup);
      Msg2Snoc(commit, setup.partyId, delta, ds, d, recv);
      XorComm(delta, d.w01);
      XorComm(delta, d.w02);
      var comm1t := commit(XorBlocks(setup.delta, d.w01), d.wit1t);
      var comm2t := commit(XorBlocks(setup.delta, d.w02), d.wit2t);
      var lbl := if setup.partyId == 0 then (if choice then XorBlocks(d.w01, setup.delta) else d.w01)
                 else if choice then XorBlocks(d.w02, setup.delta) else d.w02;
      var wit := if setup.partyId == 0 then (if choice then d.wit1t else d.wit1f)
                     else if choice then d.wit2t else d.wit2f;
      shares := shares + [XorBlocks(d.w01, d.w02)];
      out := InputMsg2(out.comm1f + [commit(d.w01, d.wit1f)], out.comm1t + [comm1t],
                       out.comm2f + [commit(d.w02, d.wit2f)], out.comm2t + [comm2t],
                       out.w + [lbl], out.wit + [wit]);
      ds := ds + [d];
    }
    r := Ok((out, shares));
  }

  // ----- the evaluator -----

  /** Its input split into a random pad and the padded input. */
  function PaddedBits(input: seq<bool>, pad: seq<bool>): seq<bool>
    requires |input| == |pad|
  {
    seq(|input|, i requires 0 <= i < |input| => pad[i] != input[i])
  }

  method EvaluatorBits(input: seq<bool>, tape: seq<bool>) returns (p0: seq<bool>, p1: seq<bool>)
    requires |tape| == |input|
    ensures p0 == tape && p1 == PaddedBits(input, tape)
  {
    p0, p1 := [], [];
    for i := 0 to |input|
      invariant p0 == tape[..i] && |p1| == i && forall k | 0 <= k < i :: p1[k] == (tape[k] != input[k])
    {
      var x0 := tape[i];
      p0 := p0 + [x0];
      p1 := p1 + [x0 != input[i]];
    }
  }

  predicate Msg1HasLength(m: InputMsg1, n: nat) {
    |m.comI1_0| == |m.comI2_0| == |m.comI1_1| == |m.comI2_1| == |m.w| == |m.wit| == n
  }

  predicate Msg2HasLength(m: InputMsg2, n: nat) {
    |m.comm1f| == |m.comm1t| == |m.comm2f| == |m.comm2t| == |m.w| == |m.wit| == n
  }

  /** The label opens exactly one of the two commitments. */
  predicate OpensOne(commit: Commit, c0: Block, c1: Block, lbl: Block, wit: Block) {
    (commit(lbl, wit) == c0) != (commit(lbl, wit) == c1)
  }

  function ProcessLabels(commit: Commit, c0: seq<Block>, c1: seq<Block>, w: seq<Block>, wit: seq<Block>)
    : Result<seq<Block>, ProtocolError>
    requires |c0| == |c1| == |w| == |wit|
  {
    if forall i | 0 <= i < |w| :: OpensOne(commit, c0[i], c1[i], w[i], wit[i]) then Ok(w) else Err(InvalidMessage)
  }

  function ProcessMsg1(commit: Commit, p0: InputMsg1, p1: InputMsg1, n: nat)
    : Result<(seq<Block>, seq<Block>), ProtocolError>
  {
    if !Msg1HasLength(p0, n) || !Msg1HasLength(p1, n) then Err(InvalidMessage)
    else if p0.comI1_0 != p1.comI1_0 || p0.comI1_1 != p1.comI1_1 ||
            p0.comI2_0 != p1.comI2_0 || p0.comI2_1 != p1.comI2_1 then Err(InconsistentMessage)
    else
      match ProcessLabels(commit, p1.comI1_0, p1.comI1_1, p0.w, p0.wit)
      case Err(e) => Err(e)
      case Ok(i1) =>
        match ProcessLabels(commit, p0.comI2_0, p0.comI2_1, p1.w, p1.wit)
        case Err(e) => Err(e)
        case Ok(i2) => Ok((i1, i2))
  }

  predicate PadOpens(commit: Commit, m: InputMsg2, other: InputMsg2, first: bool, choice: bool, i: nat)
    requires i < |m.w| && i < |m.wit|
    requires i < |other.comm1f| && i < |other.comm1t| && i < |other.comm2f| && i < |other.comm2t|
  {
    var c := if first then (if choice then other.comm1t[i] else other.comm1f[i])
             else if choice then other.comm2t[i] else other.comm2f[i];
    commit(m.w[i], m.wit[i]) == c
  }

  function ProcessMsg2(commit: Commit, p0: InputMsg2, p1: InputMsg2, n: nat, bits0: seq<bool>, bits1: seq<bool>)
    : Result<seq<Block>, ProtocolError>
  {
    if |bits0| != n || |bits1| != n || !Msg2HasLength(p0, n) || !Msg2HasLength(p1, n) then Err(InvalidMessage)
    else if p0.comm1f != p1.comm1f || p0.comm1t != p1.comm1t || p0.comm2f != p1.comm2f || p0.comm2t != p1.comm2t
    then Err(InconsistentMessage)
    else if forall i | 0 <= i < n :: PadOpens(commit, p0, p1, true, bits0[i], i) && PadOpens(commit, p1, p0, false, bits1[i], i)
    then Ok(seq(n, i requires 0 <= i < n => XorBlocks(p0.w[i], p1.w[i])))
    else Err(InvalidMessage)
  }

  method ProcessMsg2Loop(commit: Commit, p0: InputMsg2, p1: InputMsg2, n: nat, bits0: seq<bool>, bits1: seq<bool>)
    returns (r: Result<seq<Block>, ProtocolError>)
    ensures r == ProcessMsg2(commit, p0, p1, n, bits0, bits1)
  {
    if |bits0| != n || |bits1| != n || !Msg2HasLength(p0, n) || !Msg2HasLength(p1, n) {
      return Err(InvalidMessage);
    }
    if p0.comm1f != p1.comm1f || p0.comm1t != p1.comm1t || p0.comm2f != p1.comm2f || p0.comm2t != p1.comm2t {
      return Err(InconsistentMessage);
    }
    var out: seq<Block> := [];
    for i := 0 to n
      invariant out == seq(i, k requires 0 <= k < i => XorBlocks(p0.w[k], p1.w[k]))
      invariant forall k | 0 <= k < i ::
        PadOpens(commit, p0, p1, true, bits0[k], k) && PadOpens(commit, p1, p0, false, bits1[k], k)
    {
      var valid0 := commit(p0.w[i], p0.wit[i]) == if bits0[i] then p1.comm1t[i] else p1.comm1f[i];
      var valid1 := commit(p1.w[i], p1.wit[i]) == if bits1[i] then p0.comm2t[i] else p0.comm2f[i];
      assert valid0 == PadOpens(commit, p0, p1, true, bits0[i], i);
      assert valid1 == PadOpens(commit, p1, p0, false, bits1[i], i);
      if !valid0 || !valid1 {
        return Err(InvalidMessage);
      }
      out := out + [XorBlocks(p0.w[i], p1.w[i])];
    }
    r := Ok(out);
  }

  // ----- honest runs -----

  /** The wire's two commitments differ. */
  predicate Separated(commit: Commit, d: WireDraw, delta: Block) {
    commit(d.w0, d.wit0) != commit(XorBlocks(d.w0, delta), d.wit1)
  }

  predicate AllSeparated(commit: Commit, ds: seq<WireDraw>, delta: Block) {
    forall i | 0 <= i < |ds| :: Separated(commit, ds[i], delta)
  }

  /** The permute bit alone tells which of the two commitments is to the false label: the first one
      if it is clear. */
  lemma PermuteOrders(commit: Commit, d: WireDraw, delta: Block, second: bool)
    ensures Com(commit, d, delta, second) == Com(commit, d.(permute := !d.permute), delta, !second)
    ensures !d.permute ==> Com(commit, d, delta, false) == commit(d.w0, d.wit0) &&
                           Com(commit, d, delta, true) == commit(Active(d.w0, true, delta), d.wit1)
  {
  }

  lemma OpensOneIff(commit: Commit, d: WireDraw, delta: Block, bit: bool)
    ensures OpensOne(commit, Com(commit, d, delta, false), Com(commit, d, delta, true), Active(d.w0, bit, delta),
                     if bit then d.wit1 else d.wit0)
            <==> Separated(commit, d, delta)
  {
  }

  lemma HonestLabels(commit: Commit, ds: seq<WireDraw>, input: seq<bool>, delta: Block)
    requires |ds| == |input|
    ensures ProcessLabels(commit, Coms(commit, ds, delta, false), Coms(commit, ds, delta, true),
                          OpenLabels(ds, input, delta), OpenWitnesses(ds, input))
         == if AllSeparated(commit, ds, delta) then Ok(OpenLabels(ds, input, delta)) else Err(InvalidMessage)
  {
    forall i | 0 <= i < |ds|
      ensures OpensOne(commit, Coms(commit, ds, delta, false)[i], Coms(commit, ds, delta, true)[i],
                       OpenLabels(ds, input, delta)[i], OpenWitnesses(ds, input)[i])
              <==> Separated(commit, ds[i], delta)
    {
      OpensOneIff(commit, ds[i], delta, input[i]);
    }
  }

  /** Two honest garblers in lockstep are accepted exactly when no wire's two commitments collide,
      and then the evaluator holds the labels of both inputs. */
  lemma HonestMsg1(commit: Commit, delta: Block, ds1: seq<WireDraw>, ds2: seq<WireDraw>, x0: seq<bool>, x1: seq<bool>)
    requires |ds1| == |ds2| == |x0| == |x1|
    ensures ProcessMsg1(commit, Msg1(commit, 0, delta, ds1, ds2, x0), Msg1(commit, 1, delta, ds1, ds2, x1), |x0|)
         == if AllSeparated(commit, ds1, delta) && AllSeparated(commit, ds2, delta)
            then Ok((OpenLabels(ds1, x0, delta), OpenLabels(ds2, x1, delta)))
            else Err(InvalidMessage)
  {
    hide ProcessLabels, AllSeparated, Coms, OpenLabels, OpenWitnesses;
    ComsLength(commit, ds1, delta);
    ComsLength(commit, ds2, delta);
    var p0, p1 := Msg1(commit, 0, delta, ds1, ds2, x0), Msg1(commit, 1, delta, ds1, ds2, x1);
    assert p0.w == OpenLabels(ds1, x0, delta) && p0.wit == OpenWitnesses(ds1, x0);
    assert p1.w == OpenLabels(ds2, x1, delta) && p1.wit == OpenWitnesses(ds2, x1);
    HonestLabels(commit, ds1, x0, delta);
    HonestLabels(commit, ds2, x1, delta);
  }

  /** Label `i` of the evaluator's input `x`. */
  function EvaluatorLabels(ds: seq<PadDraw>, x: seq<bool>, delta: Block): (r: seq<Block>)
    requires |ds| == |x|
    ensures |r| == |ds|
  {
    seq(|ds|, i requires 0 <= i < |ds| => Active(XorBlocks(ds[i].w01, ds[i].w02), x[i], delta))
  }

  /** Honest second messages are always accepted, and give the labels of the evaluator's input. */
  lemma HonestMsg2(commit: Commit, delta: Block, ds: seq<PadDraw>, x: seq<bool>, pad: seq<bool>)
    requires |ds| == |x| == |pad|
    ensures var bits1 := PaddedBits(x, pad);
            ProcessMsg2(commit, Msg2(commit, 0, delta, ds, pad), Msg2(commit, 1, delta, ds, bits1), |ds|, pad, bits1)
            == Ok(EvaluatorLabels(ds, x, delta))
  {
    var bits1 := PaddedBits(x, pad);
    var p0, p1 := Msg2(commit, 0, delta, ds, pad), Msg2(commit, 1, delta, ds, bits1);
    forall i | 0 <= i < |ds|
      ensures PadOpens(commit, p0, p1, true, pad[i], i) && PadOpens(commit, p1, p0, false, bits1[i], i)
      ensures XorBlocks(p0.w[i], p1.w[i]) == EvaluatorLabels(ds, x, delta)[i]
    {
      ActiveXor(ds[i].w01, pad[i], ds[i].w02, bits1[i], delta);
    }
    assert seq(|ds|, i requires 0 <= i < |ds| => XorBlocks(p0.w[i], p1.w[i])) == EvaluatorLabels(ds, x, delta);
  }

  // ----- one arbitrary garbler -----

  /** The two openings do not break the commitment. */
  predicate NoCollision(commit: Commit, m: Block, wit: Block, m': Block, wit': Block) {
    commit(m, wit) == commit(m', wit') ==> m == m'
  }

  /** No opening in the message collides with an honest wire's. */
  predicate WiresBind(commit: Commit, w: seq<Block>, wit: seq<Block>, ds: seq<WireDraw>, delta: Block) {
    forall i | 0 <= i < |w| && i < |wit| && i < |ds| ::
      NoCollision(commit, w[i], wit[i], ds[i].w0, ds[i].wit0) &&
      NoCollision(commit, w[i], wit[i], XorBlocks(ds[i].w0, delta), ds[i].wit1)
  }

  /** Every accepted label is one of the wire's two. */
  predicate LabelsOf(labels: seq<Block>, ds: seq<WireDraw>, delta: Block) {
    |labels| == |ds| && forall i | 0 <= i < |ds| ::
      labels[i] == Active(ds[i].w0, false, delta) || labels[i] == Active(ds[i].w0, true, delta)
  }

  lemma AcceptedLabels(commit: Commit, ds: seq<WireDraw>, delta: Block, w: seq<Block>, wit: seq<Block>)
    requires |w| == |wit| == |ds| && WiresBind(commit, w, wit, ds, delta)
    requires ProcessLabels(commit, Coms(commit, ds, delta, false), Coms(commit, ds, delta, true), w, wit).Ok?
    ensures LabelsOf(w, ds, delta)
  {
    var c0, c1 := Coms(commit, ds, delta, false), Coms(commit, ds, delta, true);
    forall i | 0 <= i < |ds|
      ensures w[i] == Active(ds[i].w0, false, delta) || w[i] == Active(ds[i].w0, true, delta)
    {
      assert OpensOne(commit, c0[i], c1[i], w[i], wit[i]);
      assert NoCollision(commit, w[i], wit[i], ds[i].w0, ds[i].wit0);
    }
  }

  /** With one honest garbler, accepted inputs are consistent: the honest garbler's input is intact
      and the other's labels belong to the wires that both committed to. */
  lemma OneHonestMsg1(commit: Commit, honest: nat, delta: Block, ds1: seq<WireDraw>, ds2: seq<WireDraw>, x: seq<bool>,
                      m: InputMsg1)
    requires |ds1| == |ds2| == |x| && honest < 2
    requires WiresBind(commit, m.w, m.wit, if honest == 0 then ds2 else ds1, delta)
    ensures var h := Msg1(commit, honest, delta, ds1, ds2, x);
            var r := if honest == 0 then ProcessMsg1(commit, h, m, |x|) else ProcessMsg1(commit, m, h, |x|);
            r.Ok? ==>
              m.comI1_0 == h.comI1_0 && m.comI1_1 == h.comI1_1 && m.comI2_0 == h.comI2_0 && m.comI2_1 == h.comI2_1 &&
              if honest == 0 then r.value.0 == OpenLabels(ds1, x, delta) && LabelsOf(r.value.1, ds2, delta)
              else LabelsOf(r.value.0, ds1, delta) && r.value.1 == OpenLabels(ds2, x, delta)
  {
    hide WiresBind, LabelsOf;
    var h := Msg1(commit, honest, delta, ds1, ds2, x);
    var r := if honest == 0 then ProcessMsg1(commit, h, m, |x|) else ProcessMsg1(commit, m, h, |x|);
    if r.Ok? {
      AcceptedLabels(commit, if honest == 0 then ds2 else ds1, delta, m.w, m.wit);
    }
  }

  predicate PadsBind(commit: Commit, m: InputMsg2, first: bool, ds: seq<PadDraw>, delta: Block) {
    forall i | 0 <= i < |m.w| && i < |m.wit| && i < |ds| ::
      var f := if first then ds[i].w01 else ds[i].w02;
      NoCollision(commit, m.w[i], m.wit[i], f, if first then ds[i].wit1f else ds[i].wit2f) &&
      NoCollision(commit, m.w[i], m.wit[i], XorBlocks(f, delta), if first then ds[i].wit1t else ds[i].wit2t)
  }

  /** With one honest garbler, an accepted second message gives the evaluator exactly the labels of
      its own input: the other garbler can make it stop, not make it compute on another value. */
  lemma OneHonestMsg2(commit: Commit, honest: nat, delta: Block, ds: seq<PadDraw>, x: seq<bool>, pad: seq<bool>,
                      m: InputMsg2)
    requires |ds| == |x| == |pad| && honest < 2 && PadsBind(commit, m, honest == 1, ds, delta)
    ensures var bits1 := PaddedBits(x, pad);
            var h := Msg2(commit, honest, delta, ds, if honest == 0 then pad else bits1);
            var r := if honest == 0 then ProcessMsg2(commit, h, m, |x|, pad, bits1)
                     else ProcessMsg2(commit, m, h, |x|, pad, bits1);
            r.Ok? ==>
              m.comm1f == h.comm1f && m.comm1t == h.comm1t && m.comm2f == h.comm2f && m.comm2t == h.comm2t &&
              r.value == EvaluatorLabels(ds, x, delta)
  {
    var bits1 := PaddedBits(x, pad);
    var h := Msg2(commit, honest, delta, ds, if honest == 0 then pad else bits1);
    var p0, p1 := if honest == 0 then h else m, if honest == 0 then m else h;
    var r := ProcessMsg2(commit, p0, p1, |x|, pad, bits1);
    if r.Ok? {
      forall i | 0 <= i < |x|
        ensures r.value[i] == EvaluatorLabels(ds, x, delta)[i]
      {
        assert PadOpens(commit, p0, p1, true, pad[i], i) && PadOpens(commit, p1, p0, false, bits1[i], i);
        PadLabelForced(commit, honest, delta, ds[i], if honest == 0 then bits1[i] else pad[i], m.w[i], m.wit[i]);
        ActiveXor(ds[i].w01, pad[i], ds[i].w02, bits1[i], delta);
      }
    }
  }

  lemma PadLabelForced(commit: Commit, honest: nat, delta: Block, d: PadDraw, choice: bool, lbl: Block, wit: Block)
    requires honest < 2
    requires var f := if honest == 1 then d.w01 else d.w02;
             NoCollision(commit, lbl, wit, f, if honest == 1 then d.wit1f else d.wit2f) &&
             NoCollision(commit, lbl, wit, XorBlocks(f, delta), if honest == 1 then d.wit1t else d.wit2t)
    requires commit(lbl, wit) ==
             commit(Active(if honest == 1 then d.w01 else d.w02, choice, delta), PadWitness(1 - honest, d, choice))
    ensures lbl == PadLabel(1 - honest, d, choice, delta)
  {
  }

  // ----- bit packing -----

  function BitMask(k: nat): Byte
    requires k < 8
  {
    if k == 0 then 1 else if k == 1 then 2 else if k == 2 then 4 else if k == 3 then 8
    else if k == 4 then 16 else if k == 5 then 32 else if k == 6 then 64 else 128
  }

  predicate BitAt(b: Byte, k: nat)
    requires k < 8
  {
    b & BitMask(k) != 0
  }

  lemma SetBit(b: Byte, k: nat, j: nat)
    requires k < 8 && j < 8
    ensures BitAt(b | BitMask(k), j) == (j == k || BitAt(b, j))
  {
  }

  lemma ZeroBit(k: nat)
    requires k < 8
    ensures !BitAt(0, k)
  {
  }

  lemma SameBits(a: Byte, b: Byte)
    requires forall k | 0 <= k < 8 :: BitAt(a, k) == BitAt(b, k)
    ensures a == b
  {
    assert BitAt(a, 0) == BitAt(b, 0) && BitAt(a, 1) == BitAt(b, 1) && BitAt(a, 2) == BitAt(b, 2);
    assert BitAt(a, 3) == BitAt(b, 3) && BitAt(a, 4) == BitAt(b, 4) && BitAt(a, 5) == BitAt(b, 5);
    assert BitAt(a, 6) == BitAt(b, 6) && BitAt(a, 7) == BitAt(b, 7);
  }

  function PackedLength(n: nat): nat {
    (n + 7) / 8
  }

  /** The bytes hold the bits, lowest bit first, and nothing else. */
  predicate Packs(bytes: seq<Byte>, bits: seq<bool>) {
    |bytes| == PackedLength(|bits|) &&
    forall i, k | 0 <= i < |bytes| && 0 <= k < 8 ::
      BitAt(bytes[i], k) == (8 * i + k < |bits| && bits[8 * i + k])
  }

  method EncodeBits(input: seq<bool>) returns (value: seq<Byte>)
    ensures Packs(value, input)
  {
    hide BitMask, BitAt;
    var bytes := new Byte[(|input| + 7) / 8](_ => 0);
    forall i, k | 0 <= i < bytes.Length && 0 <= k < 8
      ensures !BitAt(bytes[i], k)
    {
      ZeroBit(k);
    }
    for idx := 0 to |input|
      invariant forall i, k | 0 <= i < bytes.Length && 0 <= k < 8 ::
        BitAt(bytes[i], k) == (8 * i + k < idx && input[8 * i + k])
    {
      if input[idx] {
        var at, was := idx / 8, bytes[idx / 8];
        bytes[at] := was | BitMask(idx % 8);
        forall k | 0 <= k < 8
          ensures BitAt(bytes[at], k) == (k == idx % 8 || BitAt(was, k))
        {
          SetBit(was, idx % 8, k);
        }
      }
    }
    value := bytes[..];
  }

  function DecodeBits(input: seq<Byte>, n: nat): Result<seq<bool>, ProtocolError> {
    if |input| != PackedLength(n) then Err(InvalidMessage)
    else Ok(seq(n, i requires 0 <= i < n => BitAt(input[i / 8], i % 8)))
  }

  /** Decoding what was packed gives the bits back, and only the bits' own packing, or one with
      bits set beyond the length, decodes to them. */
  lemma PackRoundTrip(bytes: seq<Byte>, bits: seq<bool>)
    ensures Packs(bytes, bits) ==> DecodeBits(bytes, |bits|) == Ok(bits)
    ensures DecodeBits(bytes, |bits|) == Ok(bits) ==>
      (Packs(bytes, bits) <==> forall k | |bits| <= k < 8 * |bytes| :: !BitAt(bytes[k / 8], k % 8))
  {
    hide BitAt;
    if Packs(bytes, bits) {
      forall i | 0 <= i < |bits|
        ensures BitAt(bytes[i / 8], i % 8) == bits[i]
      {
        assert 8 * (i / 8) + i % 8 == i;
      }
      assert seq(|bits|, i requires 0 <= i < |bits| => BitAt(bytes[i / 8], i % 8)) == bits;
      forall k | |bits| <= k < 8 * |bytes|
        ensures !BitAt(bytes[k / 8], k % 8)
      {
        assert 8 * (k / 8) + k % 8 == k;
      }
    }
    if DecodeBits(bytes, |bits|) == Ok(bits) && (forall k | |bits| <= k < 8 * |bytes| :: !BitAt(bytes[k / 8], k % 8)) {
      forall i, k | 0 <= i < |bytes| && 0 <= k < 8
        ensures BitAt(bytes[i], k) == (8 * i + k < |bits| && bits[8 * i + k])
      {
        var j := 8 * i + k;
        assert j / 8 == i && j % 8 == k;
        if j < |bits| {
          assert DecodeBits(bytes, |bits|).value[j] == BitAt(bytes[j / 8], j % 8);
        }
      }
    }
  }
}
