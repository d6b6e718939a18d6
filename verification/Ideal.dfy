/** What every value of an honest derivation run is, as a function of the parties' seeds, Shamir
    shares and pad: nothing depends on the order of deliveries. */
module Ideal {
  import opened Wrappers
  import opened Blocks
  import opened Circuits
  import opened LabelPrfs
  import opened Garbling
  import opened Setup
  import opened Inputs
  import opened Numbers
  import opened PrimeField
  import opened Shamir
  import opened Builder
  import opened ImportCircuit
  import opened Phases
  import opened Control

  /** `secret` and `slope` give the line of the shares; `prfs` are the circuits embedded in the
      import circuit. */
  datatype Params = Params(env: Env, seeds: seq<Seed>, shares: seq<int>, pad: seq<bool>, secret: int, slope: int,
                           prfs: seq<BinaryCircuit>)

  predicate Three(par: Params) {
    |par.seeds| == 3 && |par.shares| == 3 && par.env.q > 1
  }

  /** Shares on a line over a prime field, and the import circuit for that field. */
  ghost predicate Honest(par: Params) {
    Three(par) && Prime(par.env.q) && 3 < par.env.q <= Pow2(SHARE_BITS) &&
    (forall p | 0 <= p < 3 :: Element(par.env.q, par.shares[p])) &&
    Line(par.env.q, EVAL_POINTS, par.shares, par.secret, par.slope) &&
    Imports(par.env.circuit, par.env.q, par.prfs) && |par.env.circuit.outputGateIds| == 1 + OUTPUT_BITS
  }

  // ----- setup and ring keys -----

  function StartContext(par: Params, p: nat): Context
    requires Three(par) && p < 3
  {
    Context(p, par.shares[p], par.seeds[p], par.pad, None)
  }

  function Crs(par: Params): Block
    requires Three(par)
  {
    DeriveBlock(par.env, "setup-yao/comm-crs", StartContext(par, 2))
  }

  function SharedSeed(par: Params): Seed
    requires Three(par)
  {
    par.env.derive("setup-yao/prf-seed", 0, par.seeds[0])
  }

  function Keys(par: Params): (r: GarblerKeys)
    requires Three(par)
    ensures Lsb(r.delta)
  {
    Expand(par.env.core, SharedSeed(par))
  }

  function RingKey(par: Params, p: nat): Seed
    requires Three(par) && p < 3
  {
    par.env.derive("common-randomness/key-next", p, par.seeds[p])
  }

  function Masks(par: Params): (r: seq<int>)
    requires Three(par)
    ensures |r| == 3
  {
    [RingScalar(par.env, RingKey(par, 0)), RingScalar(par.env, RingKey(par, 1)), RingScalar(par.env, RingKey(par, 2))]
  }

  function Masked(par: Params, p: nat): int
    requires Three(par) && p < 3
  {
    Padded(par.env.q, par.shares, Masks(par), EVAL_POINTS, p)
  }

  // ----- replicated shares -----

  function MaskedSecret(par: Params): int
    requires Three(par)
  {
    (par.secret + (Masks(par)[0] + Masks(par)[1] + Masks(par)[2])) % par.env.q
  }

  /** Party `p`'s replicated share: prev and next. */
  function Rss(par: Params, p: nat): (int, int)
    requires Three(par) && p < 3
  {
    FinalizeShamirToRss(par.env.q, MaskedSecret(par), PrevOf(Masks(par), p), Masks(par)[p], p)
  }

  lemma RssElements(par: Params, p: nat)
    requires Three(par) && p < 3
    ensures Element(par.env.q, Rss(par, p).0) && Element(par.env.q, Rss(par, p).1)
  {
  }

  lemma PointsAreFine(q: int)
    requires q > 3
    ensures Points(q, EVAL_POINTS) && forall i | 0 <= i < 3 :: EVAL_POINTS[i] != 0
  {
  }

  /** Every party reconstructs the masked secret, and the shares it then has are consistent. */
  lemma Reconstructs(par: Params, p: nat)
    requires Honest(par) && p < 3
    ensures ReconstructShare(par.env.q, Masked(par, p), Masked(par, Next(p)), Masked(par, Prev(p)), EVAL_POINTS, p)
         == Some(MaskedSecret(par))
    ensures Rss(par, 0).1 == Rss(par, 1).0 && Rss(par, 1).1 == Rss(par, 2).0 && Rss(par, 2).1 == Rss(par, 0).0
    ensures (Rss(par, 0).1 + Rss(par, 1).1 + Rss(par, 2).1) % par.env.q == par.secret % par.env.q
  {
    hide Padded, ReconstructShare, FinalizeShamirToRss, Imports, Line, Prime, Masks;
    var q := par.env.q;
    PointsAreFine(q);
    ShamirToRss(q, EVAL_POINTS, par.shares, Masks(par), par.secret, par.slope);
    var ys := PaddedAll(q, par.shares, Masks(par), EVAL_POINTS);
    assert ys == [Masked(par, 0), Masked(par, 1), Masked(par, 2)];
    assert PartyReconstruct(q, ys, EVAL_POINTS, p) == Some(MaskedSecret(par));
    assert (p + 1) % 3 == Next(p) && (p + 2) % 3 == Prev(p);
  }

  // ----- inputs -----

  function Word(par: Params, p: nat): (w: seq<bool>)
    requires Three(par) && p < 3
    ensures |w| == INPUT_BITS
  {
    InputWord(Rss(par, p).0, Rss(par, p).1)
  }

  function Wires1(par: Params): (r: seq<WireDraw>)
    requires Three(par)
    ensures |r| == INPUT_BITS
  {
    InputDraws(par.env.core, Keys(par).labels, INPUT_BITS).0
  }

  function Wires2(par: Params): (r: seq<WireDraw>)
    requires Three(par)
    ensures |r| == INPUT_BITS
  {
    InputDraws(par.env.core, Keys(par).labels, INPUT_BITS).1
  }

  function AfterInputs(par: Params): PrfState
    requires Three(par)
  {
    InputDraws(par.env.core, Keys(par).labels, INPUT_BITS).2
  }

  function Pads(par: Params): (r: seq<PadDraw>)
    requires Three(par)
    ensures |r| == INPUT_BITS
  {
    DrawPads(par.env.core, AfterInputs(par), INPUT_BITS).0
  }

  function AfterPads(par: Params): PrfState
    requires Three(par)
  {
    DrawPads(par.env.core, AfterInputs(par), INPUT_BITS).1
  }

  function Committing(par: Params): Commit
    requires Three(par)
  {
    CommitWith(par.env, Crs(par))
  }

  function FirstMsg(par: Params, g: nat): InputMsg1
    requires Three(par) && g < 2
  {
    Msg1(Committing(par), g, Keys(par).delta, Wires1(par), Wires2(par), Word(par, g))
  }

  function Bits(par: Params, g: nat): (r: seq<bool>)
    requires Three(par) && g < 2
    ensures |r| == INPUT_BITS
  {
    var bits0 := PadBits(StartContext(par, 2));
    if g == 0 then bits0 else PaddedBits(Word(par, 2), bits0)
  }

  function SecondMsg(par: Params, g: nat): InputMsg2
    requires Three(par) && g < 2
  {
    Msg2(Committing(par), g, Keys(par).delta, Pads(par), Bits(par, g))
  }

  predicate Separate(par: Params)
    requires Three(par)
  {
    AllSeparated(Committing(par), Wires1(par), Keys(par).delta) && AllSeparated(Committing(par), Wires2(par), Keys(par).delta)
  }

  lemma FirstMessages(par: Params)
    requires Three(par)
    ensures ProcessMsg1(Committing(par), FirstMsg(par, 0), FirstMsg(par, 1), INPUT_BITS)
         == if Separate(par) then Ok((OpenLabels(Wires1(par), Word(par, 0), Keys(par).delta),
                                      OpenLabels(Wires2(par), Word(par, 1), Keys(par).delta)))
            else Err(InvalidMessage)
  {
    hide Msg1, ProcessMsg1, AllSeparated, OpenLabels;
    HonestMsg1(Committing(par), Keys(par).delta, Wires1(par), Wires2(par), Word(par, 0), Word(par, 1));
  }

  lemma SecondMessages(par: Params)
    requires Three(par)
    ensures ProcessMsg2(Committing(par), SecondMsg(par, 0), SecondMsg(par, 1), INPUT_BITS, Bits(par, 0), Bits(par, 1))
         == Ok(EvaluatorLabels(Pads(par), Word(par, 2), Keys(par).delta))
  {
    hide Msg2, ProcessMsg2, EvaluatorLabels;
    HonestMsg2(Committing(par), Keys(par).delta, Pads(par), Word(par, 2), Bits(par, 0));
  }

  // ----- the circuit -----

  function FalseInputs(par: Params): (r: seq<seq<Block>>)
    requires Three(par)
  {
    MakeInputs(FalseLabels(Wires1(par)), FalseLabels(Wires2(par)), PadShares(Pads(par))).value
  }

  function ActiveInputs(par: Params): (r: seq<seq<Block>>)
    requires Three(par)
  {
    var delta := Keys(par).delta;
    MakeInputs(OpenLabels(Wires1(par), Word(par, 0), delta), OpenLabels(Wires2(par), Word(par, 1), delta),
               EvaluatorLabels(Pads(par), Word(par, 2), delta)).value
  }

  /** The words the circuit works on. */
  function ClearInputs(par: Params): (r: seq<seq<bool>>)
    requires Three(par)
    ensures |r| == 6 && forall n | 0 <= n < 6 :: |r[n]| == SHARE_BITS
  {
    [Word(par, 0)[SHARE_BITS..], Word(par, 1)[SHARE_BITS..], Word(par, 2)[SHARE_BITS..],
     Word(par, 0)[..SHARE_BITS], Word(par, 1)[..SHARE_BITS], Word(par, 2)[..SHARE_BITS]]
  }

  lemma InputsHaveShape(par: Params)
    requires Three(par)
    ensures |FalseInputs(par)| == 6 && |ActiveInputs(par)| == 6
    ensures forall n | 0 <= n < 6 :: |FalseInputs(par)[n]| == SHARE_BITS && |ActiveInputs(par)[n]| == SHARE_BITS
    ensures forall n, i | 0 <= n < 6 && 0 <= i < SHARE_BITS ::
      ActiveInputs(par)[n][i] == Active(FalseInputs(par)[n][i], ClearInputs(par)[n][i], Keys(par).delta)
  {
    hide Word, Wires1, Wires2, Pads, Keys;
  }

  lemma CircuitFits<T>(c: BinaryCircuit, inputs: seq<seq<T>>)
    requires SixShapes(c) && |inputs| == 6 && forall n | 0 <= n < 6 :: |inputs[n]| == SHARE_BITS
    ensures FitsGroups(c, inputs) && c.WiresInRange() && c.InputsFit(inputs)
  {
    hide BuilderForm;
    assert FitsGroups(c, inputs);
    FitsInputs(c, inputs);
  }

  function Tables(par: Params): GarblerState
    requires Three(par) && par.env.circuit.WiresInRange() && par.env.circuit.InputsFit(FalseInputs(par))
  {
    GarbleAll(par.env.circuit, FalseInputs(par), Keys(par).delta, par.env.core, TccrWith(par.env, Keys(par).garbleKey), AfterPads(par))
  }

  ghost predicate Runnable(par: Params) {
    Three(par) && par.env.circuit.WiresInRange() && par.env.circuit.InputsFit(FalseInputs(par)) &&
    |par.env.circuit.outputGateIds| == 1 + OUTPUT_BITS
  }

  lemma HonestRunnable(par: Params)
    requires Honest(par)
    ensures Runnable(par) && par.env.circuit.InputsFit(ActiveInputs(par)) && par.env.circuit.InputsFit(ClearInputs(par)) &&
            FitsGroups(par.env.circuit, ClearInputs(par)) && BuilderForm(par.env.circuit)
  {
    hide FalseInputs, ActiveInputs, ClearInputs, BuilderForm;
    InputsHaveShape(par);
    CircuitFits(par.env.circuit, FalseInputs(par));
    CircuitFits(par.env.circuit, ActiveInputs(par));
    CircuitFits(par.env.circuit, ClearInputs(par));
  }

  /** The false labels of the outputs. */
  ghost function OutputFalse(par: Params): (r: seq<Block>)
    requires Runnable(par)
    ensures |r| == 1 + OUTPUT_BITS
  {
    Pick(Tables(par).w, par.env.circuit.outputGateIds)
  }

  function OutputBits(par: Params): (r: seq<bool>)
    requires Three(par)
    ensures |r| == |par.env.circuit.outputGateIds|
  {
    Output(par.env.circuit, ClearInputs(par))
  }

  ghost function OutputActive(par: Params): (r: seq<Block>)
    requires Runnable(par)
    ensures |r| == 1 + OUTPUT_BITS
  {
    seq(1 + OUTPUT_BITS, i requires 0 <= i < 1 + OUTPUT_BITS => Active(OutputFalse(par)[i], OutputBits(par)[i], Keys(par).delta))
  }

  /** The evaluator gets the labels of the plain evaluation. */
  lemma Evaluates(par: Params)
    requires Honest(par)
    ensures Runnable(par)
    ensures var r := EvalAll(par.env.circuit, ActiveInputs(par), Tables(par).f, TccrWith(par.env, Keys(par).garbleKey));
            r.Ok? && forall i | 0 <= i < 1 + OUTPUT_BITS ::
              par.env.circuit.outputGateIds[i] in r.value && r.value[par.env.circuit.outputGateIds[i]] == OutputActive(par)[i]
  {
    hide Imports, BuilderForm, GarbleAll, EvalAll, FalseInputs, ActiveInputs, ClearInputs, Keys, AfterPads;
    HonestRunnable(par);
    InputsHaveShape(par);
    var c, delta := par.env.circuit, Keys(par).delta;
    GroupsInRange(c);
    assert InputsEncode(c, FalseInputs(par), ActiveInputs(par), ClearInputs(par), delta);
    GarbleThenEvaluate(c, FalseInputs(par), ActiveInputs(par), ClearInputs(par), delta, par.env.core,
                       TccrWith(par.env, Keys(par).garbleKey), AfterPads(par), Tables(par).f);
    OutputIsEval(c, ClearInputs(par));
  }

  lemma GroupsInRange(c: BinaryCircuit)
    requires SixShapes(c)
    ensures forall k | 0 <= k < |c.gates| && c.gates[k].Input? :: c.gates[k].no < 6 && c.gates[k].id < SHARE_BITS
  {
  }

  // ----- the result -----

  lemma {:induction false} NumOfToBits(n: nat, len: nat)
    requires n < Pow2(len)
    ensures Num(ToBits(n, len)) == n
  {
    if len > 0 {
      NumOfToBits(n / 2, len - 1);
      assert ToBits(n, len)[1..] == ToBits(n / 2, len - 1);
      assert n == 2 * (n / 2) + n % 2;
    }
  }

  lemma WordParts(prev: int, next: int)
    requires prev >= 0 && next >= 0
    ensures InputWord(prev, next)[..SHARE_BITS] == ToBits(prev, SHARE_BITS)
    ensures InputWord(prev, next)[SHARE_BITS..] == ToBits(next, SHARE_BITS)
  {
  }

  lemma WordBits(par: Params, p: nat)
    requires Three(par) && p < 3 && par.env.q <= Pow2(SHARE_BITS)
    ensures Word(par, p)[..SHARE_BITS] == ToBits(Rss(par, p).0, SHARE_BITS)
    ensures Word(par, p)[SHARE_BITS..] == ToBits(Rss(par, p).1, SHARE_BITS)
    ensures Num(ToBits(Rss(par, p).1, SHARE_BITS)) == Rss(par, p).1
  {
    hide Rss, ToBits, Num, Pow2, InputWord;
    RssElements(par, p);
    WordParts(Rss(par, p).0, Rss(par, p).1);
    NumOfToBits(Rss(par, p).1, SHARE_BITS);
  }

  /** The import circuit on a consistent sharing of `s` modulo `q`. */
  lemma ImportOfSharing(c: BinaryCircuit, q: nat, prfs: seq<BinaryCircuit>, inputs: seq<seq<bool>>, x: nat, y: nat, z: nat, s: nat)
    requires Imports(c, q, prfs) && SharingInputs(inputs) && CyclicMatch(inputs) && q <= Pow2(SHARE_BITS)
    requires Num(inputs[0]) == x < q && Num(inputs[1]) == y < q && Num(inputs[2]) == z < q && (x + y + z) % q == s
    ensures Output(c, inputs) == [true] + PrfOutputs(prfs, ToBits(s, SHARE_BITS))
  {
    hide BuilderForm, ToBits, Num, Pow2, Output, PrfOutputs, ShareSum, CyclicMatch;
    assert ImportsAt(c, q, prfs, inputs);
    ShareSumReduced(q, inputs);
  }

  lemma ClearInputsMatch(par: Params)
    requires Honest(par)
    ensures SharingInputs(ClearInputs(par)) && CyclicMatch(ClearInputs(par))
  {
    hide Rss, ToBits, Num, Pow2, InputWord, Line, Prime, Imports, Word, Masks;
    Reconstructs(par, 0);
    WordBits(par, 0);
    WordBits(par, 1);
    WordBits(par, 2);
  }

  /** The circuit's first output is true and the others are the embedded PRFs applied to the
      shared secret. */
  lemma ClearOutputs(par: Params)
    requires Honest(par)
    ensures OutputBits(par) == [true] + PrfOutputs(par.prfs, ToBits(par.secret % par.env.q, SHARE_BITS))
  {
    hide Rss, ToBits, Num, Pow2, InputWord, Output, PrfOutputs, Line, Prime, Imports, Word, Masks, SharingInputs, CyclicMatch;
    Reconstructs(par, 0);
    ClearInputsMatch(par);
    WordBits(par, 0);
    WordBits(par, 1);
    WordBits(par, 2);
    RssElements(par, 0);
    RssElements(par, 1);
    RssElements(par, 2);
    ImportOfSharing(par.env.circuit, par.env.q, par.prfs, ClearInputs(par), Rss(par, 0).1, Rss(par, 1).1, Rss(par, 2).1,
                    par.secret % par.env.q);
  }

  /** The keys everybody should end up with, computed from the secret alone. */
  function KeysInClear(par: Params): Option<OrchardKeys>
    requires Three(par)
  {
    par.env.decode(PrfOutputs(par.prfs, ToBits(par.secret % par.env.q, SHARE_BITS)))
  }
}
