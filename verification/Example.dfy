/** The conditions of the session results can be met: honest sessions exist for any prime field and
    any embedded circuits, and a concrete one runs to its end. */
module Example {
  import opened Wrappers
  import opened Blocks
  import opened Circuits
  import opened LabelPrfs
  import opened Inputs
  import opened Numbers
  import opened PrimeField
  import opened Shamir
  import opened Builder
  import opened Gadgets
  import opened ModularAdder
  import opened ImportCircuit
  import opened Phases
  import opened Control
  import opened Ideal
  import opened Refinement
  import opened Agreement

  function TotalOutputs(prfs: seq<BinaryCircuit>): nat {
    if prfs == [] then 0 else TotalOutputs(prfs[..|prfs| - 1]) + |prfs[|prfs| - 1].outputGateIds|
  }

  lemma {:induction false} PrfOutputsLength(prfs: seq<BinaryCircuit>, word: seq<bool>)
    ensures |PrfOutputs(prfs, word)| == TotalOutputs(prfs)
  {
    if prfs != [] {
      PrfOutputsLength(prfs[..|prfs| - 1], word);
    }
  }

  /** The import circuit has the verification output and those of the embedded circuits. */
  lemma ImportOutputCount(c: BinaryCircuit, q: nat, prfs: seq<BinaryCircuit>)
    requires Imports(c, q, prfs)
    ensures |c.outputGateIds| == 1 + TotalOutputs(prfs)
  {
    hide SixShapes, Output, PrfOutputs, ShareSum, CyclicMatch;
    var word := seq(SHARE_BITS, _ => false);
    var inputs := [word, word, word, word, word, word];
    assert SharingInputs(inputs) && ImportsAt(c, q, prfs, inputs);
    PrfOutputsLength(prfs, ToBits(ShareSum(q, inputs), SHARE_BITS));
  }

  /** Primitives that keep apart what should be apart: the ring keys of different seeds, and the
      commitments to different labels. */
  function Primitives(q: nat, circuit: BinaryCircuit, decode: seq<bool> -> Option<OrchardKeys>): Env {
    Env(q, (seed: Seed, a: nat, b: nat, c: nat, d: nat) => seq(64, _ => 0), (domain: string, p: nat, seed: Seed) => seed,
        (seed: Seed) => 0, (crs: Block, m: Block, w: Block) => m, (key: Block, b: Block, i: nat) => b,
        (table: seq<Block>) => seq(32, _ => 0), decode, circuit)
  }

  function SeedOf(p: nat): Seed
    requires p < 3
  {
    [if p == 0 then 0 else if p == 1 then 1 else 2] + seq(31, _ => 0)
  }

  lemma SeparateLabels(par: Params)
    requires Three(par) && forall crs, m, w :: par.env.commit(crs, m, w) == m
    ensures Separate(par)
  {
    hide Wires1, Wires2, Keys;
    forall d: WireDraw
      ensures Separated(Committing(par), d, Keys(par).delta)
    {
      ActiveLsb(d.w0, true, Keys(par).delta);
    }
  }

  /** An honest session for any prime field, secret, line and embedded circuits, in which no keys or
      commitments collide. */
  method HonestSession(primeBytesLe: seq<U8>, prfs: seq<BinaryCircuit>, secret: int, slope: int, pad: seq<bool>,
                       decode: seq<bool> -> Option<OrchardKeys>) returns (par: Params)
    requires Prime(LeNum(primeBytesLe)) && 3 < LeNum(primeBytesLe) <= Pow2(SHARE_BITS)
    requires (forall k | 0 <= k < |prfs| :: Shape(prfs[k], [SHARE_BITS])) && TotalOutputs(prfs) == OUTPUT_BITS
    ensures Honest(par) && (par.secret, par.slope, par.pad, par.prfs, par.env.decode) == (secret, slope, pad, prfs, decode)
    ensures FlagsOf(par) == Flags(true, true, true, true, KeysInClear(par).Some?)
  {
    hide Imports, Pow2, Prime, LeNum, KeysInClear, Separate, Shape;
    var q := LeNum(primeBytesLe);
    var c := BuildZcashImportFunction(primeBytesLe, prfs);
    ImportOutputCount(c, q, prfs);
    var shares := [(secret + slope * 1) % q, (secret + slope * 2) % q, (secret + slope * 3) % q];
    par := Params(Primitives(q, c, decode), [SeedOf(0), SeedOf(1), SeedOf(2)], shares, pad, secret, slope, prfs);
    SeparateLabels(par);
    assert SeedOf(0)[0] == 0 && SeedOf(1)[0] == 1 && SeedOf(2)[0] == 2;
  }

  /** As many outputs as inputs. */
  method Identity() returns (c: BinaryCircuit)
    ensures Shape(c, [SHARE_BITS]) && |c.outputGateIds| == SHARE_BITS
  {
    hide BuilderForm;
    var b := new CircuitBuilder();
    var ids := b.NewInputs(SHARE_BITS);
    b.MarkOutputs(ids);
    c := b.Finish();
  }

  /** A session over the field of five elements that satisfies every condition, with a delivery order
      in which it ends at all three parties. */
  method FinishingRun() returns (par: Params, ghost schedule: seq<nat>)
    ensures Honest(par) && FlagsOf(par).AllGood() && KeepsOrder(par, schedule) && Finished(RunWorld(par, schedule))
  {
    hide Shape, RunWorld, Finished, FlagsOf, Imports, Pow2, Honest;
    var c := Identity();
    var prfs := [c, c, c, c, c, c];
    SixTimes(c);
    PrimeFive();
    par := HonestSession([5], prfs, 2, 3, [], (bits: seq<bool>) => Some(OrchardKeys([], [], [], [], [])));
    FlagDecode(par);
    DecodesAlways(par);
    NothingYet(par);
    schedule := InOrderCanFinish(par, []);
    assert [] + schedule == schedule;
  }

  lemma SixTimes(c: BinaryCircuit)
    requires |c.outputGateIds| == SHARE_BITS
    ensures TotalOutputs([c, c, c, c, c, c]) == OUTPUT_BITS
  {
    var all := [c, c, c, c, c, c];
    assert all[..5] == [c, c, c, c, c] && all[..5][..4] == [c, c, c, c] && all[..5][..4][..3] == [c, c, c];
    assert [c, c, c][..2] == [c, c] && [c, c][..1] == [c] && [c][..0] == [];
    assert TotalOutputs([c]) == SHARE_BITS;
    assert TotalOutputs([c, c]) == 2 * SHARE_BITS;
    assert TotalOutputs([c, c, c]) == 3 * SHARE_BITS;
    assert TotalOutputs([c, c, c, c]) == 4 * SHARE_BITS;
    assert TotalOutputs([c, c, c, c, c]) == 5 * SHARE_BITS;
  }

  lemma PrimeFive()
    ensures Prime(LeNum([5])) && 3 < LeNum([5]) <= Pow2(SHARE_BITS)
  {
    assert LeNum([5]) == 5 + 256 * LeNum([]);
    Pow2Monotone(3, SHARE_BITS);
    assert Pow2(3) == 8;
  }

  lemma DecodesAlways(par: Params)
    requires Three(par) && forall bits :: par.env.decode(bits).Some?
    ensures KeysInClear(par).Some?
  {
  }

  lemma NothingYet(par: Params)
    requires Three(par)
    ensures KeepsOrder(par, [])
  {
  }
}
