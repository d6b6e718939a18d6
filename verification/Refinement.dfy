/** The phase handlers refine the control machine: on the ideal values, handling a message is what
    the control state says, with the ideal values again. */
module Refinement {
  import opened Wrappers
  import opened Blocks
  import opened Circuits
  import opened LabelPrfs
  import opened Garbling
  import opened Setup
  import opened Inputs
  import opened Shamir
  import opened ImportCircuit
  import opened Replay
  import opened Phases
  import opened Control
  import opened Ideal

  // ----- packed bits -----

  lemma {:induction false} PackByteBits(bits: seq<bool>, at: nat, n: nat, k: nat)
    requires n <= 8 && k < 8
    ensures BitAt(PackByte(bits, at, n), k) == (k < n && at + k < |bits| && bits[at + k])
  {
    hide BitMask, BitAt;
    if n == 0 {
      ZeroBit(k);
    } else {
      PackByteBits(bits, at, n - 1, k);
      SetBit(PackByte(bits, at, n - 1), n - 1, k);
    }
  }

  /** The packing the handlers use is the one `encode_bits` is proved to produce. */
  lemma PackIs(bits: seq<bool>, bytes: seq<Byte>)
    ensures Packs(Pack(bits), bits) && DecodeBits(Pack(bits), |bits|) == Ok(bits)
    ensures Packs(bytes, bits) ==> bytes == Pack(bits)
  {
    hide BitAt, PackByte;
    forall i, k | 0 <= i < |Pack(bits)| && 0 <= k < 8
      ensures BitAt(Pack(bits)[i], k) == (8 * i + k < |bits| && bits[8 * i + k])
    {
      PackByteBits(bits, 8 * i, 8, k);
    }
    PackRoundTrip(Pack(bits), bits);
    if Packs(bytes, bits) {
      forall i | 0 <= i < |bytes|
        ensures bytes[i] == Pack(bits)[i]
      {
        assert forall k | 0 <= k < 8 :: BitAt(bytes[i], k) == BitAt(Pack(bits)[i], k);
        SameBits(bytes[i], Pack(bits)[i]);
      }
    }
  }

  // ----- the ideal states and messages -----

  function FlagsOf(par: Params): Flags
    requires Three(par)
  {
    Flags(RingKey(par, 2) != RingKey(par, 0), RingKey(par, 0) != RingKey(par, 1), RingKey(par, 1) != RingKey(par, 2),
          Separate(par), KeysInClear(par).Some?)
  }

  /** The Yao setup a party holds at a stage: the garblers' label stream moves on. */
  ghost function IdealYao(par: Params, p: nat, stage: nat): Option<YaoSetup>
    requires Runnable(par)
  {
    var keys := Keys(par);
    if stage == 0 then None
    else if p == 2 then Some(Evaluator(Crs(par), keys.garbleKey))
    else Some(Garbler(Crs(par), keys.garbleKey,
                      if stage <= 2 then keys.labels else if stage <= 4 then AfterInputs(par) else Tables(par).prf, keys.delta))
  }

  function Slotted<T>(b: bool, x: T): Option<T> {
    if b then Some(x) else None
  }

  function SlotMsg(par: Params, g: nat, s: Slot): Option<BatchMsg>
    requires Three(par) && g < 2
  {
    match s
    case Empty => None
    case HasInput => Some(GarblerInputCommit(FirstMsg(par, g)))
    case HasI3 => Some(GarblerI3Commit(SecondMsg(par, g)))
  }

  ghost function IdealPhase(par: Params, p: nat, c: Ctl): Phase
    requires Runnable(par) && p < 3
  {
    var m := Masks(par);
    match c
    case CWaitCrs => WaitCrs
    case CWaitPrf => WaitPrf(Crs(par))
    case CWaitKey => WaitGarbleKey(Crs(par))
    case CRing => CommonRandomness(RingKey(par, p), Prev(p))
    case CShamir(n, q) =>
      ShamirToRssPhase(PrevOf(m, p), m[p], Masked(par, p), Slotted(n, Masked(par, Next(p))), Slotted(q, Masked(par, Prev(p))))
    case CEvalBits => GarblerWaitEvalBits(Word(par, p), FalseLabels(Wires1(par)), FalseLabels(Wires2(par)))
    case CMsg1(s0, s1) => EvaluatorWaitMsg1(Bits(par, 0), Bits(par, 1), SlotMsg(par, 0, s0), SlotMsg(par, 1, s1))
    case CMsg2(i0, i1) =>
      EvaluatorWaitMsg2(Bits(par, 0), Bits(par, 1), OpenLabels(Wires1(par), Word(par, 0), Keys(par).delta),
                        OpenLabels(Wires2(par), Word(par, 1), Keys(par).delta),
                        Slotted(i0, GarblerI3Commit(SecondMsg(par, 0))), Slotted(i1, GarblerI3Commit(SecondMsg(par, 1))))
    case CCircuit(h, t) =>
      CircuitEval(ActiveInputs(par), Slotted(h, HashOf(par.env.digest(Tables(par).f))), Slotted(t, GarbledTables(Tables(par).f)))
    case CWaitLabel => GarblerWaitLabel(OutputFalse(par)[0], OutputFalse(par)[1..])
    case CBits(b0, b1) => EvaluatorWaitBits(OutputActive(par)[1..], Slotted(b0, OneBit(true)), Slotted(b1, OneBit(true)))
    case CWaitLabels => GarblerWaitLabels(OutputFalse(par)[1..])
    case CRejected => GarblerWaitLabels(OutputFalse(par)[1..])
    case COutputs(o0, o1) =>
      EvaluatorWaitOutputs(Slotted(o0, ManyBits(Pack(OutputBits(par)[1..]))), Slotted(o1, ManyBits(Pack(OutputBits(par)[1..]))))
    case CDone => if KeysInClear(par).Some? then Done(KeysInClear(par).value) else Aborted(p)
  }

  ghost function IdealState(par: Params, p: nat, c: Ctl): State
    requires Runnable(par) && p < 3
  {
    State(StartContext(par, p).(yao := IdealYao(par, p, Stage(c))), IdealPhase(par, p, c))
  }

  ghost function IdealBody(par: Params, id: Id): Body
    requires Runnable(par) && id.from < 3 && id.to < 3
  {
    var g := if id.from == 0 then 0 else 1;
    match id.kind
    case KCommCrs => SetupYao(CommCrs(Crs(par)))
    case KPrfSeed => SetupYao(PrfSeed(SharedSeed(par), Crs(par)))
    case KGarbleKey => SetupYao(GarbleKey(Keys(par).garbleKey))
    case KKeyNext => KeyNext(RingKey(par, id.from))
    case KPadded => PaddedShare(Masked(par, id.from))
    case KEvalBits => BatchInput(EvaluatorBits(Pack(Bits(par, if id.to == 0 then 0 else 1))))
    case KInputCommit => BatchInput(GarblerInputCommit(FirstMsg(par, g)))
    case KI3Commit => BatchInput(GarblerI3Commit(SecondMsg(par, g)))
    case KHash => CircuitData(HashOf(par.env.digest(Tables(par).f)))
    case KTables => CircuitData(GarbledTables(Tables(par).f))
    case KLabel => Verification(OneLabel(OutputActive(par)[0]))
    case KBit => Verification(OneBit(true))
    case KLabels => BatchOutput(ManyLabels(OutputActive(par)[1..]))
    case KBits => BatchOutput(ManyBits(Pack(OutputBits(par)[1..])))
  }

  ghost function IdealMessage(par: Params, id: Id): Message
    requires Runnable(par)
  {
    if id.from < 3 && id.to < 3 then Message(id.from, id.to, IdealBody(par, id)) else Message(id.from, id.to, Abort)
  }

  ghost function StateOf(par: Params, p: nat): Ctl -> State
    requires Runnable(par) && p < 3
  {
    (c: Ctl) => IdealState(par, p, c)
  }

  ghost function MessageOf(par: Params): Id -> Message
    requires Runnable(par)
  {
    (id: Id) => IdealMessage(par, id)
  }

  /** Handling the ideal message in the ideal state is what the control machine does. */
  ghost predicate Refines(par: Params, p: nat, c: Ctl, id: Id)
    requires Runnable(par) && p < 3
  {
    Handle(par.env, IdealState(par, p, c), IdealMessage(par, id))
      == Mapped(StateOf(par, p), MessageOf(par), React(FlagsOf(par), p, c, id))
  }

  lemma RunnableThree(par: Params)
    requires Runnable(par)
    ensures Three(par) && |OutputBits(par)| == 1 + OUTPUT_BITS
  {
  }

  lemma MapNone(par: Params)
    requires Runnable(par)
    ensures MapAll(MessageOf(par), []) == []
  {
  }

  lemma MapOne(par: Params, a: Id)
    requires Runnable(par)
    ensures MapAll(MessageOf(par), [a]) == [IdealMessage(par, a)]
  {
  }

  lemma MapTwo(par: Params, a: Id, b: Id)
    requires Runnable(par)
    ensures MapAll(MessageOf(par), [a, b]) == [IdealMessage(par, a), IdealMessage(par, b)]
  {
  }

  lemma MapThree(par: Params, a: Id, b: Id, c: Id)
    requires Runnable(par)
    ensures MapAll(MessageOf(par), [a, b, c]) == [IdealMessage(par, a), IdealMessage(par, b), IdealMessage(par, c)]
  {
  }

  lemma Ring(p: nat)
    requires p < 3
    ensures NextParty(p) == Next(p) && PrevParty(p) == Prev(p) && Next(p) != Prev(p) && Next(p) != p && Prev(p) != p
    ensures Next(p) < 3 && Prev(p) < 3
  {
  }

  // ----- setup and ring keys -----

  lemma RefinesWaitCrs(par: Params, p: nat, id: Id)
    requires Runnable(par) && Due(p, CWaitCrs, id)
    ensures Refines(par, p, CWaitCrs, id)
  {
    hide Runnable, HandleCommonRandomness, HandleShamirToRss, HandleBatchInput, HandleCircuit, HandleVerification, HandleOutput,
         Tables, Expand, Word, FirstMsg, SecondMsg, Masked, OutputActive, OutputFalse, Pack, KeysInClear, Separate, Wires1, Wires2;
    MapNone(par);
    MapThree(par, Id(KPrfSeed, 0, 1), Id(KGarbleKey, 0, 2), Id(KKeyNext, 0, 1));
  }

  lemma RefinesWaitPrf(par: Params, id: Id)
    requires Runnable(par) && Due(1, CWaitPrf, id)
    ensures Refines(par, 1, CWaitPrf, id)
  {
    hide Runnable, HandleCommonRandomness, HandleShamirToRss, HandleBatchInput, HandleCircuit, HandleVerification, HandleOutput,
         Tables, Expand, Word, FirstMsg, SecondMsg, Masked, OutputActive, OutputFalse, Pack, KeysInClear, Separate, Wires1, Wires2;
    MapNone(par);
    MapOne(par, Id(KKeyNext, 1, 2));
  }

  lemma RefinesWaitKey(par: Params, id: Id)
    requires Runnable(par) && Due(2, CWaitKey, id)
    ensures Refines(par, 2, CWaitKey, id)
  {
    hide Runnable, HandleCommonRandomness, HandleShamirToRss, HandleBatchInput, HandleCircuit, HandleVerification, HandleOutput,
         Tables, Expand, Word, FirstMsg, SecondMsg, Masked, OutputActive, OutputFalse, Pack, KeysInClear, Separate, Wires1, Wires2;
    MapNone(par);
    MapOne(par, Id(KKeyNext, 2, 0));
  }

  lemma RingStep(par: Params, p: nat)
    requires Runnable(par) && p < 3
    ensures StartShamirToRss(par.env, IdealState(par, p, CRing), RingKey(par, Prev(p)), RingKey(par, p))
         == Consumed(IdealState(par, p, CShamir(false, false)),
                     [IdealMessage(par, Id(KPadded, p, Prev(p))), IdealMessage(par, Id(KPadded, p, Next(p)))])
  {
    hide Tables, Expand, Word, FirstMsg, SecondMsg, OutputActive, OutputFalse, Pack, KeysInClear, Separate, Wires1, Wires2,
         RssPairToShamir, PrimeField.Add, RingKey;
  }

  lemma RefinesRingOther(par: Params, p: nat, id: Id)
    requires Runnable(par) && Due(p, CRing, id) && id.kind != KKeyNext
    ensures Refines(par, p, CRing, id)
  {
    hide Runnable, HandleSetup, HandleShamirToRss, HandleBatchInput, HandleCircuit, HandleVerification, HandleOutput,
         Tables, Expand, Word, FirstMsg, SecondMsg, OutputActive, OutputFalse, Pack, KeysInClear, Separate, Wires1, Wires2,
         RingKey, StartShamirToRss, Masked, Masks, IdealYao, FlagsOf, Used;
    MapNone(par);
  }

  lemma RingKeyArrives(par: Params, p: nat)
    requires Runnable(par) && p < 3
    ensures Refines(par, p, CRing, Id(KKeyNext, Prev(p), p))
  {
    hide HandleSetup, HandleShamirToRss, HandleBatchInput, HandleCircuit, HandleVerification, HandleOutput,
         Tables, Expand, Word, FirstMsg, SecondMsg, OutputActive, OutputFalse, Pack, KeysInClear, Separate, Wires1, Wires2,
         RingKey, StartShamirToRss, Masked, Masks, IdealYao;
    MapNone(par);
    MapTwo(par, Id(KPadded, p, Prev(p)), Id(KPadded, p, Next(p)));
    RingStep(par, p);
  }

  lemma RefinesRing(par: Params, p: nat, id: Id)
    requires Runnable(par) && Due(p, CRing, id)
    ensures Refines(par, p, CRing, id)
  {
    hide Refines, Runnable;
    if id.kind != KKeyNext {
      RefinesRingOther(par, p, id);
    } else {
      RingKeyArrives(par, p);
    }
  }

  // ----- reconstruction -----

  lemma GarblerStart(par: Params, p: nat)
    requires Runnable(par) && p < 2
    ensures StartBatchInput(par.env, IdealState(par, p, CShamir(true, true)), Rss(par, p).0, Rss(par, p).1)
         == Consumed(IdealState(par, p, CEvalBits), [IdealMessage(par, Id(KInputCommit, p, 2))])
  {
    hide Runnable, Tables, Expand, SecondMsg, OutputActive, OutputFalse, Pack, KeysInClear, Separate, InputWord, InputDraws, Msg1,
         FalseLabels, Rss, RingKey, Masked, Masks;
  }

  lemma EvaluatorStart(par: Params)
    requires Runnable(par)
    ensures StartBatchInput(par.env, IdealState(par, 2, CShamir(true, true)), Rss(par, 2).0, Rss(par, 2).1)
         == Consumed(IdealState(par, 2, CMsg1(Empty, Empty)),
                     [IdealMessage(par, Id(KEvalBits, 2, 0)), IdealMessage(par, Id(KEvalBits, 2, 1))])
  {
    hide Runnable, Tables, Expand, SecondMsg, OutputActive, OutputFalse, Pack, KeysInClear, Separate, InputWord, InputDraws, Msg1,
         FalseLabels, Rss, RingKey, Masked, Masks, PaddedBits;
  }

  /** Both padded shares are there. */
  lemma ReconstructStep(par: Params, p: nat)
    requires Honest(par) && Runnable(par) && p < 3
    ensures TryReconstruct(par.env, IdealState(par, p, CShamir(true, true)))
         == Mapped(StateOf(par, p), MessageOf(par), StartInputs(p))
  {
    hide Runnable, Tables, Expand, SecondMsg, FirstMsg, OutputActive, OutputFalse, Pack, KeysInClear, Separate, RingKey, Masked, Masks,
         ReconstructShare, StartBatchInput, FinalizeShamirToRss, IdealYao, Imports, Line;
    Reconstructs(par, p);
    if p == 2 {
      EvaluatorStart(par);
      MapTwo(par, Id(KEvalBits, 2, 0), Id(KEvalBits, 2, 1));
    } else {
      GarblerStart(par, p);
      MapOne(par, Id(KInputCommit, p, 2));
    }
  }

  lemma RefinesShamirOther(par: Params, p: nat, c: Ctl, id: Id)
    requires Runnable(par) && c.CShamir? && Due(p, c, id) && id.kind != KPadded
    ensures Refines(par, p, c, id)
  {
    hide Runnable, HandleSetup, HandleCommonRandomness, HandleBatchInput, HandleCircuit, HandleVerification, HandleOutput,
         Tables, Expand, Word, FirstMsg, SecondMsg, OutputActive, OutputFalse, Pack, KeysInClear, Separate, Wires1, Wires2,
         RingKey, Masked, Masks, IdealYao, TryReconstruct, StartInputs, Used, FlagsOf;
    MapNone(par);
  }

  lemma FromNext(par: Params, p: nat, q: bool)
    requires Honest(par) && Runnable(par) && p < 3
    ensures Refines(par, p, CShamir(false, q), Id(KPadded, Next(p), p))
  {
    hide Runnable, HandleSetup, HandleCommonRandomness, HandleBatchInput, HandleCircuit, HandleVerification, HandleOutput,
         Tables, Expand, Word, FirstMsg, SecondMsg, OutputActive, OutputFalse, Pack, KeysInClear, Separate, Wires1, Wires2,
         RingKey, Masked, Masks, IdealYao, ReconstructShare, StartBatchInput, Honest, StartInputs, FlagsOf, NextParty, PrevParty, Next, Prev;
    Ring(p);
    MapNone(par);
    if q {
      ReconstructStep(par, p);
    }
  }

  lemma FromPrev(par: Params, p: nat, n: bool)
    requires Honest(par) && Runnable(par) && p < 3
    ensures Refines(par, p, CShamir(n, false), Id(KPadded, Prev(p), p))
  {
    hide Runnable, HandleSetup, HandleCommonRandomness, HandleBatchInput, HandleCircuit, HandleVerification, HandleOutput,
         Tables, Expand, Word, FirstMsg, SecondMsg, OutputActive, OutputFalse, Pack, KeysInClear, Separate, Wires1, Wires2,
         RingKey, Masked, Masks, IdealYao, ReconstructShare, StartBatchInput, Honest, StartInputs, FlagsOf, NextParty, PrevParty, Next, Prev;
    Ring(p);
    MapNone(par);
    if n {
      ReconstructStep(par, p);
    }
  }

  lemma RefinesShamir(par: Params, p: nat, c: Ctl, id: Id)
    requires Honest(par) && Runnable(par) && c.CShamir? && Due(p, c, id)
    ensures Refines(par, p, c, id)
  {
    hide Refines, Honest, Runnable;
    if id.kind != KPadded {
      RefinesShamirOther(par, p, c, id);
    } else if id.from == Next(p) {
      FromNext(par, p, c.prev);
    } else {
      FromPrev(par, p, c.next);
    }
  }

  // ----- inputs -----

  lemma SecondSent(par: Params, p: nat)
    requires Runnable(par) && p < 2
    ensures GarblerI3(par.env, IdealState(par, p, CEvalBits), Pack(Bits(par, p)))
         == Consumed(IdealState(par, p, CWaitLabel),
                     [IdealMessage(par, Id(KI3Commit, p, 2)), IdealMessage(par, Id(if p == 0 then KHash else KTables, p, 2))])
  {
    hide Expand, InputDraws, DrawPads, Msg2, FalseLabels, PadShares, Pack, DecodeBits, KeysInClear, Separate, Word, Masks, Masked,
         GarbleAll, Bits, PackedLength, OutputActive, Pick, InputWord, Crs, SharedSeed;
    PackIs(Bits(par, p), Pack(Bits(par, p)));
  }

  lemma RefinesEvalBits(par: Params, p: nat, id: Id)
    requires Runnable(par) && Due(p, CEvalBits, id)
    ensures Refines(par, p, CEvalBits, id)
  {
    hide Runnable, HandleSetup, HandleCommonRandomness, HandleShamirToRss, HandleCircuit, HandleVerification, HandleOutput,
         Tables, Expand, Word, FirstMsg, SecondMsg, OutputActive, OutputFalse, Pack, KeysInClear, Separate, Wires1, Wires2,
         RingKey, Masked, Masks, IdealYao, GarblerI3, FlagsOf, Bits;
    MapNone(par);
    MapTwo(par, Id(KI3Commit, p, 2), Id(if p == 0 then KHash else KTables, p, 2));
    SecondSent(par, p);
  }

  /** Both first messages are there. */
  lemma FirstArrived(par: Params)
    requires Runnable(par)
    ensures Phases.EvaluatorInputs(par.env, IdealState(par, 2, CMsg1(HasInput, HasInput)))
         == if Separate(par) then Consumed(IdealState(par, 2, CMsg2(false, false)), [])
            else Failed(InvalidMessage, IdealState(par, 2, CMsg1(HasInput, HasInput)), [])
  {
    hide Tables, Expand, Word, FirstMsg, SecondMsg, OutputActive, OutputFalse, Pack, KeysInClear, Separate, Wires1, Wires2,
         Bits, ProcessMsg1, OpenLabels, Masks, Masked;
    FirstMessages(par);
  }

  lemma RefinesMsg1Other(par: Params, c: Ctl, id: Id)
    requires Runnable(par) && c.CMsg1? && Due(2, c, id) && !IsBatch(id.kind)
    ensures Refines(par, 2, c, id)
  {
    hide Runnable, HandleSetup, HandleCommonRandomness, HandleShamirToRss, HandleCircuit, HandleVerification, HandleOutput,
         Tables, Expand, Word, FirstMsg, SecondMsg, OutputActive, OutputFalse, Pack, KeysInClear, Separate, Wires1, Wires2,
         RingKey, Masked, Masks, IdealYao, Phases.EvaluatorInputs, FlagsOf, Bits, SlotMsg;
    MapNone(par);
  }

  function Arrival(k: Kind): Slot {
    if k == KInputCommit then HasInput else HasI3
  }

  lemma SlotTaken(par: Params, s0: Slot, s1: Slot, g: nat, k: Kind)
    requires Runnable(par) && g < 2 && (if g == 0 then s0 else s1) != Empty && (k == KInputCommit || k == KI3Commit)
    ensures Refines(par, 2, CMsg1(s0, s1), Id(k, g, 2))
  {
    hide Runnable, HandleSetup, HandleCommonRandomness, HandleShamirToRss, HandleCircuit, HandleVerification, HandleOutput,
         Tables, Expand, Word, FirstMsg, SecondMsg, OutputActive, OutputFalse, Pack, KeysInClear, Separate, Wires1, Wires2,
         RingKey, Masked, Masks, IdealYao, Bits, ProcessMsg1, Used, Phases.EvaluatorInputs, FlagsOf;
    MapNone(par);
  }

  lemma Slot0Filled(par: Params, s1: Slot, k: Kind)
    requires Runnable(par) && (k == KInputCommit || k == KI3Commit)
    ensures Refines(par, 2, CMsg1(Empty, s1), Id(k, 0, 2))
  {
    hide Runnable, HandleSetup, HandleCommonRandomness, HandleShamirToRss, HandleCircuit, HandleVerification, HandleOutput,
         Tables, Expand, Word, FirstMsg, SecondMsg, OutputActive, OutputFalse, Pack, KeysInClear, Separate, Wires1, Wires2,
         RingKey, Masked, Masks, IdealYao, Bits, ProcessMsg1, Used, Phases.EvaluatorInputs;
    MapNone(par);
    FirstArrived(par);
    NotBothFirst(par, Arrival(k), s1);
  }

  lemma Slot1Filled(par: Params, s0: Slot, k: Kind)
    requires Runnable(par) && (k == KInputCommit || k == KI3Commit)
    ensures Refines(par, 2, CMsg1(s0, Empty), Id(k, 1, 2))
  {
    hide Runnable, HandleSetup, HandleCommonRandomness, HandleShamirToRss, HandleCircuit, HandleVerification, HandleOutput,
         Tables, Expand, Word, FirstMsg, SecondMsg, OutputActive, OutputFalse, Pack, KeysInClear, Separate, Wires1, Wires2,
         RingKey, Masked, Masks, IdealYao, Bits, ProcessMsg1, Used, Phases.EvaluatorInputs;
    MapNone(par);
    FirstArrived(par);
    NotBothFirst(par, s0, Arrival(k));
  }

  lemma RefinesMsg1From(par: Params, s0: Slot, s1: Slot, g: nat, k: Kind)
    requires Runnable(par) && g < 2 && (k == KInputCommit || k == KI3Commit)
    ensures Refines(par, 2, CMsg1(s0, s1), Id(k, g, 2))
  {
    hide Refines, Runnable;
    if (if g == 0 then s0 else s1) != Empty {
      SlotTaken(par, s0, s1, g, k);
    } else if g == 0 {
      Slot0Filled(par, s1, k);
    } else {
      Slot1Filled(par, s0, k);
    }
  }

  lemma NotBothFirst(par: Params, s0: Slot, s1: Slot)
    requires Runnable(par)
    ensures CMsg1(s0, s1) != CMsg1(HasInput, HasInput) ==>
      Phases.EvaluatorInputs(par.env, IdealState(par, 2, CMsg1(s0, s1))) == Consumed(IdealState(par, 2, CMsg1(s0, s1)), [])
  {
    hide Runnable, Tables, Expand, Word, FirstMsg, SecondMsg, OutputActive, OutputFalse, Pack, KeysInClear, Separate, Wires1, Wires2,
         RingKey, Masked, Masks, IdealYao, Bits, ProcessMsg1;
  }

  lemma RefinesMsg1(par: Params, c: Ctl, id: Id)
    requires Runnable(par) && c.CMsg1? && Due(2, c, id)
    ensures Refines(par, 2, c, id)
  {
    hide Refines, Runnable;
    if IsBatch(id.kind) {
      RefinesMsg1From(par, c.s0, c.s1, id.from, id.kind);
    } else {
      RefinesMsg1Other(par, c, id);
    }
  }

  /** Both second messages are there. */
  lemma SecondArrived(par: Params)
    requires Runnable(par)
    ensures EvaluatorI3(par.env, IdealState(par, 2, CMsg2(true, true))) == Consumed(IdealState(par, 2, CCircuit(false, false)), [])
  {
    hide Tables, Expand, Word, FirstMsg, SecondMsg, OutputActive, OutputFalse, Pack, KeysInClear, Separate, Wires1, Wires2,
         Bits, ProcessMsg2, OpenLabels, EvaluatorLabels, Masks, Masked;
    SecondMessages(par);
  }

  lemma RefinesMsg2Other(par: Params, c: Ctl, id: Id)
    requires Runnable(par) && c.CMsg2? && Due(2, c, id) && id.kind != KI3Commit
    ensures Refines(par, 2, c, id)
  {
    hide Runnable, HandleSetup, HandleCommonRandomness, HandleShamirToRss, HandleCircuit, HandleVerification, HandleOutput,
         Tables, Expand, Word, FirstMsg, SecondMsg, OutputActive, OutputFalse, Pack, KeysInClear, Separate, Wires1, Wires2,
         RingKey, Masked, Masks, IdealYao, Bits, FlagsOf, OpenLabels, EvaluatorI3;
    MapNone(par);
  }

  lemma SecondWait(par: Params, i0: bool, i1: bool)
    requires Runnable(par) && !(i0 && i1)
    ensures EvaluatorI3(par.env, IdealState(par, 2, CMsg2(i0, i1))) == Consumed(IdealState(par, 2, CMsg2(i0, i1)), [])
  {
    hide Runnable, Tables, Expand, Word, FirstMsg, SecondMsg, OutputActive, OutputFalse, Pack, KeysInClear, Separate, Wires1, Wires2,
         RingKey, Masked, Masks, IdealYao, Bits, ProcessMsg2, OpenLabels;
  }

  /** A second message goes into its free slot. */
  lemma SecondRouted(env: Env, s: State, g: nat, msg: BatchMsg)
    requires env.q > 1 && s.phase.EvaluatorWaitMsg2? && g < 2 && (if g == 0 then s.phase.from0 else s.phase.from1).None?
    ensures Handle(env, s, Message(g, 2, BatchInput(msg)))
         == EvaluatorI3(env, s.(phase := if g == 0 then s.phase.(from0 := Some(msg)) else s.phase.(from1 := Some(msg))))
  {
    hide HandleSetup, HandleCommonRandomness, HandleShamirToRss, HandleCircuit, HandleVerification, HandleOutput, GarblerI3,
         Phases.EvaluatorInputs, EvaluatorI3;
  }

  lemma Second0(par: Params, i1: bool)
    requires Runnable(par)
    ensures Refines(par, 2, CMsg2(false, i1), Id(KI3Commit, 0, 2))
  {
    hide EvaluatorI3, Runnable, Handle, Tables, Expand, Word, FirstMsg, SecondMsg, OutputActive, OutputFalse, Pack, KeysInClear,
         Separate, Wires1, Wires2, RingKey, Masked, Masks, IdealYao, Bits, ProcessMsg2, FlagsOf, OpenLabels, Used;
    MapNone(par);
    RunnableThree(par);
    SecondRouted(par.env, IdealState(par, 2, CMsg2(false, i1)), 0, GarblerI3Commit(SecondMsg(par, 0)));
    if i1 {
      SecondArrived(par);
    } else {
      SecondWait(par, true, false);
    }
  }

  lemma Second1(par: Params, i0: bool)
    requires Runnable(par)
    ensures Refines(par, 2, CMsg2(i0, false), Id(KI3Commit, 1, 2))
  {
    hide EvaluatorI3, Runnable, Handle, Tables, Expand, Word, FirstMsg, SecondMsg, OutputActive, OutputFalse, Pack, KeysInClear,
         Separate, Wires1, Wires2, RingKey, Masked, Masks, IdealYao, Bits, ProcessMsg2, FlagsOf, OpenLabels, Used;
    MapNone(par);
    RunnableThree(par);
    SecondRouted(par.env, IdealState(par, 2, CMsg2(i0, false)), 1, GarblerI3Commit(SecondMsg(par, 1)));
    if i0 {
      SecondArrived(par);
    } else {
      SecondWait(par, false, true);
    }
  }

  lemma RefinesMsg2(par: Params, c: Ctl, id: Id)
    requires Runnable(par) && c.CMsg2? && Due(2, c, id)
    ensures Refines(par, 2, c, id)
  {
    hide Refines, Runnable;
    if id.kind == KI3Commit {
      if id.from == 0 {
        Second0(par, c.i1);
      } else {
        Second1(par, c.i0);
      }
    } else {
      RefinesMsg2Other(par, c, id);
    }
  }

  // ----- the circuit -----

  lemma TablesEvaluated(env: Env, s: State, inputs: seq<seq<Block>>, table: seq<Block>, out: map<nat, Block>)
    requires s.phase == CircuitEval(inputs, Some(HashOf(env.digest(table))), Some(GarbledTables(table))) && s.ctx.yao.Some?
    requires EvalAll(env.circuit, inputs, table, TccrWith(env, s.ctx.yao.value.garbleKey)) == Ok(out)
    ensures TryEvaluate(env, s) == StartVerification(env, s.(phase := CircuitEval(inputs, None, None)), out)
  {
    hide EvalAll, TccrWith, StartVerification;
  }

  /** Hash and tables are there. */
  lemma TablesArrived(par: Params)
    requires Honest(par) && Runnable(par)
    ensures TryEvaluate(par.env, IdealState(par, 2, CCircuit(true, true)))
         == Consumed(IdealState(par, 2, CBits(false, false)),
                     [IdealMessage(par, Id(KLabel, 2, 0)), IdealMessage(par, Id(KLabel, 2, 1))])
  {
    hide Tables, Expand, Word, FirstMsg, SecondMsg, OutputActive, OutputFalse, Pack, KeysInClear, Separate, Wires1, Wires2,
         RingKey, Masked, Masks, Bits, EvalAll, ActiveInputs, Honest, TccrWith, StartVerification, TryEvaluate, Keys, Crs;
    Evaluates(par);
    var r := EvalAll(par.env.circuit, ActiveInputs(par), Tables(par).f, TccrWith(par.env, Keys(par).garbleKey));
    TablesEvaluated(par.env, IdealState(par, 2, CCircuit(true, true)), ActiveInputs(par), Tables(par).f, r.value);
    VerificationStarts(par, State(IdealState(par, 2, CCircuit(true, true)).ctx, CircuitEval(ActiveInputs(par), None, None)), r.value);
  }

  lemma VerificationStarts(par: Params, s: State, out: map<nat, Block>)
    requires Runnable(par)
    requires forall i | 0 <= i < 1 + OUTPUT_BITS ::
      par.env.circuit.outputGateIds[i] in out && out[par.env.circuit.outputGateIds[i]] == OutputActive(par)[i]
    ensures StartVerification(par.env, s, out)
         == Consumed(s.(phase := EvaluatorWaitBits(OutputActive(par)[1..], None, None)),
                     [Message(2, 0, Verification(OneLabel(OutputActive(par)[0]))), Message(2, 1, Verification(OneLabel(OutputActive(par)[0])))])
  {
    hide Tables, Keys, OutputBits, OutputActive, FalseInputs;
    var ids := par.env.circuit.outputGateIds;
    assert seq(|ids|, i requires 0 <= i < |ids| => out[ids[i]]) == OutputActive(par);
  }

  lemma RefinesCircuitOther(par: Params, c: Ctl, id: Id)
    requires Runnable(par) && c.CCircuit? && Due(2, c, id) && !IsCircuit(id.kind)
    ensures Refines(par, 2, c, id)
  {
    hide Runnable, HandleSetup, HandleCommonRandomness, HandleShamirToRss, HandleBatchInput, HandleVerification, HandleOutput,
         Tables, Expand, Word, FirstMsg, SecondMsg, OutputActive, OutputFalse, Pack, KeysInClear, Separate, Wires1, Wires2,
         RingKey, Masked, Masks, IdealYao, Bits, FlagsOf, TryEvaluate, ActiveInputs;
    MapNone(par);
  }

  lemma TablesWait(par: Params, h: bool, t: bool)
    requires Runnable(par) && !(h && t)
    ensures TryEvaluate(par.env, IdealState(par, 2, CCircuit(h, t))) == Consumed(IdealState(par, 2, CCircuit(h, t)), [])
  {
    hide Runnable, Tables, Expand, Word, FirstMsg, SecondMsg, OutputActive, OutputFalse, Pack, KeysInClear, Separate, Wires1, Wires2,
         RingKey, Masked, Masks, IdealYao, Bits, EvalAll, ActiveInputs, StartVerification;
  }

  lemma RefinesCircuitFrom(par: Params, h: bool, t: bool, k: Kind)
    requires Honest(par) && Runnable(par) && IsCircuit(k) && Due(2, CCircuit(h, t), Id(k, if k == KHash then 0 else 1, 2))
    ensures Refines(par, 2, CCircuit(h, t), Id(k, if k == KHash then 0 else 1, 2))
  {
    hide Runnable, TryEvaluate, HandleSetup, HandleCommonRandomness, HandleShamirToRss, HandleBatchInput, HandleVerification, HandleOutput,
         Tables, Expand, Word, FirstMsg, SecondMsg, OutputActive, OutputFalse, Pack, KeysInClear, Separate, Wires1, Wires2,
         RingKey, Masked, Masks, IdealYao, Bits, FlagsOf, EvalAll, ActiveInputs, Honest;
    MapNone(par);
    if k == KHash && !t {
      TablesWait(par, true, t);
    } else if k == KTables && !h {
      TablesWait(par, h, true);
    }
    TablesArrived(par);
    MapTwo(par, Id(KLabel, 2, 0), Id(KLabel, 2, 1));
  }

  lemma RefinesCircuit(par: Params, c: Ctl, id: Id)
    requires Honest(par) && Runnable(par) && c.CCircuit? && Due(2, c, id)
    ensures Refines(par, 2, c, id)
  {
    hide Refines, Runnable, Honest;
    if IsCircuit(id.kind) {
      RefinesCircuitFrom(par, c.hash, c.tables, id.kind);
    } else {
      RefinesCircuitOther(par, c, id);
    }
  }

  // ----- outputs -----

  /** The setup no longer changes. */
  lemma YaoSettled(par: Params, p: nat, stage: nat)
    requires Runnable(par) && p < 3 && 5 <= stage
    ensures IdealYao(par, p, stage) == IdealYao(par, p, 5)
    ensures p < 2 ==> var yao := IdealYao(par, p, 5); yao.Some? && yao.value.Garbler? && yao.value.delta == Keys(par).delta
  {
    hide Tables, Keys, Crs, AfterInputs;
  }

  lemma LabelVerifies(f: Block, delta: Block, b: bool)
    requires Lsb(delta)
    ensures GarblerVerifyOne(f, delta, Active(f, b, delta)) == Ok(b)
  {
    ActiveLsb(f, b, delta);
  }

  /** The first label carries true, so the garblers' verification bit is true. */
  lemma FirstLabel(par: Params)
    requires Honest(par) && Runnable(par)
    ensures GarblerVerifyOne(OutputFalse(par)[0], Keys(par).delta, OutputActive(par)[0]) == Ok(true)
  {
    hide OutputFalse, Honest, Keys, OutputBits, GarblerVerifyOne;
    ClearOutputs(par);
    LabelVerifies(OutputFalse(par)[0], Keys(par).delta, OutputBits(par)[0]);
  }

  lemma RefinesWaitLabelOther(par: Params, p: nat, id: Id)
    requires Runnable(par) && Due(p, CWaitLabel, id) && id.kind != KLabel
    ensures Refines(par, p, CWaitLabel, id)
  {
    hide Runnable, HandleSetup, HandleCommonRandomness, HandleShamirToRss, HandleBatchInput, HandleCircuit, HandleOutput,
         Tables, Expand, Word, FirstMsg, SecondMsg, OutputActive, OutputFalse, Pack, KeysInClear, Separate, Wires1, Wires2,
         RingKey, Masked, Masks, IdealYao, Bits, FlagsOf, Used;
    MapNone(par);
  }

  lemma LabelArrives(par: Params, p: nat)
    requires Honest(par) && Runnable(par) && p < 2
    ensures Refines(par, p, CWaitLabel, Id(KLabel, 2, p))
  {
    hide Runnable, TryVerify, HandleSetup, HandleCommonRandomness, HandleShamirToRss, HandleBatchInput, HandleCircuit, HandleOutput,
         Tables, Expand, Word, FirstMsg, SecondMsg, OutputActive, OutputFalse, Pack, KeysInClear, Separate, Wires1, Wires2,
         RingKey, Masked, Masks, Bits, FlagsOf, GarblerVerifyOne, Honest, IdealYao, Keys;
    YaoSettled(par, p, 6);
    MapOne(par, Id(KBit, p, 2));
    FirstLabel(par);
  }

  lemma RefinesWaitLabel(par: Params, p: nat, id: Id)
    requires Honest(par) && Runnable(par) && Due(p, CWaitLabel, id)
    ensures Refines(par, p, CWaitLabel, id)
  {
    hide Refines, Runnable, Honest;
    if id.kind == KLabel {
      LabelArrives(par, p);
    } else {
      RefinesWaitLabelOther(par, p, id);
    }
  }

  lemma RefinesBitsOther(par: Params, c: Ctl, id: Id)
    requires Runnable(par) && c.CBits? && Due(2, c, id) && id.kind != KBit
    ensures Refines(par, 2, c, id)
  {
    hide Runnable, HandleSetup, HandleCommonRandomness, HandleShamirToRss, HandleBatchInput, HandleCircuit, HandleOutput,
         Tables, Expand, Word, FirstMsg, SecondMsg, OutputActive, OutputFalse, Pack, KeysInClear, Separate, Wires1, Wires2,
         RingKey, Masked, Masks, IdealYao, Bits, FlagsOf, TryVerify;
    MapNone(par);
  }

  lemma BitsStep(par: Params, b0: bool, b1: bool)
    requires Runnable(par)
    ensures TryVerify(IdealState(par, 2, CBits(b0, b1)))
         == if b0 && b1 then Consumed(IdealState(par, 2, COutputs(false, false)),
                                      [IdealMessage(par, Id(KLabels, 2, 0)), IdealMessage(par, Id(KLabels, 2, 1))])
            else Consumed(IdealState(par, 2, CBits(b0, b1)), [])
  {
    hide Runnable, Tables, Expand, Word, FirstMsg, SecondMsg, OutputActive, OutputFalse, Pack, KeysInClear, Separate, Wires1, Wires2,
         RingKey, Masked, Masks, IdealYao, Bits, ActiveInputs;
    YaoSettled(par, 2, 6);
  }

  lemma RefinesBitFrom(par: Params, b0: bool, b1: bool, g: nat)
    requires Runnable(par) && g < 2 && Due(2, CBits(b0, b1), Id(KBit, g, 2))
    ensures Refines(par, 2, CBits(b0, b1), Id(KBit, g, 2))
  {
    hide Runnable, TryVerify, HandleSetup, HandleCommonRandomness, HandleShamirToRss, HandleBatchInput, HandleCircuit, HandleOutput,
         Tables, Expand, Word, FirstMsg, SecondMsg, OutputActive, OutputFalse, Pack, KeysInClear, Separate, Wires1, Wires2,
         RingKey, Masked, Masks, Bits, FlagsOf, IdealYao, Keys;
    YaoSettled(par, 2, 6);
    MapNone(par);
    MapTwo(par, Id(KLabels, 2, 0), Id(KLabels, 2, 1));
    BitsStep(par, g == 0 || b0, g == 1 || b1);
  }

  lemma RefinesBits(par: Params, c: Ctl, id: Id)
    requires Runnable(par) && c.CBits? && Due(2, c, id)
    ensures Refines(par, 2, c, id)
  {
    hide Refines, Runnable;
    if id.kind == KBit {
      RefinesBitFrom(par, c.b0, c.b1, id.from);
    } else {
      RefinesBitsOther(par, c, id);
    }
  }

  lemma AllLabels(par: Params)
    requires Runnable(par)
    ensures GarblerVerifyMany(OutputFalse(par)[1..], Keys(par).delta, OutputActive(par)[1..]) == Ok(OutputBits(par)[1..])
  {
    hide OutputFalse, Keys, OutputBits, GarblerVerifyOne, Tables;
    var fs, labels, bits, delta := OutputFalse(par)[1..], OutputActive(par)[1..], OutputBits(par)[1..], Keys(par).delta;
    forall i | 0 <= i < OUTPUT_BITS
      ensures GarblerVerifyOne(fs[i], delta, labels[i]) == Ok(bits[i])
    {
      LabelVerifies(fs[i], delta, bits[i]);
    }
    assert seq(|fs|, i requires 0 <= i < |fs| => GarblerVerifyOne(fs[i], delta, labels[i]).value) == bits;
  }

  lemma DecodesInClear(par: Params)
    requires Honest(par) && Runnable(par)
    ensures par.env.decode(OutputBits(par)[1..]) == KeysInClear(par) && |OutputBits(par)[1..]| == OUTPUT_BITS
  {
    hide Honest, OutputBits, PrfOutputs, ToBits;
    ClearOutputs(par);
  }

  /** A garbler that is shown labels of its wires passes their bits on and decodes them. */
  lemma GarblerOutputs(env: Env, s: State, labels: seq<Block>, bits: seq<bool>)
    requires env.q > 1 && s.phase.GarblerWaitLabels? && s.ctx.yao.Some? && s.ctx.yao.value.Garbler?
    requires GarblerVerifyMany(s.phase.components, s.ctx.yao.value.delta, labels) == Ok(bits)
    ensures Handle(env, s, Message(2, s.ctx.partyId, BatchOutput(ManyLabels(labels))))
         == Decoded(env, s, s, bits, [Message(s.ctx.partyId, 2, BatchOutput(ManyBits(Pack(bits))))])
  {
    hide HandleSetup, HandleCommonRandomness, HandleShamirToRss, HandleBatchInput, HandleCircuit, HandleVerification, TryOutput,
         GarblerVerifyMany, Pack, Decoded;
  }

  lemma LabelsShown(par: Params, p: nat)
    requires Runnable(par) && p < 2
    ensures |OutputBits(par)| > 0
    ensures Handle(par.env, IdealState(par, p, CWaitLabels), IdealMessage(par, Id(KLabels, 2, p)))
         == Decoded(par.env, IdealState(par, p, CWaitLabels), IdealState(par, p, CWaitLabels), OutputBits(par)[1..],
                    [IdealMessage(par, Id(KBits, p, 2))])
  {
    hide Runnable, Handle, Tables, Expand, Word, FirstMsg, SecondMsg, OutputActive, OutputFalse, Pack, KeysInClear, Separate, Wires1,
         Wires2, RingKey, Masked, Masks, Bits, GarblerVerifyMany, OutputBits, IdealYao, Keys, Decoded;
    RunnableThree(par);
    YaoSettled(par, p, 6);
    AllLabels(par);
    GarblerOutputs(par.env, IdealState(par, p, CWaitLabels), OutputActive(par)[1..], OutputBits(par)[1..]);
  }

  lemma GarblerEnds(par: Params, p: nat)
    requires Honest(par) && Runnable(par) && p < 2
    ensures |OutputBits(par)| > 0
    ensures var s := IdealState(par, p, CWaitLabels);
            Decoded(par.env, s, s, OutputBits(par)[1..], [IdealMessage(par, Id(KBits, p, 2))]) ==
            if KeysInClear(par).Some? then Consumed(IdealState(par, p, CDone), [IdealMessage(par, Id(KBits, p, 2))])
            else Failed(VerificationError, IdealState(par, p, CRejected), [IdealMessage(par, Id(KBits, p, 2))])
  {
    hide Runnable, IdealMessage, OutputActive, OutputFalse, KeysInClear, Honest, OutputBits, IdealYao, Tables, Keys, Masks, Masked,
         Word, Wires1, Wires2, FirstMsg, SecondMsg, Bits, Pack, Crs, ActiveInputs;
    RunnableThree(par);
    YaoSettled(par, p, 6);
    YaoSettled(par, p, 7);
    DecodesInClear(par);
  }

  /** Only the labels are still due. */
  lemma LabelsArrive(par: Params, p: nat)
    requires Honest(par) && Runnable(par) && p < 2
    ensures Refines(par, p, CWaitLabels, Id(KLabels, 2, p))
  {
    hide Runnable, Handle, Decoded, IdealMessage, IdealState, KeysInClear, Separate, Honest, OutputBits, RingKey;
    LabelsShown(par, p);
    MapOne(par, Id(KBits, p, 2));
    GarblerEnds(par, p);
  }

  lemma OnlyLabelsDue(p: nat, id: Id)
    requires Due(p, CWaitLabels, id)
    ensures p < 2 && id == Id(KLabels, 2, p)
  {
  }

  lemma OnlyBitsDue(o0: bool, o1: bool, id: Id)
    requires Due(2, COutputs(o0, o1), id)
    ensures id.from < 2 && id == Id(KBits, id.from, 2)
  {
  }

  /** The bits of one garbler go into their free slot. */
  lemma OutputsRouted(env: Env, s: State, g: nat, msg: OutputMsg)
    requires env.q > 1 && s.phase.EvaluatorWaitOutputs? && g < 2 && (if g == 0 then s.phase.bits0Msg else s.phase.bits1Msg).None?
    ensures Handle(env, s, Message(g, 2, BatchOutput(msg)))
         == TryOutput(env, s.(phase := if g == 0 then s.phase.(bits0Msg := Some(msg)) else s.phase.(bits1Msg := Some(msg))))
  {
    hide HandleSetup, HandleCommonRandomness, HandleShamirToRss, HandleBatchInput, HandleCircuit, HandleVerification, TryOutput,
         GarblerVerifyMany, Decoded, Pack;
  }

  lemma RefinesOutputs(par: Params, o0: bool, o1: bool, g: nat)
    requires Honest(par) && Runnable(par) && g < 2 && Due(2, COutputs(o0, o1), Id(KBits, g, 2))
    ensures Refines(par, 2, COutputs(o0, o1), Id(KBits, g, 2))
  {
    hide Handle, Tables, Expand, Word, FirstMsg, SecondMsg, OutputActive, OutputFalse, Pack, KeysInClear, Separate, Wires1, Wires2,
         RingKey, Masked, Masks, Bits, Honest, OutputBits, DecodeBits, IdealYao, Keys;
    OutputsRouted(par.env, IdealState(par, 2, COutputs(o0, o1)), g, ManyBits(Pack(OutputBits(par)[1..])));
    YaoSettled(par, 2, 6);
    YaoSettled(par, 2, 7);
    MapNone(par);
    PackIs(OutputBits(par)[1..], []);
    DecodesInClear(par);
  }
}
