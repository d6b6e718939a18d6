/** Rules that every phase of the session keeps, for arbitrary messages. */
module PhaseRules {
  import opened Wrappers
  import opened Blocks
  import opened Replay
  import opened Phases
  import Garbling
  import LabelPrfs
  import Setup

  /** Which messages a phase puts aside for later: from which party, and of which kind. */
  predicate Keeps(s: State, m: Message) {
    var id := s.ctx.partyId;
    match s.phase
    case WaitCrs => id == 1 && m.from == 0 && (m.body.KeyNext? || (m.body.SetupYao? && m.body.setup.PrfSeed?))
    case WaitPrf(_) => id == 1 && m.from == 0 && m.body.KeyNext?
    case WaitGarbleKey(_) => id == 2 && m.from == 1 && m.body.KeyNext?
    case CommonRandomness(_, _) => m.from != id && m.body.PaddedShare?
    case ShamirToRssPhase(_, _, _, _, _) => m.from != id && m.body.BatchInput?
    case CircuitEval(_, _, _) => m.from != id && m.body.Verification?
    case GarblerWaitLabel(_, _) => m.from != id && m.body.BatchOutput?
    case EvaluatorWaitBits(_, _, _) => m.from != id && m.body.BatchOutput?
    case GarblerWaitLabels(_) => false
    case EvaluatorWaitOutputs(_, _) => false
    case Done(_) => false
    case Aborted(_) => false
    case _ => id < 3 && m.from != id && (m.body.Verification? || m.body.BatchOutput? || (id == 2 && m.body.CircuitData?))
  }

  predicate AgreesOn(env: Env, s: State, m: Message)
    requires env.q > 1
  {
    Handle(env, s, m).NotReady? <==> Keeps(s, m)
  }

  lemma KeepsEarly(env: Env, s: State, m: Message)
    requires env.q > 1
    requires s.phase.WaitCrs? || s.phase.WaitPrf? || s.phase.WaitGarbleKey? || s.phase.CommonRandomness? || s.phase.ShamirToRssPhase?
    ensures AgreesOn(env, s, m)
  {
    hide HandleBatchInput, HandleCircuit, HandleVerification, HandleOutput, Garbling.GarbleAll, Setup.Expand;
  }

  lemma KeepsInputs(env: Env, s: State, m: Message)
    requires env.q > 1
    requires s.phase.GarblerWaitEvalBits? || s.phase.EvaluatorWaitMsg1? || s.phase.EvaluatorWaitMsg2?
    ensures AgreesOn(env, s, m)
  {
    hide HandleSetup, HandleCommonRandomness, HandleShamirToRss, HandleCircuit, HandleVerification, HandleOutput,
         Garbling.GarbleAll, Setup.Expand;
  }

  lemma KeepsLate(env: Env, s: State, m: Message)
    requires env.q > 1
    requires s.phase.CircuitEval? || s.phase.GarblerWaitLabel? || s.phase.EvaluatorWaitBits? || s.phase.GarblerWaitLabels? ||
             s.phase.EvaluatorWaitOutputs? || s.phase.Done? || s.phase.Aborted?
    ensures AgreesOn(env, s, m)
  {
    hide HandleSetup, HandleCommonRandomness, HandleShamirToRss, HandleBatchInput, Garbling.GarbleAll, Setup.Expand;
  }

  /** A message is put aside exactly when the table above says so. */
  lemma NotReadyIff(env: Env, s: State, m: Message)
    requires env.q > 1
    ensures Handle(env, s, m).NotReady? <==> Keeps(s, m)
  {
    hide Handle, Keeps;
    match s.phase {
      case GarblerWaitEvalBits(_, _, _) => KeepsInputs(env, s, m);
      case EvaluatorWaitMsg1(_, _, _, _) => KeepsInputs(env, s, m);
      case EvaluatorWaitMsg2(_, _, _, _, _, _) => KeepsInputs(env, s, m);
      case CircuitEval(_, _, _) => KeepsLate(env, s, m);
      case GarblerWaitLabel(_, _) => KeepsLate(env, s, m);
      case EvaluatorWaitBits(_, _, _) => KeepsLate(env, s, m);
      case GarblerWaitLabels(_) => KeepsLate(env, s, m);
      case EvaluatorWaitOutputs(_, _) => KeepsLate(env, s, m);
      case Done(_) => KeepsLate(env, s, m);
      case Aborted(_) => KeepsLate(env, s, m);
      case _ => KeepsEarly(env, s, m);
    }
  }

  /** The list of early messages names a ring key from party 2 at party 0, but a waiting party 0
      refuses it: everything from party 2 is taken for the common reference string. */
  lemma EarlyRingKeyRefused(env: Env, ctx: Context, key: LabelPrfs.Seed)
    requires env.q > 1 && ctx.partyId == 0
    ensures Handle(env, State(ctx, WaitCrs), Message(2, 0, KeyNext(key))) == Failed(InvalidMessage, State(ctx, WaitCrs), [])
  {
    hide HandleCommonRandomness, HandleShamirToRss, HandleBatchInput, HandleCircuit, HandleVerification, HandleOutput;
  }

  /** The slot for a message from `from` is taken. */
  predicate SlotTaken(s: State, from: nat) {
    match s.phase
    case ShamirToRssPhase(_, _, _, n, p) =>
      (from == NextParty(s.ctx.partyId) && n.Some?) || (from == PrevParty(s.ctx.partyId) && p.Some?)
    case EvaluatorWaitMsg1(_, _, p0, p1) => (from == 0 && p0.Some?) || (from == 1 && p1.Some?)
    case EvaluatorWaitMsg2(_, _, _, _, p0, p1) => (from == 0 && p0.Some?) || (from == 1 && p1.Some?)
    case CircuitEval(_, h, t) => (from == 0 && h.Some?) || (from == 1 && t.Some?)
    case EvaluatorWaitBits(_, b0, b1) => (from == 0 && b0.Some?) || (from == 1 && b1.Some?)
    case EvaluatorWaitOutputs(b0, b1) => (from == 0 && b0.Some?) || (from == 1 && b1.Some?)
    case _ => false
  }

  /** The message is of the kind the phase collects. */
  predicate SlotKind(s: State, m: Message) {
    match s.phase
    case ShamirToRssPhase(_, _, _, _, _) => m.body.PaddedShare?
    case EvaluatorWaitMsg1(_, _, _, _) => m.body.BatchInput?
    case EvaluatorWaitMsg2(_, _, _, _, _, _) => m.body.BatchInput?
    case CircuitEval(_, _, _) => m.body.CircuitData?
    case EvaluatorWaitBits(_, _, _) => m.body.Verification? && (m.from != s.ctx.partyId)
    case EvaluatorWaitOutputs(_, _) => m.body.BatchOutput?
    case _ => false
  }

  /** A second message from the same party never replaces the first one unnoticed. */
  lemma SecondMessageRefused(env: Env, s: State, m: Message)
    requires env.q > 1 && SlotTaken(s, m.from) && SlotKind(s, m)
    ensures var h := Handle(env, s, m); h.Failed? && h.error == InconsistentMessage && h.outs == []
  {
    hide HandleSetup, HandleCommonRandomness, TryReconstruct, Phases.EvaluatorInputs, EvaluatorI3, TryEvaluate, TryVerify, TryOutput,
         GarblerI3;
  }

  /** A garbler reads a bit off exactly the label that carries it. */
  lemma LabelCarriesIff(f: Block, delta: Block, lbl: Block, b: bool)
    requires Lsb(delta)
    ensures GarblerVerifyOne(f, delta, lbl) == Ok(b) <==> lbl == Active(f, b, delta)
  {
    ActiveLsb(f, true, delta);
    ActiveLsb(f, false, delta);
  }

  lemma LabelsCarryIff(fs: seq<Block>, delta: Block, labels: seq<Block>, bits: seq<bool>)
    requires Lsb(delta) && |fs| == |labels| == |bits|
    ensures GarblerVerifyMany(fs, delta, labels) == Ok(bits) <==>
            forall i | 0 <= i < |fs| :: labels[i] == Active(fs[i], bits[i], delta)
  {
    hide GarblerVerifyOne, Active;
    forall i | 0 <= i < |fs|
      ensures GarblerVerifyOne(fs[i], delta, labels[i]) == Ok(bits[i]) <==> labels[i] == Active(fs[i], bits[i], delta)
    {
      LabelCarriesIff(fs[i], delta, labels[i], bits[i]);
    }
    var r := GarblerVerifyMany(fs, delta, labels);
    if r == Ok(bits) {
      forall i | 0 <= i < |fs|
        ensures labels[i] == Active(fs[i], bits[i], delta)
      {
        assert r.value[i] == GarblerVerifyOne(fs[i], delta, labels[i]).value;
      }
    }
    if forall i | 0 <= i < |fs| :: labels[i] == Active(fs[i], bits[i], delta) {
      assert seq(|fs|, i requires 0 <= i < |fs| => GarblerVerifyOne(fs[i], delta, labels[i]).value) == bits;
    }
  }

  /** The labels are those that a garbler's output wires carry for these bits. */
  predicate ShowsBits(s: State, labels: seq<Block>, bits: seq<bool>)
    requires s.phase.GarblerWaitLabels? && s.ctx.yao.Some? && s.ctx.yao.value.Garbler?
  {
    |labels| == |bits| == |s.phase.components| &&
    forall i | 0 <= i < |bits| :: labels[i] == Active(s.phase.components[i], bits[i], s.ctx.yao.value.delta)
  }

  function BitsSent(s: State, bits: seq<bool>): seq<Message> {
    [Message(s.ctx.partyId, 2, BatchOutput(ManyBits(Pack(bits))))]
  }

  /** Whatever the evaluator sends, a garbler with an odd offset finishes exactly when it is shown
      labels of its own output wires whose bits make keys, and then it holds those keys. */
  lemma GarblerFinishes(env: Env, s: State, m: Message, bits: seq<bool>)
    requires env.q > 1 && s.phase.GarblerWaitLabels?
    requires s.ctx.yao.Some? && s.ctx.yao.value.Garbler? && Lsb(s.ctx.yao.value.delta)
    requires m.from == 2 && m.body.BatchOutput? && m.body.output.ManyLabels? && ShowsBits(s, m.body.output.labels, bits)
    ensures var h := Handle(env, s, m);
            h == if |bits| == OUTPUT_BITS && env.decode(bits).Some? then
                   Consumed(s.(phase := Done(env.decode(bits).value)), BitsSent(s, bits))
                 else Failed(if |bits| == OUTPUT_BITS then VerificationError else InvalidMessage, s, BitsSent(s, bits))
  {
    hide HandleSetup, HandleCommonRandomness, HandleShamirToRss, HandleBatchInput, HandleCircuit, HandleVerification, GarblerVerifyMany,
         TryOutput, Pack, Active;
    LabelsCarryIff(s.phase.components, s.ctx.yao.value.delta, m.body.output.labels, bits);
  }

  /** Nothing else makes it finish. */
  lemma FinishedWasShown(env: Env, s: State, m: Message) returns (bits: seq<bool>)
    requires env.q > 1 && s.phase.GarblerWaitLabels?
    requires s.ctx.yao.Some? && s.ctx.yao.value.Garbler? && Lsb(s.ctx.yao.value.delta)
    requires Handle(env, s, m).Consumed?
    ensures m.from == 2 && m.body.BatchOutput? && m.body.output.ManyLabels? && ShowsBits(s, m.body.output.labels, bits)
    ensures env.decode(bits).Some? && Handle(env, s, m).next.phase == Done(env.decode(bits).value)
  {
    hide HandleSetup, HandleCommonRandomness, HandleShamirToRss, HandleBatchInput, HandleCircuit, HandleVerification, GarblerVerifyOne,
         TryOutput, Pack, Active;
    bits := GarblerVerifyMany(s.phase.components, s.ctx.yao.value.delta, m.body.output.labels).value;
    LabelsCarryIff(s.phase.components, s.ctx.yao.value.delta, m.body.output.labels, bits);
  }
}
