/** Exactly which messages take a session from one phase to the next, for every state and every
    message, honest or not. */
module PhaseChecks {
  import opened Wrappers
  import opened Blocks
  import opened Circuits
  import opened LabelPrfs
  import opened Garbling
  import opened Setup
  import opened Inputs
  import opened PrimeField
  import opened Shamir
  import opened Builder
  import opened ImportCircuit
  import opened Replay
  import opened Phases
  import opened PhaseRules

  // ----- setup and ring keys -----

  /** The message the setup phase waits for. */
  predicate SetupNext(s: State, m: Message) {
    m.body.SetupYao? &&
    match s.phase
    case WaitCrs => s.ctx.partyId < 2 && m.from == 2 && m.body.setup.CommCrs?
    case WaitPrf(crs) => m.from == 0 && m.body.setup.PrfSeed? && m.body.setup.commCrs == crs
    case WaitGarbleKey(_) => m.from == 0 && m.body.setup.GarbleKey?
    case _ => false
  }

  /** The setup that a party takes over: everybody keeps the reference string of the evaluator, the
      garblers expand one seed, the evaluator has its garbling key. */
  predicate SetupTaken(env: Env, s: State, m: Message, next: State)
    requires SetupNext(s, m)
  {
    var id := s.ctx.partyId;
    match s.phase
    case WaitCrs =>
      if id == 1 then next == State(s.ctx, WaitPrf(m.body.setup.crs))
      else next.phase.CommonRandomness? && IsGarblerOf(env, next, m.body.setup.crs, env.derive("setup-yao/prf-seed", id, s.ctx.seed))
    case WaitPrf(crs) => next.phase.CommonRandomness? && IsGarblerOf(env, next, crs, m.body.setup.seed)
    case WaitGarbleKey(crs) => next.phase.CommonRandomness? && next.ctx.yao == Some(Evaluator(crs, m.body.setup.key))
  }

  /** The setup of a garbler comes from the disjoint parts of the shared seed's stream. */
  predicate IsGarblerOf(env: Env, s: State, crs: Block, seed: Seed) {
    s.ctx.yao.Some? && s.ctx.yao.value.Garbler? && s.ctx.yao.value.commCrs == crs &&
    FromDisjointParts(env.core, seed, s.ctx.yao.value.delta, s.ctx.yao.value.prf, s.ctx.yao.value.garbleKey)
  }

  lemma SetupAdvancesIff(env: Env, s: State, m: Message)
    requires env.q > 1 && (s.phase.WaitCrs? || s.phase.WaitPrf? || s.phase.WaitGarbleKey?)
    ensures var h := Handle(env, s, m);
            (h.Consumed? <==> SetupNext(s, m)) && (h.Consumed? ==> SetupTaken(env, s, m, h.next))
  {
    hide HandleCommonRandomness, HandleShamirToRss, HandleBatchInput, HandleCircuit, HandleVerification, HandleOutput, Expand,
         FromDisjointParts;
    if SetupNext(s, m) {
      ExpandsFromDisjointParts(env.core, env.derive("setup-yao/prf-seed", s.ctx.partyId, s.ctx.seed));
      if m.body.setup.PrfSeed? {
        ExpandsFromDisjointParts(env.core, m.body.setup.seed);
      }
    }
  }

  /** The ring key must come from the party before and differ from the own one. */
  lemma RingKeyAcceptedIff(env: Env, s: State, m: Message)
    requires env.q > 1 && s.phase.CommonRandomness? && s.ctx.partyId < 3
    ensures var h := Handle(env, s, m);
            (h.Consumed? <==> m.from == s.phase.prev && m.body.KeyNext? && m.body.ringKey != s.phase.keyNext) &&
            (h.Consumed? ==>
               h.next.phase.ShamirToRssPhase? && h.next.phase.fromNext == h.next.phase.fromPrev == None &&
               h.next.phase.rPrev == RingScalar(env, m.body.ringKey) && h.next.phase.rNext == RingScalar(env, s.phase.keyNext))
  {
    hide HandleSetup, HandleShamirToRss, HandleBatchInput, HandleCircuit, HandleVerification, HandleOutput, RssPairToShamir,
         PrimeField.Add, RingScalar;
  }

  // ----- Shamir to replicated shares -----

  /** The padded values of all three parties once `m` is in, in the order of their points. */
  function PaddedValues(s: State, m: Message): Option<seq<int>>
    requires s.phase.ShamirToRssPhase?
  {
    var p, id := s.phase, s.ctx.partyId;
    if !m.body.PaddedShare? || id > 2 then None
    else
      var next := if m.from == NextParty(id) && p.fromNext.None? then Some(m.body.share) else p.fromNext;
      var prev := if m.from == PrevParty(id) && p.fromPrev.None? then Some(m.body.share) else p.fromPrev;
      if next.None? || prev.None? then None
      else if id == 0 then Some([p.padded, next.value, prev.value])
      else if id == 1 then Some([prev.value, p.padded, next.value])
      else Some([next.value, prev.value, p.padded])
  }

  /** The message fills a slot that was empty. */
  predicate FillsPadded(s: State, m: Message)
    requires s.phase.ShamirToRssPhase?
  {
    m.body.PaddedShare? &&
    ((m.from == NextParty(s.ctx.partyId) && s.phase.fromNext.None?) || (m.from == PrevParty(s.ctx.partyId) && s.phase.fromPrev.None?))
  }

  /** An evaluator leaves the phase exactly when the third padded value lies on the line through the
      other two, and then its input is a sharing of the line's value at zero less the masks. */
  lemma CollinearAcceptedIff(env: Env, s: State, m: Message)
    requires Prime(env.q) && env.q > 3 && s.phase.ShamirToRssPhase? && s.ctx.partyId == 2
    requires FillsPadded(s, m) && PaddedValues(s, m).Some?
    requires forall i | 0 <= i < 3 :: Element(env.q, PaddedValues(s, m).value[i])
    ensures var ys, h := PaddedValues(s, m).value, Handle(env, s, m);
            (h.Consumed? <==> Collinear(env.q, EVAL_POINTS, ys)) && (h.Consumed? ==> h.next.phase.EvaluatorWaitMsg1?) &&
            (!h.Consumed? ==> h.Failed? && h.error == VerificationError && h.outs == [])
  {
    hide HandleSetup, HandleCommonRandomness, HandleBatchInput, HandleCircuit, HandleVerification, HandleOutput, ReconstructShare,
         FinalizeShamirToRss, InputWord, Pack, Collinear, Prime;
    var ys := PaddedValues(s, m).value;
    assert Points(env.q, EVAL_POINTS);
    ReconstructIffCollinear(env.q, EVAL_POINTS, ys, 2);
    assert PartyReconstruct(env.q, ys, EVAL_POINTS, 2) == ReconstructShare(env.q, ys[2], ys[0], ys[1], EVAL_POINTS, 2);
  }

  /** The same for a garbler, which must also have its setup. */
  lemma GarblerCollinearIff(env: Env, s: State, m: Message)
    requires Prime(env.q) && env.q > 3 && s.phase.ShamirToRssPhase? && s.ctx.partyId < 2
    requires s.ctx.yao.Some? && s.ctx.yao.value.Garbler?
    requires FillsPadded(s, m) && PaddedValues(s, m).Some?
    requires forall i | 0 <= i < 3 :: Element(env.q, PaddedValues(s, m).value[i])
    ensures var ys, h := PaddedValues(s, m).value, Handle(env, s, m);
            (h.Consumed? <==> Collinear(env.q, EVAL_POINTS, ys)) && (h.Consumed? ==> h.next.phase.GarblerWaitEvalBits?) &&
            (!h.Consumed? ==> h.Failed? && h.error == VerificationError && h.outs == [])
  {
    hide HandleSetup, HandleCommonRandomness, HandleBatchInput, HandleCircuit, HandleVerification, HandleOutput, ReconstructShare,
         FinalizeShamirToRss, InputWord, InputDraws, Msg1, Collinear, Prime;
    var ys, id := PaddedValues(s, m).value, s.ctx.partyId;
    assert Points(env.q, EVAL_POINTS);
    ReconstructIffCollinear(env.q, EVAL_POINTS, ys, id);
    assert PartyReconstruct(env.q, ys, EVAL_POINTS, id) == ReconstructShare(env.q, ys[id], ys[(id + 1) % 3], ys[(id + 2) % 3], EVAL_POINTS, id);
  }

  /** With one of the two other values still missing, the party stores the new one and waits. */
  lemma PaddedShareStored(env: Env, s: State, m: Message)
    requires env.q > 1 && s.phase.ShamirToRssPhase? && s.ctx.partyId < 3
    ensures var h := Handle(env, s, m);
            (FillsPadded(s, m) && PaddedValues(s, m).None? ==>
               h == Consumed(s.(phase := if m.from == NextParty(s.ctx.partyId) then s.phase.(fromNext := Some(m.body.share))
                                         else s.phase.(fromPrev := Some(m.body.share))), [])) &&
            (!FillsPadded(s, m) ==> !h.Consumed?)
  {
    hide HandleSetup, HandleCommonRandomness, HandleBatchInput, HandleCircuit, HandleVerification, HandleOutput, ReconstructShare,
         FinalizeShamirToRss, StartBatchInput;
  }

  // ----- inputs -----

  /** A garbler accepts exactly as many packed bits as it has input wires. */
  lemma EvalBitsAcceptedIff(env: Env, s: State, m: Message)
    requires env.q > 1 && s.phase.GarblerWaitEvalBits? && s.ctx.partyId < 2 && IsGarbler(s)
    requires |s.phase.allIp| == |s.phase.i1| == |s.phase.i2| == INPUT_BITS
    requires SixShapes(env.circuit) && env.circuit.outputGateIds != []
    ensures var h := Handle(env, s, m);
            (h.Consumed? <==> m.from == 2 && m.body.BatchInput? && m.body.batch.EvaluatorBits? && |m.body.batch.bits| == INPUT_BITS / 8) &&
            (h.Consumed? ==> h.next.phase.GarblerWaitLabel? && |h.outs| == 2)
  {
    hide HandleSetup, HandleCommonRandomness, HandleShamirToRss, HandleCircuit, HandleVerification, HandleOutput, GarbleAll, DrawPads,
         Msg2, BuilderForm, EvaluatorI3, Phases.EvaluatorInputs, BitAt;
    if m.body.BatchInput? && m.body.batch.EvaluatorBits? && |m.body.batch.bits| == INPUT_BITS / 8 && m.from == 2 {
      var st := s.ctx.yao.value.prf;
      var shares := PadShares(DrawPads(env.core, st, INPUT_BITS).0);
      var inputs := MakeInputs(s.phase.i1, s.phase.i2, shares).value;
      assert |inputs| == 6 && forall n | 0 <= n < 6 :: |inputs[n]| == SHARE_BITS;
      assert FitsGroups(env.circuit, inputs);
      FitsInputs(env.circuit, inputs);
    }
  }

  predicate FillsBatch(s: State, m: Message)
    requires s.phase.EvaluatorWaitMsg1? || s.phase.EvaluatorWaitMsg2?
  {
    m.from < 2 && m.body.BatchInput? && (if m.from == 0 then s.phase.from0 else s.phase.from1).None?
  }

  function BatchSlot(s: State, m: Message, g: nat): Option<BatchMsg>
    requires s.phase.EvaluatorWaitMsg1? || s.phase.EvaluatorWaitMsg2?
  {
    var slot := if g == 0 then s.phase.from0 else s.phase.from1;
    if m.from == g && m.body.BatchInput? && slot.None? then Some(m.body.batch) else slot
  }

  /** The evaluator takes two first messages exactly when they pass the checks on both inputs. */
  lemma FirstInputsAcceptedIff(env: Env, s: State, m: Message)
    requires env.q > 1 && s.phase.EvaluatorWaitMsg1? && s.ctx.partyId == 2 && s.ctx.yao.Some?
    ensures var h, a, b := Handle(env, s, m), BatchSlot(s, m, 0), BatchSlot(s, m, 1);
            var commit := CommitWith(env, s.ctx.yao.value.commCrs);
            (h.Consumed? && h.next.phase.EvaluatorWaitMsg2? <==>
               FillsBatch(s, m) && a.Some? && b.Some? && a.value.GarblerInputCommit? && b.value.GarblerInputCommit? &&
               ProcessMsg1(commit, a.value.msg1, b.value.msg1, |s.phase.bits0|).Ok?) &&
            (h.Consumed? && h.next.phase.EvaluatorWaitMsg2? ==>
               Ok((h.next.phase.i1, h.next.phase.i2)) == ProcessMsg1(commit, a.value.msg1, b.value.msg1, |s.phase.bits0|) &&
               h.next.phase.bits0 == s.phase.bits0 && h.next.phase.bits1 == s.phase.bits1 && h.outs == []) &&
            (h.Consumed? && !h.next.phase.EvaluatorWaitMsg2? <==>
               FillsBatch(s, m) && !(a.Some? && b.Some? && a.value.GarblerInputCommit? && b.value.GarblerInputCommit?)) &&
            (h.Consumed? && !h.next.phase.EvaluatorWaitMsg2? ==>
               h.next.phase == EvaluatorWaitMsg1(s.phase.bits0, s.phase.bits1, a, b) && h.outs == [])
  {
    hide HandleSetup, HandleCommonRandomness, HandleShamirToRss, HandleCircuit, HandleVerification, HandleOutput, ProcessMsg1,
         CommitWith, GarblerI3, EvaluatorI3;
  }

  /** With one honest garbler and no collision, an evaluator that takes the first messages holds the
      labels of the honest garbler's input, and of some input of the other's. */
  lemma FirstInputsOneHonest(env: Env, s: State, m: Message, honest: nat, delta: Block, ds1: seq<WireDraw>, ds2: seq<WireDraw>,
                             x: seq<bool>)
    requires env.q > 1 && s.phase.EvaluatorWaitMsg1? && s.ctx.partyId == 2 && s.ctx.yao.Some? && honest < 2
    requires |ds1| == |ds2| == |x| == |s.phase.bits0|
    requires var commit := CommitWith(env, s.ctx.yao.value.commCrs);
             BatchSlot(s, m, honest) == Some(GarblerInputCommit(Msg1(commit, honest, delta, ds1, ds2, x))) &&
             var other := BatchSlot(s, m, 1 - honest);
             other.Some? && other.value.GarblerInputCommit? ==>
               WiresBind(commit, other.value.msg1.w, other.value.msg1.wit, if honest == 0 then ds2 else ds1, delta)
    ensures var h := Handle(env, s, m);
            h.Consumed? && h.next.phase.EvaluatorWaitMsg2? ==>
              if honest == 0 then h.next.phase.i1 == OpenLabels(ds1, x, delta) && LabelsOf(h.next.phase.i2, ds2, delta)
              else LabelsOf(h.next.phase.i1, ds1, delta) && h.next.phase.i2 == OpenLabels(ds2, x, delta)
  {
    hide Handle, ProcessMsg1, CommitWith, Msg1, OpenLabels, LabelsOf, WiresBind;
    FirstInputsAcceptedIff(env, s, m);
    var other := BatchSlot(s, m, 1 - honest);
    if other.Some? && other.value.GarblerInputCommit? {
      OneHonestMsg1(CommitWith(env, s.ctx.yao.value.commCrs), honest, delta, ds1, ds2, x, other.value.msg1);
    }
  }

  /** The evaluator goes on to the circuit exactly when both second messages pass the checks. */
  lemma SecondInputsAcceptedIff(env: Env, s: State, m: Message)
    requires env.q > 1 && s.phase.EvaluatorWaitMsg2? && s.ctx.partyId == 2 && s.ctx.yao.Some?
    requires |s.phase.bits0| == |s.phase.bits1| == |s.phase.i1| == |s.phase.i2| == INPUT_BITS
    ensures var h, a, b := Handle(env, s, m), BatchSlot(s, m, 0), BatchSlot(s, m, 1);
            var commit := CommitWith(env, s.ctx.yao.value.commCrs);
            (h.Consumed? && h.next.phase.CircuitEval? <==>
               FillsBatch(s, m) && a.Some? && b.Some? && a.value.GarblerI3Commit? && b.value.GarblerI3Commit? &&
               ProcessMsg2(commit, a.value.msg2, b.value.msg2, INPUT_BITS, s.phase.bits0, s.phase.bits1).Ok?) &&
            (h.Consumed? && h.next.phase.CircuitEval? ==>
               var i3 := ProcessMsg2(commit, a.value.msg2, b.value.msg2, INPUT_BITS, s.phase.bits0, s.phase.bits1).value;
               Some(h.next.phase.inputs) == MakeInputs(s.phase.i1, s.phase.i2, i3) && h.outs == []) &&
            (h.Consumed? && !h.next.phase.CircuitEval? <==>
               FillsBatch(s, m) && !(a.Some? && b.Some? && a.value.GarblerI3Commit? && b.value.GarblerI3Commit?)) &&
            (h.Consumed? && !h.next.phase.CircuitEval? ==>
               h.next.phase == EvaluatorWaitMsg2(s.phase.bits0, s.phase.bits1, s.phase.i1, s.phase.i2, a, b) && h.outs == [])
  {
    hide HandleSetup, HandleCommonRandomness, HandleShamirToRss, HandleCircuit, HandleVerification, HandleOutput, CommitWith,
         GarblerI3, Phases.EvaluatorInputs, PadOpens;
  }

  /** With one honest garbler and no collision, the evaluator evaluates on the labels of its own
      input, whatever the other garbler sends. */
  lemma SecondInputsOneHonest(env: Env, s: State, m: Message, honest: nat, delta: Block, ds: seq<PadDraw>, x: seq<bool>)
    requires env.q > 1 && s.phase.EvaluatorWaitMsg2? && s.ctx.partyId == 2 && s.ctx.yao.Some? && honest < 2
    requires |s.phase.bits0| == |ds| == |x| == |s.phase.i1| == |s.phase.i2| == INPUT_BITS
    requires s.phase.bits1 == PaddedBits(x, s.phase.bits0)
    requires var commit := CommitWith(env, s.ctx.yao.value.commCrs);
             BatchSlot(s, m, honest)
               == Some(GarblerI3Commit(Msg2(commit, honest, delta, ds, if honest == 0 then s.phase.bits0 else s.phase.bits1))) &&
             var other := BatchSlot(s, m, 1 - honest);
             other.Some? && other.value.GarblerI3Commit? ==> PadsBind(commit, other.value.msg2, honest == 1, ds, delta)
    ensures var h := Handle(env, s, m);
            h.Consumed? && h.next.phase.CircuitEval? ==>
              Some(h.next.phase.inputs) == MakeInputs(s.phase.i1, s.phase.i2, EvaluatorLabels(ds, x, delta))
  {
    hide Handle, ProcessMsg2, CommitWith, Msg2, EvaluatorLabels, PadsBind, MakeInputs;
    SecondInputsAcceptedIff(env, s, m);
    var other := BatchSlot(s, m, 1 - honest);
    if other.Some? && other.value.GarblerI3Commit? {
      OneHonestMsg2(CommitWith(env, s.ctx.yao.value.commCrs), honest, delta, ds, x, s.phase.bits0, other.value.msg2);
    }
  }

  // ----- the verification bit -----

  predicate IsGarbler(s: State) {
    s.ctx.yao.Some? && s.ctx.yao.value.Garbler? && Lsb(s.ctx.yao.value.delta)
  }

  function Delta(s: State): Block
    requires IsGarbler(s)
  {
    s.ctx.yao.value.delta
  }

  /** Party 2 shows one label. */
  predicate ShowsLabel(m: Message) {
    m.from == 2 && m.body.Verification? && m.body.verify.OneLabel?
  }

  /** Whatever arrives, a garbler goes on to the output labels exactly when the evaluator shows it
      the label of a true verification bit. The label of a false bit is answered and then stops it;
      anything else is no label of the wire. */
  lemma TrueBitShownIff(env: Env, s: State, m: Message)
    requires env.q > 1 && s.phase.GarblerWaitLabel? && IsGarbler(s)
    ensures var h, f := Handle(env, s, m), s.phase.verification;
            (h.Consumed? <==> ShowsLabel(m) && m.body.verify.lbl == Active(f, true, Delta(s))) &&
            (h.Consumed? ==>
               h == Consumed(s.(phase := GarblerWaitLabels(s.phase.components)),
                             [Message(s.ctx.partyId, 2, Verification(OneBit(true)))])) &&
            (ShowsLabel(m) && m.body.verify.lbl == Active(f, false, Delta(s)) ==>
               h == Failed(VerificationError, s, [Message(s.ctx.partyId, 2, Verification(OneBit(false)))])) &&
            (ShowsLabel(m) && (forall b :: m.body.verify.lbl != Active(f, b, Delta(s))) ==> h == Failed(InvalidShare, s, []))
  {
    hide HandleSetup, HandleCommonRandomness, HandleShamirToRss, HandleBatchInput, HandleCircuit, HandleOutput, TryVerify,
         GarblerVerifyOne, Active;
    if ShowsLabel(m) {
      LabelCarriesIff(s.phase.verification, Delta(s), m.body.verify.lbl, true);
      LabelCarriesIff(s.phase.verification, Delta(s), m.body.verify.lbl, false);
      NoLabelRefused(s.phase.verification, Delta(s), m.body.verify.lbl);
    }
  }

  lemma NoLabelRefused(f: Block, delta: Block, lbl: Block)
    ensures (forall b :: lbl != Active(f, b, delta)) ==> GarblerVerifyOne(f, delta, lbl) == Err(InvalidShare)
  {
    assert Active(f, false, delta) == f && Active(f, true, delta) == XorBlocks(f, delta);
  }

  /** What the evaluator has of garbler `g`'s verification message once `m` is in. */
  function BitSlot(s: State, m: Message, g: nat): Option<OutputMsg>
    requires s.phase.EvaluatorWaitBits?
  {
    var slot := if g == 0 then s.phase.bit0 else s.phase.bit1;
    if m.from == g && m.body.Verification? && slot.None? then Some(m.body.verify) else slot
  }

  predicate FillsBit(s: State, m: Message)
    requires s.phase.EvaluatorWaitBits?
  {
    m.from < 2 && m.body.Verification? && (if m.from == 0 then s.phase.bit0 else s.phase.bit1).None?
  }

  /** The evaluator shows its output labels exactly when both garblers have answered that the bit is
      true. */
  lemma BothBitsTrueIff(env: Env, s: State, m: Message)
    requires env.q > 1 && s.phase.EvaluatorWaitBits? && s.ctx.partyId == 2
    ensures var h := Handle(env, s, m);
            (h.Consumed? && h.next.phase.EvaluatorWaitOutputs? <==>
               FillsBit(s, m) && BitSlot(s, m, 0) == Some(OneBit(true)) && BitSlot(s, m, 1) == Some(OneBit(true))) &&
            (h.Consumed? && h.next.phase.EvaluatorWaitOutputs? ==>
               h.outs == [Message(2, 0, BatchOutput(ManyLabels(s.phase.labels))), Message(2, 1, BatchOutput(ManyLabels(s.phase.labels)))]) &&
            (h.Consumed? && !h.next.phase.EvaluatorWaitOutputs? <==>
               FillsBit(s, m) && (BitSlot(s, m, 0).None? || BitSlot(s, m, 1).None?)) &&
            (h.Consumed? && !h.next.phase.EvaluatorWaitOutputs? ==>
               h.next.phase == EvaluatorWaitBits(s.phase.labels, BitSlot(s, m, 0), BitSlot(s, m, 1)) && h.outs == []) &&
            (FillsBit(s, m) && BitSlot(s, m, 0) == Some(OneBit(false)) && BitSlot(s, m, 1) == Some(OneBit(false)) ==>
               h.Failed? && h.error == VerificationError)
  {
    hide HandleSetup, HandleCommonRandomness, HandleShamirToRss, HandleBatchInput, HandleCircuit, HandleOutput, GarblerVerifyOne;
  }

  // ----- the circuit -----

  predicate FillsCircuit(s: State, m: Message)
    requires s.phase.CircuitEval?
  {
    m.from < 2 && m.body.CircuitData? && (if m.from == 0 then s.phase.hashFrom0 else s.phase.tablesFrom1).None?
  }

  function CircuitSlot(s: State, m: Message, g: nat): Option<CircuitMsg>
    requires s.phase.CircuitEval?
  {
    var slot := if g == 0 then s.phase.hashFrom0 else s.phase.tablesFrom1;
    if m.from == g && m.body.CircuitData? && slot.None? then Some(m.body.circuit) else slot
  }

  /** Both garblers' data are there, and party 0's hash is that of party 1's tables. */
  predicate TablesMatch(env: Env, s: State, m: Message)
    requires s.phase.CircuitEval?
  {
    FillsCircuit(s, m) &&
    match (CircuitSlot(s, m, 0), CircuitSlot(s, m, 1))
    case (Some(HashOf(d)), Some(GarbledTables(t))) => env.digest(t) == d
    case _ => false
  }

  /** The evaluator evaluates party 1's tables exactly when party 0's hash is theirs and they are long
      enough, and shows both garblers the label it gets for the first output. */
  lemma TablesAcceptedIff(env: Env, s: State, m: Message)
    requires env.q > 1 && s.phase.CircuitEval? && s.ctx.partyId == 2 && s.ctx.yao.Some?
    requires env.circuit.WiresInRange() && env.circuit.InputsFit(s.phase.inputs) && env.circuit.outputGateIds != []
    ensures var h := Handle(env, s, m);
            (h.Consumed? && h.next.phase.EvaluatorWaitBits? <==>
               TablesMatch(env, s, m) && TableLength(env.circuit.gates) <= |CircuitSlot(s, m, 1).value.tables|) &&
            (h.Consumed? && !h.next.phase.EvaluatorWaitBits? <==>
               FillsCircuit(s, m) && (CircuitSlot(s, m, 0).None? || CircuitSlot(s, m, 1).None?)) &&
            (h.Consumed? && !h.next.phase.EvaluatorWaitBits? ==>
               h.next.phase == CircuitEval(s.phase.inputs, CircuitSlot(s, m, 0), CircuitSlot(s, m, 1)) && h.outs == [])
  {
    hide HandleSetup, HandleCommonRandomness, HandleShamirToRss, HandleBatchInput, HandleVerification, HandleOutput, EvalAll,
         TableLength, TccrWith;
    if TablesMatch(env, s, m) {
      var t, hash := CircuitSlot(s, m, 1).value.tables, TccrWith(env, s.ctx.yao.value.garbleKey);
      EvalOkIff(env.circuit, s.phase.inputs, t, hash);
      if EvalAll(env.circuit, s.phase.inputs, t, hash).Ok? {
        OutputsPresent(env.circuit, s.phase.inputs, t, hash);
      }
    }
  }

  lemma OutputsPresent(c: BinaryCircuit, labels: seq<seq<Block>>, t: seq<Block>, hash: TccrHash)
    requires EvalAll(c, labels, t, hash).Ok?
    ensures forall i | 0 <= i < |c.outputGateIds| :: c.outputGateIds[i] in EvalAll(c, labels, t, hash).value
  {
  }

  /** What an evaluator that goes on shows: the labels of the circuit's outputs under the tables. */
  lemma EvaluatorShows(env: Env, s: State, m: Message)
    requires env.q > 1 && s.phase.CircuitEval? && s.ctx.partyId == 2 && s.ctx.yao.Some?
    ensures var h := Handle(env, s, m);
            h.Consumed? && h.next.phase.EvaluatorWaitBits? ==>
              TablesMatch(env, s, m) &&
              var out := EvalAll(env.circuit, s.phase.inputs, CircuitSlot(s, m, 1).value.tables, TccrWith(env, s.ctx.yao.value.garbleKey));
              out.Ok? && |env.circuit.outputGateIds| == 1 + |h.next.phase.labels| &&
              (forall i | 0 <= i < |env.circuit.outputGateIds| :: env.circuit.outputGateIds[i] in out.value) &&
              (forall i | 0 <= i < |h.next.phase.labels| :: h.next.phase.labels[i] == out.value[env.circuit.outputGateIds[i + 1]]) &&
              var first := Verification(OneLabel(out.value[env.circuit.outputGateIds[0]]));
              h.outs == [Message(2, 0, first), Message(2, 1, first)]
  {
    hide HandleSetup, HandleCommonRandomness, HandleShamirToRss, HandleBatchInput, HandleVerification, HandleOutput, EvalAll, TccrWith;
  }

  /** The share check of the import circuit stops the garblers: shown the label that evaluation gives
      for output 0, a garbler goes on exactly when the sharings match cyclically. */
  lemma MismatchStops(env: Env, s: State, q: nat, prfs: seq<BinaryCircuit>, inputs: seq<seq<bool>>, shares: seq<seq<Block>>,
                      labels: seq<seq<Block>>, hash: TccrHash, st: PrfState, to: nat)
    requires env.q > 1 && s.phase.GarblerWaitLabel? && IsGarbler(s)
    requires Imports(env.circuit, q, prfs) && SharingInputs(inputs) && env.circuit.outputGateIds != []
    requires env.circuit.WiresInRange() && env.circuit.InputsFit(shares) && env.circuit.InputsFit(labels)
    requires env.circuit.InputsFit(inputs) && InputsEncode(env.circuit, shares, labels, inputs, Delta(s))
    requires s.phase.verification == GarbleAll(env.circuit, shares, Delta(s), env.core, hash, st).w[env.circuit.outputGateIds[0]]
    ensures var o := env.circuit.outputGateIds[0];
            var r := EvalAll(env.circuit, labels, GarbleAll(env.circuit, shares, Delta(s), env.core, hash, st).f, hash);
            r.Ok? && o in r.value &&
            var h := Handle(env, s, Message(2, to, Verification(OneLabel(r.value[o]))));
            (h.Consumed? <==> CyclicMatch(inputs)) && (h.Consumed? ==> h.next.phase.GarblerWaitLabels?) &&
            (!CyclicMatch(inputs) ==> h.Failed? && h.error == VerificationError)
  {
    hide GarbleAll, EvalAll, Handle, BuilderForm, CyclicMatch, InputsEncode, Imports, Active;
    var c, g := env.circuit, GarbleAll(env.circuit, shares, Delta(s), env.core, hash, st);
    GarbleThenEvaluate(c, shares, labels, inputs, Delta(s), env.core, hash, st, g.f);
    FirstOutputIsMatch(c, q, prfs, inputs);
    var lbl := EvalAll(c, labels, g.f, hash).value[c.outputGateIds[0]];
    TrueBitShownIff(env, s, Message(2, to, Verification(OneLabel(lbl))));
    TwoLabels(s.phase.verification, Delta(s));
  }

  lemma TwoLabels(f: Block, delta: Block)
    requires Lsb(delta)
    ensures Active(f, true, delta) != Active(f, false, delta)
  {
    ActiveLsb(f, true, delta);
  }

  lemma FirstOutputIsMatch(c: BinaryCircuit, q: nat, prfs: seq<BinaryCircuit>, inputs: seq<seq<bool>>)
    requires Imports(c, q, prfs) && SharingInputs(inputs)
    ensures c.WiresInRange() && c.InputsFit(inputs) && |c.outputGateIds| > 0 && Eval(c, inputs)[0] == CyclicMatch(inputs)
  {
    hide BuilderForm, ShareSum, PrfOutputs, CyclicMatch;
    assert ImportsAt(c, q, prfs, inputs);
    assert FitsGroups(c, inputs);
    OutputIsEval(c, inputs);
  }

  // ----- outputs -----

  predicate FillsOutput(s: State, m: Message)
    requires s.phase.EvaluatorWaitOutputs?
  {
    m.from < 2 && m.body.BatchOutput? && (if m.from == 0 then s.phase.bits0Msg else s.phase.bits1Msg).None?
  }

  function OutputSlot(s: State, m: Message, g: nat): Option<OutputMsg>
    requires s.phase.EvaluatorWaitOutputs?
  {
    var slot := if g == 0 then s.phase.bits0Msg else s.phase.bits1Msg;
    if m.from == g && m.body.BatchOutput? && slot.None? then Some(m.body.output) else slot
  }

  /** The evaluator finishes exactly when both garblers have sent it the same bytes and these hold
      output bits that make keys. */
  lemma EvaluatorFinishesIff(env: Env, s: State, m: Message)
    requires env.q > 1 && s.phase.EvaluatorWaitOutputs? && s.ctx.partyId == 2
    ensures var h := Handle(env, s, m);
            (h.Consumed? && h.next.phase.Done? <==>
               FillsOutput(s, m) && OutputSlot(s, m, 0) == OutputSlot(s, m, 1) &&
               OutputSlot(s, m, 0).Some? && OutputSlot(s, m, 0).value.ManyBits? &&
               DecodeBits(OutputSlot(s, m, 0).value.bytes, OUTPUT_BITS).Ok? &&
               env.decode(DecodeBits(OutputSlot(s, m, 0).value.bytes, OUTPUT_BITS).value).Some?) &&
            (h.Consumed? && h.next.phase.Done? ==>
               Some(h.next.phase.keys) == env.decode(DecodeBits(OutputSlot(s, m, 0).value.bytes, OUTPUT_BITS).value) && h.outs == []) &&
            (h.Consumed? && !h.next.phase.Done? <==>
               FillsOutput(s, m) && (OutputSlot(s, m, 0).None? || OutputSlot(s, m, 1).None?)) &&
            (h.Consumed? && !h.next.phase.Done? ==>
               h.next.phase == EvaluatorWaitOutputs(OutputSlot(s, m, 0), OutputSlot(s, m, 1)) && h.outs == [])
  {
    hide HandleSetup, HandleCommonRandomness, HandleShamirToRss, HandleBatchInput, HandleCircuit, HandleVerification, GarblerVerifyMany;
  }
}
