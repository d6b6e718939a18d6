/** The phases of the Orchard derivation session (`crates/zcash/src/derivation_session/phases`).
    A handler is a function of the party's context, its phase and the message. */
module Phases {
  import opened Wrappers
  import opened Blocks
  import opened Circuits
  import opened LabelPrfs
  import opened Garbling
  import opened Setup
  import opened Inputs
  import opened Shamir
  import opened ImportCircuit
  import opened Replay

  const INPUT_BITS: nat := 512
  const OUTPUT_BITS: nat := 1536

  datatype OrchardKeys = OrchardKeys(ask: seq<Byte>, nk: seq<Byte>, rivk: seq<Byte>, internalIvk: seq<Byte>, externalIvk: seq<Byte>)

  /** The primitives and the embedded circuit. `derive` is the context's hash of a domain, a party
      and a seed; `scalar` the field element drawn from a ring key; `decode` the foreign code that
      makes Orchard keys of the output bits, or rejects them. */
  datatype Env = Env(
    q: nat,
    core: Core,
    derive: (string, nat, Seed) -> Seed,
    scalar: Seed -> int,
    commit: (Block, Block, Block) -> Block,
    tccr: (Block, Block, nat) -> Block,
    digest: seq<Block> -> Seed,
    decode: seq<bool> -> Option<OrchardKeys>,
    circuit: BinaryCircuit)

  // ----- messages -----

  datatype SetupMsg = CommCrs(crs: Block) | PrfSeed(seed: Seed, commCrs: Block) | GarbleKey(key: Block)
  datatype BatchMsg = EvaluatorBits(bits: seq<Byte>) | GarblerInputCommit(msg1: InputMsg1) | GarblerI3Commit(msg2: InputMsg2)
  datatype CircuitMsg = HashOf(digest: Seed) | GarbledTables(tables: seq<Block>)
  datatype OutputMsg = OneLabel(lbl: Block) | ManyLabels(labels: seq<Block>) | OneBit(bit: bool) | ManyBits(bytes: seq<Byte>)

  datatype Body =
    | SetupYao(setup: SetupMsg)
    | KeyNext(ringKey: Seed)
    | PaddedShare(share: int)
    | BatchInput(batch: BatchMsg)
    | CircuitData(circuit: CircuitMsg)
    | Verification(verify: OutputMsg)
    | BatchOutput(output: OutputMsg)
    | Abort

  datatype Message = Message(from: nat, to: nat, body: Body)

  // ----- state -----

  datatype YaoSetup =
    | Garbler(commCrs: Block, garbleKey: Block, prf: PrfState, delta: Block)
    | Evaluator(commCrs: Block, garbleKey: Block)

  /** `pad` is what the operating system's generator will give the evaluator. */
  datatype Context = Context(partyId: nat, share: int, seed: Seed, pad: seq<bool>, yao: Option<YaoSetup>)

  datatype Phase =
    | WaitCrs
    | WaitPrf(commCrs: Block)
    | WaitGarbleKey(commCrs: Block)
    | CommonRandomness(keyNext: Seed, prev: nat)
    | ShamirToRssPhase(rPrev: int, rNext: int, padded: int, fromNext: Option<int>, fromPrev: Option<int>)
    | GarblerWaitEvalBits(allIp: seq<bool>, i1: seq<Block>, i2: seq<Block>)
    | EvaluatorWaitMsg1(bits0: seq<bool>, bits1: seq<bool>, from0: Option<BatchMsg>, from1: Option<BatchMsg>)
    | EvaluatorWaitMsg2(bits0: seq<bool>, bits1: seq<bool>, i1: seq<Block>, i2: seq<Block>, from0: Option<BatchMsg>, from1: Option<BatchMsg>)
    | CircuitEval(inputs: seq<seq<Block>>, hashFrom0: Option<CircuitMsg>, tablesFrom1: Option<CircuitMsg>)
    | GarblerWaitLabel(verification: Block, components: seq<Block>)
    | EvaluatorWaitBits(labels: seq<Block>, bit0: Option<OutputMsg>, bit1: Option<OutputMsg>)
    | GarblerWaitLabels(components: seq<Block>)
    | EvaluatorWaitOutputs(bits0Msg: Option<OutputMsg>, bits1Msg: Option<OutputMsg>)
    | Done(keys: OrchardKeys)
    | Aborted(culprit: nat)

  datatype State = State(ctx: Context, phase: Phase)

  type Handling = Handled<State, Message, ProtocolError>

  function PrevParty(id: nat): nat {
    (id + 2) % 3
  }

  function NextParty(id: nat): nat {
    (id + 1) % 3
  }

  /** An error that leaves the session as it was. */
  function Reject(s: State, e: ProtocolError): Handling {
    Failed(e, s, [])
  }

  function DeriveBlock(env: Env, domain: string, ctx: Context): Block {
    env.derive(domain, ctx.partyId, ctx.seed)[..16]
  }

  // ----- setup -----

  function StartSetup(env: Env, ctx: Context): (State, seq<Message>) {
    if ctx.partyId == 2 then
      var crs := DeriveBlock(env, "setup-yao/comm-crs", ctx);
      (State(ctx, WaitGarbleKey(crs)),
       [Message(2, 0, SetupYao(CommCrs(crs))), Message(2, 1, SetupYao(CommCrs(crs)))])
    else (State(ctx, WaitCrs), [])
  }

  function SetupGarbler(env: Env, ctx: Context, crs: Block, prfSeed: Seed): Context {
    var keys := Expand(env.core, prfSeed);
    ctx.(yao := Some(Garbler(crs, keys.garbleKey, keys.labels, keys.delta)))
  }

  /** The setup phase: three waiting states and the early messages each of them keeps. In the first
      one a message from party 2 never reaches the list of early messages. */
  function HandleSetup(env: Env, s: State, m: Message): Handling
    requires s.phase.WaitCrs? || s.phase.WaitPrf? || s.phase.WaitGarbleKey?
  {
    var id := s.ctx.partyId;
    match s.phase
    case WaitCrs =>
      if m.from == 2 then
        if m.body.SetupYao? && m.body.setup.CommCrs? then AfterCrs(env, s, m.body.setup.crs) else Reject(s, InvalidMessage)
      else
        var early := id == 1 && m.from == 0 && (m.body.KeyNext? || (m.body.SetupYao? && m.body.setup.PrfSeed?));
        if early then NotReady else Reject(s, InvalidMessage)
    case WaitPrf(crs) =>
      if m.body.KeyNext? && id == 1 && m.from == 0 then NotReady
      else if m.from == 0 then
        if m.body.SetupYao? && m.body.setup.PrfSeed? then
          if m.body.setup.commCrs != crs then Reject(s, InconsistentMessage)
          else StartCommonRandomness(env, SetupGarbler(env, s.ctx, crs, m.body.setup.seed), [])
        else Reject(s, InvalidMessage)
      else Reject(s, InvalidMessage)
    case WaitGarbleKey(crs) =>
      if m.body.KeyNext? && id == 2 && m.from == 1 then NotReady
      else if m.from == 0 then
        if m.body.SetupYao? && m.body.setup.GarbleKey? then
          StartCommonRandomness(env, s.ctx.(yao := Some(Evaluator(crs, m.body.setup.key))), [])
        else Reject(s, InvalidMessage)
      else Reject(s, InvalidMessage)
  }

  function AfterCrs(env: Env, s: State, crs: Block): Handling {
    var id := s.ctx.partyId;
    if id == 0 then
      var prfSeed := env.derive("setup-yao/prf-seed", id, s.ctx.seed);
      var ctx := SetupGarbler(env, s.ctx, crs, prfSeed);
      StartCommonRandomness(env, ctx, [Message(0, 1, SetupYao(PrfSeed(prfSeed, crs))),
                                       Message(0, 2, SetupYao(GarbleKey(ctx.yao.value.garbleKey)))])
    else if id == 1 then Consumed(s.(phase := WaitPrf(crs)), [])
    else Reject(s, InvalidMessage)
  }

  // ----- ring keys -----

  function StartCommonRandomness(env: Env, ctx: Context, outs: seq<Message>): Handling {
    var keyNext := env.derive("common-randomness/key-next", ctx.partyId, ctx.seed);
    Consumed(State(ctx, CommonRandomness(keyNext, PrevParty(ctx.partyId))),
             outs + [Message(ctx.partyId, NextParty(ctx.partyId), KeyNext(keyNext))])
  }

  function HandleCommonRandomness(env: Env, s: State, m: Message): Handling
    requires s.phase.CommonRandomness? && env.q > 1
  {
    if m.body.PaddedShare? && m.from != s.ctx.partyId then NotReady
    else if m.from != s.phase.prev || !m.body.KeyNext? then Reject(s, InvalidMessage)
    else if m.body.ringKey == s.phase.keyNext then Reject(s, VerificationError)
    else StartShamirToRss(env, s, m.body.ringKey, s.phase.keyNext)
  }

  // ----- Shamir to replicated shares -----

  const EVAL_POINTS: seq<int> := [1, 2, 3]

  function RingScalar(env: Env, key: Seed): int
    requires env.q > 0
  {
    env.scalar(key) % env.q
  }

  function StartShamirToRss(env: Env, s: State, keyPrev: Seed, keyNext: Seed): Handling
    requires env.q > 1
  {
    var id := s.ctx.partyId;
    if id > 2 then Reject(s, InvalidMessage)
    else
      var rPrev, rNext := RingScalar(env, keyPrev), RingScalar(env, keyNext);
      var padded := PrimeField.Add(env.q, s.ctx.share, RssPairToShamir(env.q, rPrev, rNext, id, EVAL_POINTS));
      Consumed(s.(phase := ShamirToRssPhase(rPrev, rNext, padded, None, None)),
               [Message(id, PrevParty(id), PaddedShare(padded)), Message(id, NextParty(id), PaddedShare(padded))])
  }

  function HandleShamirToRss(env: Env, s: State, m: Message): Handling
    requires s.phase.ShamirToRssPhase? && env.q > 1
  {
    var id := s.ctx.partyId;
    if m.body.BatchInput? && m.from != id then NotReady
    else if !m.body.PaddedShare? then Reject(s, InvalidMessage)
    else if m.from == NextParty(id) then
      var next := s.(phase := s.phase.(fromNext := Some(m.body.share)));
      if s.phase.fromNext.Some? then Failed(InconsistentMessage, next, []) else TryReconstruct(env, next)
    else if m.from == PrevParty(id) then
      var next := s.(phase := s.phase.(fromPrev := Some(m.body.share)));
      if s.phase.fromPrev.Some? then Failed(InconsistentMessage, next, []) else TryReconstruct(env, next)
    else Reject(s, InvalidMessage)
  }

  function TryReconstruct(env: Env, s: State): Handling
    requires s.phase.ShamirToRssPhase? && env.q > 1
  {
    var p, id := s.phase, s.ctx.partyId;
    if p.fromNext.None? || p.fromPrev.None? then Consumed(s, [])
    else if id > 2 then Reject(s, VerificationError)
    else
      match ReconstructShare(env.q, p.padded, p.fromNext.value, p.fromPrev.value, EVAL_POINTS, id)
      case None => Reject(s, VerificationError)
      case Some(padded) =>
        var (prev, next) := FinalizeShamirToRss(env.q, padded, p.rPrev, p.rNext, id);
        StartBatchInput(env, s, prev, next)
  }

  // ----- inputs -----

  function InputWord(prev: int, next: int): seq<bool> {
    ToBits(if prev < 0 then 0 else prev, SHARE_BITS) + ToBits(if next < 0 then 0 else next, SHARE_BITS)
  }

  function CommitWith(env: Env, crs: Block): Commit {
    (m: Block, w: Block) => env.commit(crs, m, w)
  }

  function TccrWith(env: Env, key: Block): TccrHash {
    (b: Block, i: nat) => env.tccr(key, b, i)
  }

  /** The pad as the evaluator uses it: one bit for every input bit. */
  function PadBits(ctx: Context): (r: seq<bool>)
    ensures |r| == INPUT_BITS
  {
    seq(INPUT_BITS, i requires 0 <= i < INPUT_BITS => i < |ctx.pad| && ctx.pad[i])
  }

  /** The packing that `encode_bits` computes. */
  function Pack(bits: seq<bool>): seq<Byte> {
    seq(PackedLength(|bits|), i requires 0 <= i < PackedLength(|bits|) => PackByte(bits, 8 * i, 8))
  }

  function PackByte(bits: seq<bool>, at: nat, n: nat): Byte
    requires n <= 8
  {
    if n == 0 then 0
    else
      var b := PackByte(bits, at, n - 1);
      if at + n - 1 < |bits| && bits[at + n - 1] then b | BitMask(n - 1) else b
  }

  function StartBatchInput(env: Env, s: State, prev: int, next: int): Handling {
    var allIp := InputWord(prev, next);
    if s.ctx.partyId == 2 then
      var bits0, bits1 := PadBits(s.ctx), PaddedBits(allIp, PadBits(s.ctx));
      Consumed(State(s.ctx, EvaluatorWaitMsg1(bits0, bits1, None, None)),
               [Message(2, 0, BatchInput(EvaluatorBits(Pack(bits0)))), Message(2, 1, BatchInput(EvaluatorBits(Pack(bits1))))])
    else
      match s.ctx.yao
      case None => Reject(s, MissingMessage)
      case Some(Evaluator(_, _)) => Reject(s, InvalidMessage)
      case Some(Garbler(crs, key, prf, delta)) =>
        var (ds1, ds2, end) := InputDraws(env.core, prf, |allIp|);
        var msg := Msg1(CommitWith(env, crs), s.ctx.partyId, delta, ds1, ds2, allIp);
        Consumed(State(s.ctx.(yao := Some(Garbler(crs, key, end, delta))),
                       GarblerWaitEvalBits(allIp, FalseLabels(ds1), FalseLabels(ds2))),
                 [Message(s.ctx.partyId, 2, BatchInput(GarblerInputCommit(msg)))])
  }

  /** The circuit's input order: the `next` words of the three inputs, then their `prev` words. */
  function MakeInputs(i1: seq<Block>, i2: seq<Block>, i3: seq<Block>): Option<seq<seq<Block>>> {
    if |i1| != INPUT_BITS || |i2| != INPUT_BITS || |i3| != INPUT_BITS then None
    else Some([i1[SHARE_BITS..], i2[SHARE_BITS..], i3[SHARE_BITS..], i1[..SHARE_BITS], i2[..SHARE_BITS], i3[..SHARE_BITS]])
  }

  function IsFuture(id: nat, m: Message): bool {
    id < 3 && m.from != id && (m.body.Verification? || m.body.BatchOutput? || (id == 2 && m.body.CircuitData?))
  }

  function HandleBatchInput(env: Env, s: State, m: Message): Handling
    requires s.phase.GarblerWaitEvalBits? || s.phase.EvaluatorWaitMsg1? || s.phase.EvaluatorWaitMsg2?
  {
    if IsFuture(s.ctx.partyId, m) then NotReady
    else if s.phase.GarblerWaitEvalBits? then
      if m.from != 2 || !m.body.BatchInput? || !m.body.batch.EvaluatorBits? then Reject(s, InvalidMessage)
      else GarblerI3(env, s, m.body.batch.bits)
    else
      match RouteBatch(s.phase.from0, s.phase.from1, m)
      case Err(e) => Reject(s, e)
      case Ok((p0, p1)) =>
        match s.phase
        case EvaluatorWaitMsg1(b0, b1, _, _) => EvaluatorInputs(env, s.(phase := EvaluatorWaitMsg1(b0, b1, p0, p1)))
        case EvaluatorWaitMsg2(b0, b1, i1, i2, _, _) =>
          EvaluatorI3(env, s.(phase := EvaluatorWaitMsg2(b0, b1, i1, i2, p0, p1)))
  }

  /** A slot that is taken refuses another message, whatever its kind. */
  function RouteBatch(p0: Option<BatchMsg>, p1: Option<BatchMsg>, m: Message)
    : Result<(Option<BatchMsg>, Option<BatchMsg>), ProtocolError>
  {
    if !m.body.BatchInput? then Err(InvalidMessage)
    else if m.from == 0 then if p0.Some? then Err(InconsistentMessage) else Ok((Some(m.body.batch), p1))
    else if m.from == 1 then if p1.Some? then Err(InconsistentMessage) else Ok((p0, Some(m.body.batch)))
    else Err(InvalidMessage)
  }

  function GarblerI3(env: Env, s: State, bytes: seq<Byte>): Handling
    requires s.phase.GarblerWaitEvalBits?
  {
    match DecodeBits(bytes, |s.phase.allIp|)
    case Err(e) => Reject(s, e)
    case Ok(recv) =>
      match s.ctx.yao
      case None => Reject(s, MissingMessage)
      case Some(Evaluator(_, _)) => Reject(s, InvalidMessage)
      case Some(Garbler(crs, key, prf, delta)) =>
        var (ds, end) := DrawPads(env.core, prf, |recv|);
        var msg := Msg2(CommitWith(env, crs), s.ctx.partyId, delta, ds, recv);
        var out := Message(s.ctx.partyId, 2, BatchInput(GarblerI3Commit(msg)));
        var t := s.(ctx := s.ctx.(yao := Some(Garbler(crs, key, end, delta))));
        match MakeInputs(s.phase.i1, s.phase.i2, PadShares(ds))
        case None => Failed(InvalidMessage, t.(phase := GarblerWaitEvalBits(s.phase.allIp, [], [])), [out])
        case Some(inputs) => GarbleOrHash(env, t, inputs, [out])
  }

  function EvaluatorInputs(env: Env, s: State): Handling
    requires s.phase.EvaluatorWaitMsg1?
  {
    var p := s.phase;
    if p.from0.Some? && p.from0.value.GarblerInputCommit? && p.from1.Some? && p.from1.value.GarblerInputCommit? then
      match s.ctx.yao
      case None => Reject(s, MissingMessage)
      case Some(yao) =>
        match ProcessMsg1(CommitWith(env, yao.commCrs), p.from0.value.msg1, p.from1.value.msg1, |p.bits0|)
        case Err(e) => Reject(s, e)
        case Ok((i1, i2)) => Consumed(s.(phase := EvaluatorWaitMsg2(p.bits0, p.bits1, i1, i2, None, None)), [])
    else Consumed(s, [])
  }

  function EvaluatorI3(env: Env, s: State): Handling
    requires s.phase.EvaluatorWaitMsg2?
  {
    var p := s.phase;
    if p.from0.Some? && p.from0.value.GarblerI3Commit? && p.from1.Some? && p.from1.value.GarblerI3Commit? then
      match s.ctx.yao
      case None => Reject(s, MissingMessage)
      case Some(yao) =>
        match ProcessMsg2(CommitWith(env, yao.commCrs), p.from0.value.msg2, p.from1.value.msg2, |p.bits0|, p.bits0, p.bits1)
        case Err(e) => Reject(s, e)
        case Ok(i3) =>
          match MakeInputs(p.i1, p.i2, i3)
          case None => Reject(s, InvalidMessage)
          case Some(inputs) => Consumed(s.(phase := CircuitEval(inputs, None, None)), [])
    else Consumed(s, [])
  }

  // ----- the circuit -----

  /** The garblers' start of the circuit phase: party 0 sends the hash of the tables, party 1 the
      tables. The source panics when the circuit does not fit; here that is an error. */
  function GarbleOrHash(env: Env, s: State, inputs: seq<seq<Block>>, outs: seq<Message>): Handling {
    match s.ctx.yao
    case None => Failed(MissingMessage, s, outs)
    case Some(Evaluator(_, _)) => Failed(InvalidMessage, s, outs)
    case Some(Garbler(crs, key, prf, delta)) =>
      if !env.circuit.WiresInRange() || !env.circuit.InputsFit(inputs) || env.circuit.outputGateIds == []
      then Failed(InvalidLength, s, outs)
      else
        var r := GarbleAll(env.circuit, inputs, delta, env.core, TccrWith(env, key), prf);
        var body := if s.ctx.partyId == 0 then HashOf(env.digest(r.f)) else GarbledTables(r.f);
        var labels := Pick(r.w, env.circuit.outputGateIds);
        Consumed(State(s.ctx.(yao := Some(Garbler(crs, key, r.prf, delta))), GarblerWaitLabel(labels[0], labels[1..])),
                 outs + [Message(s.ctx.partyId, 2, CircuitData(body))])
  }

  function HandleCircuit(env: Env, s: State, m: Message): Handling
    requires s.phase.CircuitEval?
  {
    if m.body.Verification? && m.from != s.ctx.partyId then NotReady
    else if !m.body.CircuitData? then Reject(s, InvalidMessage)
    else if m.from == 0 then
      var t := s.(phase := s.phase.(hashFrom0 := Some(m.body.circuit)));
      if s.phase.hashFrom0.Some? then Failed(InconsistentMessage, t, []) else TryEvaluate(env, t)
    else if m.from == 1 then
      var t := s.(phase := s.phase.(tablesFrom1 := Some(m.body.circuit)));
      if s.phase.tablesFrom1.Some? then Failed(InconsistentMessage, t, []) else TryEvaluate(env, t)
    else Reject(s, InvalidMessage)
  }

  /** Both slots are emptied before their contents are looked at. */
  function TryEvaluate(env: Env, s: State): Handling
    requires s.phase.CircuitEval?
  {
    var p := s.phase;
    if p.hashFrom0.None? || p.tablesFrom1.None? then Consumed(s, [])
    else if !p.hashFrom0.value.HashOf? then Failed(InvalidMessage, s.(phase := p.(hashFrom0 := None)), [])
    else
      var t := s.(phase := p.(hashFrom0 := None, tablesFrom1 := None));
      if !p.tablesFrom1.value.GarbledTables? then Reject(t, InvalidMessage)
      else if env.digest(p.tablesFrom1.value.tables) != p.hashFrom0.value.digest then Reject(t, InconsistentMessage)
      else
        match s.ctx.yao
        case None => Reject(t, MissingMessage)
        case Some(yao) =>
          match EvalAll(env.circuit, p.inputs, p.tablesFrom1.value.tables, TccrWith(env, yao.garbleKey))
          case Err(e) => Reject(t, e)
          case Ok(out) => StartVerification(env, t, out)
  }

  function StartVerification(env: Env, s: State, out: map<nat, Block>): Handling {
    var ids := env.circuit.outputGateIds;
    if ids == [] || exists i | 0 <= i < |ids| :: ids[i] !in out then Reject(s, InvalidLength)
    else
      var labels := seq(|ids|, i requires 0 <= i < |ids| => out[ids[i]]);
      Consumed(s.(phase := EvaluatorWaitBits(labels[1..], None, None)),
               [Message(2, 0, Verification(OneLabel(labels[0]))), Message(2, 1, Verification(OneLabel(labels[0])))])
  }

  // ----- outputs -----

  /** The bit of a label, if it is one of the wire's two. */
  function GarblerVerifyOne(f: Block, delta: Block, lbl: Block): Result<bool, ProtocolError> {
    if lbl != f && lbl != XorBlocks(f, delta) then Err(InvalidShare) else Ok(Lsb(lbl) != Lsb(f))
  }

  function GarblerVerifyMany(fs: seq<Block>, delta: Block, labels: seq<Block>): Result<seq<bool>, ProtocolError> {
    if |fs| != |labels| then Err(InvalidMessage)
    else if exists i | 0 <= i < |fs| :: GarblerVerifyOne(fs[i], delta, labels[i]).Err? then Err(InvalidShare)
    else Ok(seq(|fs|, i requires 0 <= i < |fs| => GarblerVerifyOne(fs[i], delta, labels[i]).value))
  }

  function HandleVerification(env: Env, s: State, m: Message): Handling
    requires s.phase.GarblerWaitLabel? || s.phase.EvaluatorWaitBits?
  {
    if m.body.BatchOutput? && m.from != s.ctx.partyId then NotReady
    else if s.phase.GarblerWaitLabel? then
      if m.from != 2 || !m.body.Verification? || !m.body.verify.OneLabel? then Reject(s, InvalidMessage)
      else
        match s.ctx.yao
        case Some(Garbler(_, _, _, delta)) =>
          (match GarblerVerifyOne(s.phase.verification, delta, m.body.verify.lbl)
           case Err(e) => Reject(s, e)
           case Ok(bit) =>
             var out := Message(s.ctx.partyId, 2, Verification(OneBit(bit)));
             if bit then Consumed(s.(phase := GarblerWaitLabels(s.phase.components)), [out])
             else Failed(VerificationError, s, [out]))
        case _ => Reject(s, InvalidShare)
    else if !m.body.Verification? then Reject(s, InvalidMessage)
    else if m.from == 0 then
      var t := s.(phase := s.phase.(bit0 := Some(m.body.verify)));
      if s.phase.bit0.Some? then Failed(InconsistentMessage, t, []) else TryVerify(t)
    else if m.from == 1 then
      var t := s.(phase := s.phase.(bit1 := Some(m.body.verify)));
      if s.phase.bit1.Some? then Failed(InconsistentMessage, t, []) else TryVerify(t)
    else Reject(s, InvalidMessage)
  }

  function TryVerify(s: State): Handling
    requires s.phase.EvaluatorWaitBits?
  {
    var p := s.phase;
    if p.bit0.None? || p.bit1.None? then Consumed(s, [])
    else if !p.bit0.value.OneBit? then Failed(InvalidMessage, s.(phase := p.(bit0 := None)), [])
    else
      var t := s.(phase := p.(bit0 := None, bit1 := None));
      if !p.bit1.value.OneBit? then Reject(t, InvalidMessage)
      else if p.bit0.value.bit != p.bit1.value.bit then Reject(t, InconsistentMessage)
      else if !p.bit0.value.bit then Reject(t, VerificationError)
      else
        var body := BatchOutput(ManyLabels(p.labels));
        Consumed(s.(phase := EvaluatorWaitOutputs(None, None)), [Message(2, 0, body), Message(2, 1, body)])
  }

  function HandleOutput(env: Env, s: State, m: Message): Handling
    requires s.phase.GarblerWaitLabels? || s.phase.EvaluatorWaitOutputs?
  {
    if s.phase.GarblerWaitLabels? then
      if m.from != 2 || !m.body.BatchOutput? || !m.body.output.ManyLabels? then Reject(s, InvalidMessage)
      else
        match s.ctx.yao
        case Some(Garbler(_, _, _, delta)) =>
          (match GarblerVerifyMany(s.phase.components, delta, m.body.output.labels)
           case Err(e) => Reject(s, e)
           case Ok(bits) => Decoded(env, s, s, bits, [Message(s.ctx.partyId, 2, BatchOutput(ManyBits(Pack(bits))))]))
        case _ => Reject(s, InvalidShare)
    else if !m.body.BatchOutput? then Reject(s, InvalidMessage)
    else if m.from == 0 then
      var t := s.(phase := s.phase.(bits0Msg := Some(m.body.output)));
      if s.phase.bits0Msg.Some? then Failed(InconsistentMessage, t, []) else TryOutput(env, t)
    else if m.from == 1 then
      var t := s.(phase := s.phase.(bits1Msg := Some(m.body.output)));
      if s.phase.bits1Msg.Some? then Failed(InconsistentMessage, t, []) else TryOutput(env, t)
    else Reject(s, InvalidMessage)
  }

  function TryOutput(env: Env, s: State): Handling
    requires s.phase.EvaluatorWaitOutputs?
  {
    var p := s.phase;
    if p.bits0Msg.None? || p.bits1Msg.None? then Consumed(s, [])
    else if !p.bits0Msg.value.ManyBits? then Failed(InvalidMessage, s.(phase := p.(bits0Msg := None)), [])
    else
      var t := s.(phase := EvaluatorWaitOutputs(None, None));
      if !p.bits1Msg.value.ManyBits? then Reject(t, InvalidMessage)
      else if p.bits0Msg.value.bytes != p.bits1Msg.value.bytes then Reject(t, InconsistentMessage)
      else
        match DecodeBits(p.bits0Msg.value.bytes, OUTPUT_BITS)
        case Err(e) => Reject(t, e)
        case Ok(bits) => Decoded(env, s, t, bits, [])
  }

  /** The decoding phase, entered and left within one message. */
  function Decoded(env: Env, s: State, left: State, bits: seq<bool>, outs: seq<Message>): Handling {
    if |bits| != OUTPUT_BITS then Failed(InvalidMessage, left, outs)
    else
      match env.decode(bits)
      case None => Failed(VerificationError, left, outs)
      case Some(keys) => Consumed(s.(phase := Done(keys)), outs)
  }

  // ----- dispatch -----

  function Handle(env: Env, s: State, m: Message): Handling
    requires env.q > 1
  {
    match s.phase
    case WaitCrs => HandleSetup(env, s, m)
    case WaitPrf(_) => HandleSetup(env, s, m)
    case WaitGarbleKey(_) => HandleSetup(env, s, m)
    case CommonRandomness(_, _) => HandleCommonRandomness(env, s, m)
    case ShamirToRssPhase(_, _, _, _, _) => HandleShamirToRss(env, s, m)
    case GarblerWaitEvalBits(_, _, _) => HandleBatchInput(env, s, m)
    case EvaluatorWaitMsg1(_, _, _, _) => HandleBatchInput(env, s, m)
    case EvaluatorWaitMsg2(_, _, _, _, _, _) => HandleBatchInput(env, s, m)
    case CircuitEval(_, _, _) => HandleCircuit(env, s, m)
    case GarblerWaitLabel(_, _) => HandleVerification(env, s, m)
    case EvaluatorWaitBits(_, _, _) => HandleVerification(env, s, m)
    case GarblerWaitLabels(_) => HandleOutput(env, s, m)
    case EvaluatorWaitOutputs(_, _) => HandleOutput(env, s, m)
    case Done(_) => Consumed(s, [])
    case Aborted(_) => Consumed(s, [])
  }
}
