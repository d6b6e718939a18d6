/** Three sessions over a network with an arbitrary scheduler: the real sessions follow the control
    machine, so whoever finishes holds the keys of the shared secret. */
module Agreement {
  import opened Wrappers
  import opened Replay
  import opened Phases
  import opened Sessions
  import opened Control
  import opened Schedule
  import opened Delivery
  import opened Ideal
  import opened Refinement

  lemma HandlerRefines(par: Params, p: nat, c: Ctl, id: Id)
    requires Honest(par) && Runnable(par) && Due(p, c, id)
    ensures Refines(par, p, c, id)
  {
    hide Refines, Honest, Runnable, Due;
    DueNotDone(p, c, id);
    match c {
      case CWaitCrs => RefinesWaitCrs(par, p, id);
      case CWaitPrf =>
        OnlyParty(p, c, id);
        RefinesWaitPrf(par, id);
      case CWaitKey =>
        OnlyParty(p, c, id);
        RefinesWaitKey(par, id);
      case CRing => RefinesRing(par, p, id);
      case CShamir(_, _) => RefinesShamir(par, p, c, id);
      case CEvalBits => RefinesEvalBits(par, p, id);
      case CMsg1(_, _) =>
        OnlyParty(p, c, id);
        RefinesMsg1(par, c, id);
      case CMsg2(_, _) =>
        OnlyParty(p, c, id);
        RefinesMsg2(par, c, id);
      case CCircuit(_, _) =>
        OnlyParty(p, c, id);
        RefinesCircuit(par, c, id);
      case CWaitLabel => RefinesWaitLabel(par, p, id);
      case CBits(_, _) =>
        OnlyParty(p, c, id);
        RefinesBits(par, c, id);
      case CWaitLabels =>
        OnlyLabelsDue(p, id);
        LabelsArrive(par, p);
      case COutputs(o0, o1) =>
        OnlyParty(p, c, id);
        OnlyBitsDue(o0, o1, id);
        RefinesOutputs(par, o0, o1, id.from);
    }
  }

  lemma OnlyParty(p: nat, c: Ctl, id: Id)
    requires Due(p, c, id)
    ensures c.CWaitPrf? ==> p == 1
    ensures c.CWaitKey? || c.CMsg1? || c.CMsg2? || c.CCircuit? || c.CBits? || c.COutputs? ==> p == 2
  {
  }

  // ----- one call -----

  lemma MapWithout(par: Params, ids: seq<Id>, k: nat)
    requires Runnable(par) && k < |ids|
    ensures MapAll(MessageOf(par), Without(ids, k)) == Without(MapAll(MessageOf(par), ids), k)
  {
    hide Runnable, MessageOf;
  }

  lemma MapConcat(par: Params, a: seq<Id>, b: seq<Id>)
    requires Runnable(par)
    ensures MapAll(MessageOf(par), a + b) == MapAll(MessageOf(par), a) + MapAll(MessageOf(par), b)
  {
    hide Runnable, MessageOf;
  }

  lemma MappedSending(par: Params, p: nat, outs: seq<Id>, d: Driven<Ctl, Id, ProtocolError>)
    requires Runnable(par) && p < 3
    ensures MappedDriven(StateOf(par, p), MessageOf(par), Sending(outs, d))
         == Sending(MapAll(MessageOf(par), outs), MappedDriven(StateOf(par, p), MessageOf(par), d))
  {
    hide Runnable, MessageOf, StateOf, MapAll;
    MapConcat(par, outs, d.outs);
  }

  lemma DoneIff(par: Params, p: nat, c: Ctl)
    requires Runnable(par) && p < 3
    ensures IsDone(IdealState(par, p, c)) <==> Ended(c) && KeysInClear(par).Some?
    ensures Ended(c) && KeysInClear(par).Some? ==> IdealState(par, p, c).phase == Done(KeysInClear(par).value)
  {
    hide Tables, Masks, Masked, Bits, SlotMsg, Wires1, Wires2, Word, KeysInClear, ActiveInputs, OutputFalse, OutputActive, OutputBits,
         Pack, Keys, Crs, IdealYao, FirstMsg, SecondMsg, RingKey;
  }

  lemma EndsDecoded(flags: Flags, p: nat, c: Ctl, id: Id)
    requires Due(p, c, id)
    ensures React(flags, p, c, id).Consumed? && Ended(React(flags, p, c, id).next) ==> flags.decode
  {
  }

  lemma {:induction false} SameFirstReady(par: Params, p: nat, c: Ctl, ids: seq<Id>, idx: nat)
    requires Honest(par) && Runnable(par) && p < 3 && Queue(p, c, ids) && idx <= |ids|
    ensures FirstReady(HandleWith(par.env), IdealState(par, p, c), MapAll(MessageOf(par), ids), idx)
         == FirstReady(ReactWith(FlagsOf(par), p), c, ids, idx)
    decreases |ids| - idx
  {
    hide Honest, Runnable, Queue, Handle, React, IdealState, IdealMessage, FlagsOf;
    if idx < |ids| {
      QueueDue(p, c, ids, idx);
      HandlerRefines(par, p, c, ids[idx]);
      SameFirstReady(par, p, c, ids, idx + 1);
    }
  }

  /** A call of the real session is a call of the control machine. */
  lemma {:induction false} DriveRefines(par: Params, p: nat, c: Ctl, ids: seq<Id>)
    requires Honest(par) && Runnable(par) && p < 3 && Possible(p, c) && !Ended(c) && Queue(p, c, ids)
    ensures Drive(HandleWith(par.env), IsDone, IdealState(par, p, c), MapAll(MessageOf(par), ids))
         == MappedDriven(StateOf(par, p), MessageOf(par), Drive(ReactWith(FlagsOf(par), p), Ended, c, ids))
    decreases |ids|
  {
    hide Honest, Runnable, Queue, Handle, React, IdealState, IdealMessage, FlagsOf, Possible, FirstReady, IsDone, MapAll;
    FlagDecode(par);
    var k := FirstReady(ReactWith(FlagsOf(par), p), c, ids, 0);
    SameFirstReady(par, p, c, ids, 0);
    if k == |ids| {
      MapNothing(par);
    } else {
      QueueDue(p, c, ids, k);
      HandlerRefines(par, p, c, ids[k]);
      MapWithout(par, ids, k);
      var h := React(FlagsOf(par), p, c, ids[k]);
      if h.Consumed? {
        DoneIff(par, p, h.next);
        EndsDecoded(FlagsOf(par), p, c, ids[k]);
        if !Ended(h.next) {
          QueueStep(FlagsOf(par), p, c, ids, k);
          DriveRefines(par, p, h.next, Without(ids, k));
          MappedSending(par, p, h.outs, Drive(ReactWith(FlagsOf(par), p), Ended, h.next, Without(ids, k)));
        }
      }
    }
  }

  lemma MapNothing(par: Params)
    requires Runnable(par)
    ensures MapAll(MessageOf(par), []) == []
  {
    hide Runnable, MessageOf;
  }

  lemma FlagDecode(par: Params)
    requires Honest(par)
    ensures Three(par) && FlagsOf(par).decode == KeysInClear(par).Some?
  {
  }

  // ----- the real system -----

  /** Three sessions, which of them have returned an error so far, and the messages in flight. */
  datatype World = World(sessions: seq<Snapshot>, failed: seq<bool>, inflight: seq<Message>)

  function StartWorld(par: Params): (w: World)
    requires Three(par)
    ensures |w.sessions| == |w.failed| == 3
  {
    var s0, s1, s2 := StartSetup(par.env, StartContext(par, 0)), StartSetup(par.env, StartContext(par, 1)),
                      StartSetup(par.env, StartContext(par, 2));
    World([Snapshot(s0.0, []), Snapshot(s1.0, []), Snapshot(s2.0, [])], [false, false, false], s0.1 + s1.1 + s2.1)
  }

  /** The scheduler hands message `k` of those in flight to its receiver, whether or not that session
      has returned an error before. */
  function Deliver(env: Env, w: World, k: nat): (r: World)
    requires env.q > 1 && |w.sessions| == |w.failed| == 3
    ensures |r.sessions| == |r.failed| == 3
  {
    if k >= |w.inflight| || w.inflight[k].to >= 3 then w
    else
      var m := w.inflight[k];
      var h := HandleAll(env, w.sessions[m.to], [m]);
      World(w.sessions[m.to := h.after], w.failed[m.to := w.failed[m.to] || h.result.Err?], Without(w.inflight, k) + h.outs)
  }

  function RunWorld(par: Params, schedule: seq<nat>): (w: World)
    requires Three(par)
    ensures |w.sessions| == |w.failed| == 3
  {
    if schedule == [] then StartWorld(par)
    else Deliver(par.env, RunWorld(par, schedule[..|schedule| - 1]), schedule[|schedule| - 1])
  }

  ghost function IdealSession(par: Params, p: nat, party: Party): Snapshot
    requires Runnable(par) && p < 3
  {
    Snapshot(IdealState(par, p, party.ctl), MapAll(MessageOf(par), party.pending))
  }

  /** The world that a control system stands for. */
  ghost function Concrete(par: Params, sys: Sys): World
    requires Runnable(par) && |sys.parties| == 3
  {
    World([IdealSession(par, 0, sys.parties[0]), IdealSession(par, 1, sys.parties[1]), IdealSession(par, 2, sys.parties[2])],
          [sys.parties[0].failed, sys.parties[1].failed, sys.parties[2].failed], MapAll(MessageOf(par), sys.inflight))
  }

  lemma StartIsIdeal(par: Params)
    requires Runnable(par)
    ensures StartWorld(par) == Concrete(par, Init())
  {
    hide Tables, Masks, Masked, Bits, SlotMsg, Wires1, Wires2, Word, KeysInClear, ActiveInputs, OutputFalse, OutputActive, OutputBits,
         Pack, Keys, FirstMsg, SecondMsg, RingKey;
    MapNone(par);
    MapTwo(par, Id(KCommCrs, 2, 0), Id(KCommCrs, 2, 1));
  }

  lemma MessageShape(par: Params, id: Id)
    requires Runnable(par) && Exists(id)
    ensures IdealMessage(par, id).to == id.to && IdealMessage(par, id).from == id.from && !IdealMessage(par, id).body.Abort?
  {
    hide Tables, Masks, Masked, Bits, SlotMsg, Wires1, Wires2, Word, KeysInClear, ActiveInputs, OutputFalse, OutputActive, OutputBits,
         Pack, Keys, FirstMsg, SecondMsg, RingKey, Crs, SharedSeed;
    ExistsBetween(id);
  }

  lemma ScreenOne(id: nat, m: Message)
    requires m.to == id && !m.body.Abort?
    ensures Screen(id, [m]) == Clear
  {
    assert [m][1..] == [];
  }

  lemma StateShape(par: Params, p: nat, c: Ctl)
    requires Runnable(par) && p < 3 && !Ended(c)
    ensures var s := IdealState(par, p, c); s.ctx.partyId == p && !s.phase.Done? && !s.phase.Aborted?
  {
    hide Tables, Masks, Masked, Bits, SlotMsg, Wires1, Wires2, Word, KeysInClear, ActiveInputs, OutputFalse, OutputActive, OutputBits,
         Pack, Keys, Crs, IdealYao, FirstMsg, SecondMsg, RingKey;
  }

  /** One call of one session. */
  lemma CallRefines(par: Params, sys: Sys, k: nat)
    requires Honest(par) && Runnable(par) && Inv(FlagsOf(par), sys) && k < |sys.inflight|
    ensures var id := sys.inflight[k];
            var (party, outs) := Receive(FlagsOf(par), id.to, sys.parties[id.to], id);
            var h := HandleAll(par.env, IdealSession(par, id.to, sys.parties[id.to]), [IdealMessage(par, id)]);
            h.after == IdealSession(par, id.to, party) && (sys.parties[id.to].failed || h.result.Err? <==> party.failed) && h.outs == MapAll(MessageOf(par), outs)
  {
    hide Honest, Runnable, Queue, Handle, React, IdealState, IdealMessage, FlagsOf, Possible, Drive, IsDone, MapAll, Resting, Exists, Due;
    FlagDecode(par);
    var id := sys.inflight[k];
    ExistsBetween(id);
    var p, party := id.to, sys.parties[id.to];
    Deliverable(FlagsOf(par), sys, k);
    assert Resting(FlagsOf(par), p, party);
    RestingPossible(FlagsOf(par), p, party);
    MessageShape(par, id);
    StateShape(par, p, party.ctl);
    ScreenOne(p, IdealMessage(par, id));
    var ids := party.pending + [id];
    MapConcat(par, party.pending, [id]);
    MapOne(par, id);
    DriveRefines(par, p, party.ctl, ids);
    MapNothing(par);
  }

  lemma DeliverRefines(par: Params, sys: Sys, k: nat)
    requires Honest(par) && Runnable(par) && Inv(FlagsOf(par), sys)
    ensures Deliver(par.env, Concrete(par, sys), k) == Concrete(par, Step(FlagsOf(par), sys, k))
  {
    hide Honest, Runnable, IdealSession, IdealMessage, FlagsOf, Receive, HandleAll, Resting, Balanced, Exists;
    FlagDecode(par);
    if k < |sys.inflight| {
      var id := sys.inflight[k];
      ExistsBetween(id);
      MessageShape(par, id);
      MapWithout(par, sys.inflight, k);
      CallRefines(par, sys, k);
      MapConcat(par, Without(sys.inflight, k), Receive(FlagsOf(par), id.to, sys.parties[id.to], id).1);
    }
  }

  /** Whatever the scheduler does, the real system is where the control system says. */
  lemma {:induction false} WorldRefines(par: Params, schedule: seq<nat>)
    requires Honest(par) && Runnable(par)
    ensures RunWorld(par, schedule) == Concrete(par, Run(FlagsOf(par), schedule))
  {
    hide Honest, Runnable, Deliver, Step, Inv, Concrete, FlagsOf;
    FlagDecode(par);
    if schedule == [] {
      StartIsIdeal(par);
    } else {
      var n := |schedule| - 1;
      WorldRefines(par, schedule[..n]);
      RunInv(FlagsOf(par), schedule[..n]);
      DeliverRefines(par, Run(FlagsOf(par), schedule[..n]), schedule[n]);
    }
  }

  // ----- the results -----

  predicate SessionDone(w: World, p: nat)
    requires |w.sessions| == 3 && p < 3
  {
    w.sessions[p].state.phase.Done?
  }

  predicate Finished(w: World)
    requires |w.sessions| == |w.failed| == 3
  {
    forall p | 0 <= p < 3 :: SessionDone(w, p) && !w.failed[p]
  }

  /** Agreement in every run: a session that is done holds the keys of the shared secret, so any two
      agree, whatever the seeds, labels and pad, whatever the order of deliveries, and even if
      sessions are called again after errors. */
  lemma DoneHoldsTheKeys(par: Params, schedule: seq<nat>, p: nat)
    requires Honest(par) && p < 3
    ensures var w := RunWorld(par, schedule);
            SessionDone(w, p) ==> KeysInClear(par) == Some(w.sessions[p].state.phase.keys)
  {
    hide Honest, Runnable, RunWorld, Run, FlagsOf, KeysInClear, IdealState;
    HonestRunnable(par);
    FlagDecode(par);
    WorldRefines(par, schedule);
    DoneIff(par, p, Run(FlagsOf(par), schedule).parties[p].ctl);
  }

  lemma FinishedIff(par: Params, schedule: seq<nat>)
    requires Honest(par) && Runnable(par)
    ensures var sys := Run(FlagsOf(par), schedule);
            Finished(RunWorld(par, schedule)) <==> NoFailure(sys) && AllDone(sys) && KeysInClear(par).Some?
    ensures |RunWorld(par, schedule).inflight| == |Run(FlagsOf(par), schedule).inflight|
    ensures forall p | 0 <= p < 3 :: RunWorld(par, schedule).failed[p] == Run(FlagsOf(par), schedule).parties[p].failed
  {
    hide Honest, Runnable, RunWorld, Run, FlagsOf, KeysInClear, IdealState;
    FlagDecode(par);
    WorldRefines(par, schedule);
    var sys := Run(FlagsOf(par), schedule);
    DoneIff(par, 0, sys.parties[0].ctl);
    DoneIff(par, 1, sys.parties[1].ctl);
    DoneIff(par, 2, sys.parties[2].ctl);
    var w := RunWorld(par, schedule);
    assert Finished(w) <==> SessionDone(w, 0) && SessionDone(w, 1) && SessionDone(w, 2) && !w.failed[0] && !w.failed[1] && !w.failed[2];
  }

  /** No stranded message: in a run without errors, once every sent message has been delivered all
      three sessions are done. */
  lemma AllDeliveredAllDone(par: Params, schedule: seq<nat>)
    requires Honest(par)
    ensures var w := RunWorld(par, schedule);
            (forall p | 0 <= p < 3 :: !w.failed[p]) && w.inflight == [] ==> Finished(w)
  {
    hide Honest, Runnable, RunWorld, Run, KeysInClear, FlagsOf, Finished;
    FlagDecode(par);
    HonestRunnable(par);
    FinishedIff(par, schedule);
    NoStrandedMessage(FlagsOf(par), schedule);
    DoneNeedsDecode(FlagsOf(par), schedule);
  }

  /** A control system in which a party is done had output bits that decode. */
  lemma {:induction false} DoneNeedsDecode(flags: Flags, schedule: seq<nat>)
    ensures var sys := Run(flags, schedule);
            forall p | 0 <= p < 3 :: Ended(sys.parties[p].ctl) ==> flags.decode
  {
    hide Inv, Receive;
    if schedule != [] {
      var n := |schedule| - 1;
      DoneNeedsDecode(flags, schedule[..n]);
      var sys := Run(flags, schedule[..n]);
      RunInv(flags, schedule[..n]);
      if schedule[n] < |sys.inflight| && sys.inflight[schedule[n]].to < 3 {
        CallNeedsDecode(flags, sys, schedule[n]);
      }
    }
  }

  lemma CallNeedsDecode(flags: Flags, sys: Sys, k: nat)
    requires Inv(flags, sys) && k < |sys.inflight| && sys.inflight[k].to < 3
    ensures var id := sys.inflight[k];
            Ended(Receive(flags, id.to, sys.parties[id.to], id).0.ctl) ==> Ended(sys.parties[id.to].ctl) || flags.decode
  {
    hide React, Queue, Possible, Exists, Due, Resting, Balanced, Drive;
    var id := sys.inflight[k];
    var party := sys.parties[id.to];
    Deliverable(flags, sys, k);
    assert Resting(flags, id.to, party);
    RestingPossible(flags, id.to, party);
    DriveNeedsDecode(flags, id.to, party.ctl, party.pending + [id]);
  }

  lemma {:induction false} DriveNeedsDecode(flags: Flags, p: nat, c: Ctl, ids: seq<Id>)
    requires p < 3 && Possible(p, c) && !Ended(c) && Queue(p, c, ids)
    ensures Ended(Drive(ReactWith(flags, p), Ended, c, ids).state) ==> flags.decode
    decreases |ids|
  {
    hide React, Queue, Possible, Exists, Due;
    var k := FirstReady(ReactWith(flags, p), c, ids, 0);
    if k < |ids| {
      QueueDue(p, c, ids, k);
      EndsDecoded(flags, p, c, ids[k]);
      FailsUnended(flags, p, c, ids[k]);
      if React(flags, p, c, ids[k]).Consumed? {
        QueueStep(flags, p, c, ids, k);
        if !Ended(React(flags, p, c, ids[k]).next) {
          DriveNeedsDecode(flags, p, React(flags, p, c, ids[k]).next, Without(ids, k));
        }
      }
    }
  }

  lemma FailsUnended(flags: Flags, p: nat, c: Ctl, id: Id)
    requires Due(p, c, id)
    ensures React(flags, p, c, id).Failed? ==> !Ended(React(flags, p, c, id).left)
  {
  }

  // ----- the order of deliveries -----

  predicate InSetup(phase: Phase) {
    phase.WaitCrs? || phase.WaitPrf? || phase.WaitGarbleKey?
  }

  predicate IsFirstInput(m: Message, g: nat) {
    m.from == g && m.to == 2 && m.body.BatchInput? && m.body.batch.GarblerInputCommit?
  }

  predicate IsSecondInput(m: Message) {
    m.body.BatchInput? && m.body.batch.GarblerI3Commit?
  }

  /** The message that step `j` of the schedule hands to a session, if there is one in flight. */
  function Handed(par: Params, schedule: seq<nat>, j: nat): Option<Message>
    requires Three(par) && j < |schedule|
  {
    var w := RunWorld(par, schedule[..j]);
    if schedule[j] < |w.inflight| then Some(w.inflight[schedule[j]]) else None
  }

  predicate GotFirstInput(par: Params, schedule: seq<nat>, g: nat)
    requires Three(par)
  {
    exists i | 0 <= i < |schedule| :: Handed(par, schedule, i).Some? && IsFirstInput(Handed(par, schedule, i).value, g)
  }

  /** Step `j` hands no padded share to a session that is still in its setup phase, and no second
      input message before both first ones. */
  predicate StepInOrder(par: Params, schedule: seq<nat>, j: nat)
    requires Three(par) && j < |schedule|
  {
    var m := Handed(par, schedule, j);
    m.Some? && m.value.to < 3 ==>
      (m.value.body.PaddedShare? ==> !InSetup(RunWorld(par, schedule[..j]).sessions[m.value.to].state.phase)) &&
      (IsSecondInput(m.value) ==> GotFirstInput(par, schedule[..j], 0) && GotFirstInput(par, schedule[..j], 1))
  }

  predicate KeepsOrder(par: Params, schedule: seq<nat>)
    requires Three(par)
  {
    forall j | 0 <= j < |schedule| :: StepInOrder(par, schedule, j)
  }

  lemma MessageKind(par: Params, id: Id, g: nat)
    requires Runnable(par) && Exists(id) && g < 2
    ensures var m := IdealMessage(par, id);
            m.to == id.to && (m.body.PaddedShare? <==> id.kind == KPadded) && (IsSecondInput(m) <==> id.kind == KI3Commit) &&
            (IsFirstInput(m, g) <==> id == Id(KInputCommit, g, 2))
  {
    hide Tables, Masks, Masked, Bits, SlotMsg, Wires1, Wires2, Word, KeysInClear, ActiveInputs, OutputFalse, OutputActive, OutputBits,
         Pack, Keys, FirstMsg, SecondMsg, RingKey, Crs, SharedSeed;
    ExistsBetween(id);
  }

  lemma SetupStage(par: Params, p: nat, c: Ctl)
    requires Runnable(par) && p < 3
    ensures InSetup(IdealState(par, p, c).phase) <==> Stage(c) == 0
  {
    hide Tables, Masks, Masked, Bits, SlotMsg, Wires1, Wires2, Word, KeysInClear, ActiveInputs, OutputFalse, OutputActive, OutputBits,
         Pack, Keys, Crs, IdealYao, FirstMsg, SecondMsg, RingKey;
  }

  /** The real message handed over is the ideal one of the control run. */
  lemma HandedIs(par: Params, schedule: seq<nat>, j: nat)
    requires Honest(par) && Runnable(par) && j < |schedule|
    ensures var id := HandedOver(FlagsOf(par), schedule, j);
            (id.Some? ==> Exists(id.value)) &&
            Handed(par, schedule, j) == if id.Some? then Some(IdealMessage(par, id.value)) else None
  {
    hide Honest, Runnable, RunWorld, Run, IdealMessage, FlagsOf, Exists;
    FlagDecode(par);
    WorldRefines(par, schedule[..j]);
    RunInv(FlagsOf(par), schedule[..j]);
  }

  lemma GotIs(par: Params, schedule: seq<nat>, g: nat)
    requires Honest(par) && Runnable(par) && g < 2
    ensures GotFirstInput(par, schedule, g) <==> Delivered(Run(FlagsOf(par), schedule), Id(KInputCommit, g, 2))
  {
    hide Honest, Runnable, Run, IdealMessage, FlagsOf, Handed, HandedOver, IsFirstInput, Delivered;
    FlagDecode(par);
    var first := Id(KInputCommit, g, 2);
    forall j | 0 <= j < |schedule|
      ensures Handed(par, schedule, j).Some? && IsFirstInput(Handed(par, schedule, j).value, g)
         <==> HandedOver(FlagsOf(par), schedule, j) == Some(first)
    {
      HandedIs(par, schedule, j);
      var id := HandedOver(FlagsOf(par), schedule, j);
      if id.Some? {
        MessageKind(par, id.value, g);
      }
    }
    DeliveredIff(FlagsOf(par), schedule, first);
  }

  lemma StepInOrderIs(par: Params, schedule: seq<nat>, j: nat)
    requires Honest(par) && Runnable(par) && j < |schedule|
    ensures StepInOrder(par, schedule, j) <==> GoodDelivery(Run(FlagsOf(par), schedule[..j]), schedule[j])
  {
    hide Honest, Runnable, RunWorld, Run, IdealMessage, IdealState, FlagsOf, GotFirstInput, Delivered, InSetup, IsSecondInput, Exists;
    FlagDecode(par);
    HandedIs(par, schedule, j);
    var id := HandedOver(FlagsOf(par), schedule, j);
    if id.Some? {
      ExistsBetween(id.value);
      MessageKind(par, id.value, 0);
      WorldRefines(par, schedule[..j]);
      SetupStage(par, id.value.to, Run(FlagsOf(par), schedule[..j]).parties[id.value.to].ctl);
      GotIs(par, schedule[..j], 0);
      GotIs(par, schedule[..j], 1);
    }
  }

  /** The order of the real deliveries is that of the control run. */
  lemma KeepsOrderIs(par: Params, schedule: seq<nat>)
    requires Honest(par) && Runnable(par)
    ensures KeepsOrder(par, schedule) <==> GoodSchedule(FlagsOf(par), schedule)
  {
    hide Honest, Runnable, Run, FlagsOf, StepInOrder, GoodDelivery;
    FlagDecode(par);
    forall j | 0 <= j < |schedule|
      ensures StepInOrder(par, schedule, j) <==> GoodDelivery(Run(FlagsOf(par), schedule[..j]), schedule[j])
    {
      StepInOrderIs(par, schedule, j);
    }
  }

  /** Barring equal ring keys, colliding commitments and bits that do not decode, the run finishes
      at all three parties exactly when no padded share reaches a session in its setup phase, the
      evaluator gets both first input messages before any second one, and everything is delivered. */
  lemma RunFinishesIff(par: Params, schedule: seq<nat>)
    requires Honest(par) && FlagsOf(par).AllGood()
    ensures Finished(RunWorld(par, schedule)) <==> KeepsOrder(par, schedule) && RunWorld(par, schedule).inflight == []
  {
    hide Honest, Runnable, RunWorld, Run, KeysInClear, FlagsOf, Finished, GoodSchedule, KeepsOrder;
    FlagDecode(par);
    HonestRunnable(par);
    FinishedIff(par, schedule);
    CompletesIff(FlagsOf(par), schedule);
    KeepsOrderIs(par, schedule);
  }

  /** In such an order no session ever returns an error. */
  lemma InOrderNoError(par: Params, schedule: seq<nat>, p: nat)
    requires Honest(par) && FlagsOf(par).AllGood() && KeepsOrder(par, schedule) && p < 3
    ensures !RunWorld(par, schedule).failed[p]
  {
    hide Honest, Runnable, RunWorld, Run, KeysInClear, FlagsOf, Finished, GoodSchedule, KeepsOrder;
    FlagDecode(par);
    HonestRunnable(par);
    FinishedIff(par, schedule);
    InOrderIff(FlagsOf(par), schedule);
    KeepsOrderIs(par, schedule);
  }

  /** And a run in order can always be finished in order: the two conditions never lead to a
      deadlock. */
  lemma InOrderCanFinish(par: Params, schedule: seq<nat>) returns (more: seq<nat>)
    requires Honest(par) && FlagsOf(par).AllGood() && KeepsOrder(par, schedule)
    ensures KeepsOrder(par, schedule + more) && Finished(RunWorld(par, schedule + more))
  {
    hide Honest, Runnable, RunWorld, Run, KeysInClear, FlagsOf, Finished, GoodSchedule, KeepsOrder;
    FlagDecode(par);
    HonestRunnable(par);
    KeepsOrderIs(par, schedule);
    more := CanFinish(FlagsOf(par), schedule);
    FinishedIff(par, schedule + more);
    KeepsOrderIs(par, schedule + more);
  }

  /** Each of the two conditions is needed: two runs in which the evaluator returns an error. */
  lemma OutOfOrderFails(par: Params)
    requires Honest(par) && FlagsOf(par).AllGood()
    ensures RunWorld(par, EARLY_SHARE).failed[2] && RunWorld(par, EARLY_SECOND).failed[2]
  {
    hide Honest, Runnable, RunWorld, Run, KeysInClear, FlagsOf, Finished;
    FlagDecode(par);
    HonestRunnable(par);
    FinishedIff(par, EARLY_SHARE);
    EarlyShareFails(FlagsOf(par));
    FinishedIff(par, EARLY_SECOND);
    EarlySecondFails(FlagsOf(par));
  }
}
