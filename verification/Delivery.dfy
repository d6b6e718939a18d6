/** Which delivery orders let the three sessions finish. */
module Delivery {
  import opened Wrappers
  import opened Replay
  import opened Control
  import opened Schedule

  // ----- no stranded message -----

  predicate NoFailure(sys: Sys)
    requires |sys.parties| == 3
  {
    !sys.parties[0].failed && !sys.parties[1].failed && !sys.parties[2].failed
  }

  predicate AllDone(sys: Sys)
    requires |sys.parties| == 3
  {
    Ended(sys.parties[0].ctl) && Ended(sys.parties[1].ctl) && Ended(sys.parties[2].ctl)
  }

  /** What has been sent is used, or its receiver asks to keep it. */
  predicate Kept(flags: Flags, from: Ctl, to: Ctl, i: Id) {
    Sent(from, i) ==> Used(to, i) || React(flags, i.to, to, i).NotReady?
  }

  /** That, for all messages but those of the kinds `late`. */
  ghost predicate AllKept(flags: Flags, c0: Ctl, c1: Ctl, c2: Ctl, late: set<Kind>) {
    forall i: Id | Exists(i) && i.kind !in late :: Kept(flags, if i.from == 0 then c0 else if i.from == 1 then c1 else c2,
                                     if i.to == 0 then c0 else if i.to == 1 then c1 else c2, i)
  }

  lemma PastSetup(flags: Flags, c0: Ctl, c1: Ctl, c2: Ctl, late: set<Kind>)
    requires Possible(0, c0) && Possible(1, c1) && Possible(2, c2) && AllKept(flags, c0, c1, c2, late) && late <= {KPadded, KI3Commit}
    ensures Stage(c0) >= 1 && Stage(c1) >= 1 && Stage(c2) >= 1
  {
    assert Kept(flags, c2, c0, Id(KCommCrs, 2, 0));
    assert Kept(flags, c2, c1, Id(KCommCrs, 2, 1));
    assert Kept(flags, c0, c1, Id(KPrfSeed, 0, 1));
    assert Kept(flags, c0, c2, Id(KGarbleKey, 0, 2));
  }

  lemma PastRing(flags: Flags, c0: Ctl, c1: Ctl, c2: Ctl, late: set<Kind>)
    requires Possible(0, c0) && Possible(1, c1) && Possible(2, c2) && AllKept(flags, c0, c1, c2, late) && late <= {KPadded, KI3Commit}
    requires Stage(c0) >= 1 && Stage(c1) >= 1 && Stage(c2) >= 1
    ensures Stage(c0) >= 2 && Stage(c1) >= 2 && Stage(c2) >= 2
  {
    assert Kept(flags, c0, c1, Id(KKeyNext, 0, 1));
    assert Kept(flags, c1, c2, Id(KKeyNext, 1, 2));
    assert Kept(flags, c2, c0, Id(KKeyNext, 2, 0));
  }

  lemma PastShamir(flags: Flags, c0: Ctl, c1: Ctl, c2: Ctl, late: set<Kind>)
    requires Possible(0, c0) && Possible(1, c1) && Possible(2, c2) && AllKept(flags, c0, c1, c2, late) && late <= {KI3Commit}
    requires Stage(c0) >= 2 && Stage(c1) >= 2 && Stage(c2) >= 2
    ensures Stage(c0) >= 3 && Stage(c1) >= 3 && Stage(c2) >= 3
  {
    assert Kept(flags, c1, c0, Id(KPadded, 1, 0)) && Kept(flags, c2, c0, Id(KPadded, 2, 0));
    assert Kept(flags, c0, c1, Id(KPadded, 0, 1)) && Kept(flags, c2, c1, Id(KPadded, 2, 1));
    assert Kept(flags, c0, c2, Id(KPadded, 0, 2)) && Kept(flags, c1, c2, Id(KPadded, 1, 2));
  }

  lemma GarblersPastInputs(flags: Flags, c0: Ctl, c1: Ctl, c2: Ctl, late: set<Kind>)
    requires Possible(0, c0) && Possible(1, c1) && Possible(2, c2) && AllKept(flags, c0, c1, c2, late) && late <= {KI3Commit}
    requires Stage(c0) >= 3 && Stage(c1) >= 3 && Stage(c2) >= 3
    ensures Stage(c0) >= 5 && Stage(c1) >= 5
  {
    assert Kept(flags, c2, c0, Id(KEvalBits, 2, 0)) && Kept(flags, c2, c1, Id(KEvalBits, 2, 1));
  }

  lemma EvaluatorPastFirst(flags: Flags, c0: Ctl, c1: Ctl, c2: Ctl, late: set<Kind>)
    requires Possible(2, c2) && !Stuck(c2) && AllKept(flags, c0, c1, c2, late) && late <= {KI3Commit} && Stage(c0) >= 3 && Stage(c1) >= 3
    ensures !c2.CMsg1?
  {
    assert Kept(flags, c0, c2, Id(KInputCommit, 0, 2)) && Kept(flags, c1, c2, Id(KInputCommit, 1, 2));
  }

  lemma EvaluatorPastInputs(flags: Flags, c0: Ctl, c1: Ctl, c2: Ctl)
    requires Possible(2, c2) && AllKept(flags, c0, c1, c2, {})
    requires Stage(c0) >= 5 && Stage(c1) >= 5 && Stage(c2) >= 3 && !c2.CMsg1?
    ensures Stage(c2) >= 5
  {
    assert Kept(flags, c0, c2, Id(KI3Commit, 0, 2)) && Kept(flags, c1, c2, Id(KI3Commit, 1, 2));
    assert Kept(flags, c0, c2, Id(KHash, 0, 2)) && Kept(flags, c1, c2, Id(KTables, 1, 2));
  }

  lemma PastVerification(flags: Flags, c0: Ctl, c1: Ctl, c2: Ctl)
    requires Possible(0, c0) && Possible(1, c1) && Possible(2, c2) && AllKept(flags, c0, c1, c2, {})
    requires Stage(c0) >= 5 && Stage(c1) >= 5 && Stage(c2) >= 5
    ensures Stage(c0) >= 6 && Stage(c1) >= 6 && Stage(c2) >= 6
  {
    assert Kept(flags, c2, c0, Id(KLabel, 2, 0)) && Kept(flags, c2, c1, Id(KLabel, 2, 1));
    assert Kept(flags, c0, c2, Id(KBit, 0, 2)) && Kept(flags, c1, c2, Id(KBit, 1, 2));
  }

  lemma PastOutputs(flags: Flags, c0: Ctl, c1: Ctl, c2: Ctl)
    requires Possible(0, c0) && Possible(1, c1) && Possible(2, c2) && AllKept(flags, c0, c1, c2, {})
    requires Stage(c0) >= 6 && Stage(c1) >= 6 && Stage(c2) >= 6 && !Stuck(c0) && !Stuck(c1) && !Stuck(c2)
    ensures Ended(c0) && Ended(c1) && Ended(c2)
  {
    assert Kept(flags, c2, c0, Id(KLabels, 2, 0)) && Kept(flags, c2, c1, Id(KLabels, 2, 1));
    assert Kept(flags, c0, c2, Id(KBits, 0, 2)) && Kept(flags, c1, c2, Id(KBits, 1, 2));
  }

  lemma DeliveredIsKept(flags: Flags, sys: Sys, i: Id)
    requires Inv(flags, sys) && NoFailure(sys) && Count(sys.inflight, i) == 0 && Exists(i) && i.from < 3 && i.to < 3
    ensures Kept(flags, sys.parties[i.from].ctl, sys.parties[i.to].ctl, i)
  {
    hide React, Used, Sent, Possible, Exists, Queue;
    assert Balanced(sys, i) && Resting(flags, i.to, sys.parties[i.to]);
    CountIn(sys.parties[i.to].pending, i);
  }

  /** In a run without errors, once every sent message has been delivered all sessions are done. */
  lemma NoStrandedMessage(flags: Flags, schedule: seq<nat>)
    ensures var sys := Run(flags, schedule); NoFailure(sys) && sys.inflight == [] ==> AllDone(sys)
  {
    hide React, Used, Sent, Possible, Exists, Run, Kept;
    var sys := Run(flags, schedule);
    RunInv(flags, schedule);
    if NoFailure(sys) && sys.inflight == [] {
      var c0, c1, c2 := sys.parties[0].ctl, sys.parties[1].ctl, sys.parties[2].ctl;
      forall i: Id | Exists(i)
        ensures Kept(flags, if i.from == 0 then c0 else if i.from == 1 then c1 else c2,
                     if i.to == 0 then c0 else if i.to == 1 then c1 else c2, i)
      {
        ExistsBetween(i);
        CountIn(sys.inflight, i);
        DeliveredIsKept(flags, sys, i);
      }
      assert Resting(flags, 0, sys.parties[0]) && Resting(flags, 1, sys.parties[1]) && Resting(flags, 2, sys.parties[2]);
      PastSetup(flags, c0, c1, c2, {});
      PastRing(flags, c0, c1, c2, {});
      PastShamir(flags, c0, c1, c2, {});
      GarblersPastInputs(flags, c0, c1, c2, {});
      EvaluatorPastFirst(flags, c0, c1, c2, {});
      EvaluatorPastInputs(flags, c0, c1, c2);
      PastVerification(flags, c0, c1, c2);
      PastOutputs(flags, c0, c1, c2);
    }
  }

  // ----- which deliveries are safe -----

  /** Whatever a party has used has been sent. */
  predicate CausalAt(from: Ctl, to: Ctl, i: Id) {
    Used(to, i) ==> Sent(from, i)
  }

  ghost predicate Causal(cs: seq<Ctl>) {
    |cs| == 3 && Possible(0, cs[0]) && Possible(1, cs[1]) && Possible(2, cs[2]) &&
    forall i: Id | Exists(i) && i.from < 3 && i.to < 3 :: CausalAt(cs[i.from], cs[i.to], i)
  }

  /** No second commitment sits in a slot for the first ones. */
  predicate Clean(c: Ctl) {
    c.CMsg1? ==> c.s0 != HasI3 && c.s1 != HasI3
  }

  /** The message does not come too early: no padded share during setup, no second commitment while
      first ones are awaited. */
  predicate InOrder(c: Ctl, id: Id) {
    (id.kind == KPadded ==> Stage(c) >= 1) && (id.kind == KI3Commit ==> !c.CMsg1?)
  }

  /** Chains of causes, by kind of message, from a party that has sent to its receiver. */
  lemma SafeSetup(flags: Flags, cs: seq<Ctl>, id: Id)
    requires Causal(cs) && Exists(id) && id.from < 3 && id.to < 3 && Due(id.to, cs[id.to], id) && flags.AllGood()
    requires Sent(cs[id.from], id) && InOrder(cs[id.to], id)
    requires id.kind == KCommCrs || id.kind == KPrfSeed || id.kind == KGarbleKey || id.kind == KKeyNext || id.kind == KPadded
    ensures !React(flags, id.to, cs[id.to], id).Failed?
  {
    assert CausalAt(cs[0], cs[2], Id(KGarbleKey, 0, 2));
  }

  lemma SafeInputs(flags: Flags, cs: seq<Ctl>, id: Id)
    requires Causal(cs) && Exists(id) && id.from < 3 && id.to < 3 && Due(id.to, cs[id.to], id) && flags.AllGood()
    requires Sent(cs[id.from], id) && InOrder(cs[id.to], id) && Clean(cs[2]) && IsBatch(id.kind)
    ensures !React(flags, id.to, cs[id.to], id).Failed?
  {
    assert CausalAt(cs[0], cs[2], Id(KPadded, 0, 2)) && CausalAt(cs[1], cs[2], Id(KPadded, 1, 2));
    assert CausalAt(cs[2], cs[0], Id(KPadded, 2, 0)) && CausalAt(cs[2], cs[1], Id(KPadded, 2, 1));
    assert CausalAt(cs[2], cs[0], Id(KEvalBits, 2, 0)) && CausalAt(cs[2], cs[1], Id(KEvalBits, 2, 1));
  }

  lemma SafeCircuit(flags: Flags, cs: seq<Ctl>, id: Id)
    requires Causal(cs) && Exists(id) && id.from < 3 && id.to < 3 && Due(id.to, cs[id.to], id)
    requires Sent(cs[id.from], id) && IsCircuit(id.kind)
    ensures !React(flags, id.to, cs[id.to], id).Failed?
  {
    assert CausalAt(cs[2], cs[0], Id(KEvalBits, 2, 0)) && CausalAt(cs[2], cs[1], Id(KEvalBits, 2, 1));
  }

  lemma SafeVerification(flags: Flags, cs: seq<Ctl>, id: Id)
    requires Causal(cs) && Exists(id) && id.from < 3 && id.to < 3 && Due(id.to, cs[id.to], id)
    requires Sent(cs[id.from], id) && IsVerification(id.kind)
    ensures !React(flags, id.to, cs[id.to], id).Failed?
  {
    assert CausalAt(cs[0], cs[2], Id(KInputCommit, 0, 2)) && CausalAt(cs[1], cs[2], Id(KInputCommit, 1, 2));
    assert CausalAt(cs[2], cs[0], Id(KLabel, 2, 0)) && CausalAt(cs[2], cs[1], Id(KLabel, 2, 1));
  }

  lemma SafeOutput(flags: Flags, cs: seq<Ctl>, id: Id)
    requires Causal(cs) && Exists(id) && id.from < 3 && id.to < 3 && Due(id.to, cs[id.to], id) && flags.AllGood()
    requires Sent(cs[id.from], id) && IsOutput(id.kind)
    ensures !React(flags, id.to, cs[id.to], id).Failed?
  {
    assert CausalAt(cs[0], cs[2], Id(KBit, 0, 2)) && CausalAt(cs[1], cs[2], Id(KBit, 1, 2));
    assert CausalAt(cs[2], cs[0], Id(KLabels, 2, 0)) && CausalAt(cs[2], cs[1], Id(KLabels, 2, 1));
  }

  lemma SafeReaction(flags: Flags, cs: seq<Ctl>, id: Id)
    requires Causal(cs) && Exists(id) && id.from < 3 && id.to < 3 && Due(id.to, cs[id.to], id) && flags.AllGood()
    requires Sent(cs[id.from], id) && InOrder(cs[id.to], id) && Clean(cs[2])
    ensures !React(flags, id.to, cs[id.to], id).Failed?
  {
    hide React, Causal, Sent, Due, Exists;
    if IsBatch(id.kind) {
      SafeInputs(flags, cs, id);
    } else if IsCircuit(id.kind) {
      SafeCircuit(flags, cs, id);
    } else if IsVerification(id.kind) {
      SafeVerification(flags, cs, id);
    } else if IsOutput(id.kind) {
      SafeOutput(flags, cs, id);
    } else {
      SafeSetup(flags, cs, id);
    }
  }

  predicate Advances(flags: Flags, p: nat, c: Ctl, id: Id) {
    var h := React(flags, p, c, id);
    h.Consumed? ==> Stage(h.next) >= Stage(c) && (h.next.CMsg1? ==> c.CMsg1? || c.CShamir?)
  }

  lemma AdvancesEarly(flags: Flags, p: nat, c: Ctl, id: Id)
    requires Due(p, c, id) && Stage(c) <= 2
    ensures Advances(flags, p, c, id)
  {
  }

  lemma AdvancesMiddle(flags: Flags, p: nat, c: Ctl, id: Id)
    requires Due(p, c, id) && 3 <= Stage(c) <= 4
    ensures Advances(flags, p, c, id)
  {
  }

  lemma AdvancesLate(flags: Flags, p: nat, c: Ctl, id: Id)
    requires Due(p, c, id) && 5 <= Stage(c)
    ensures Advances(flags, p, c, id)
  {
  }

  lemma ReactAdvances(flags: Flags, p: nat, c: Ctl, id: Id)
    requires Due(p, c, id)
    ensures Advances(flags, p, c, id)
  {
    hide Due, Advances;
    if Stage(c) <= 2 {
      AdvancesEarly(flags, p, c, id);
    } else if Stage(c) <= 4 {
      AdvancesMiddle(flags, p, c, id);
    } else {
      AdvancesLate(flags, p, c, id);
    }
  }

  /** A misplaced second commitment comes from a delivery out of order, and never goes away. */
  predicate KeepsSlots(flags: Flags, p: nat, c: Ctl, id: Id) {
    var h := React(flags, p, c, id);
    h.Consumed? ==> (Clean(c) && InOrder(c, id) ==> Clean(h.next)) && (!Clean(c) ==> !Clean(h.next))
  }

  lemma ReactKeepsSlots(flags: Flags, p: nat, c: Ctl, id: Id)
    requires Due(p, c, id)
    ensures KeepsSlots(flags, p, c, id)
  {
  }

  /** A queue that is safe for party `p`: sent, due and in order. */
  predicate Timely(cs: seq<Ctl>, p: nat, ids: seq<Id>)
    requires |cs| == 3 && p < 3
  {
    forall k | 0 <= k < |ids| :: Exists(ids[k]) && ids[k].from < 3 && ids[k].to == p && Sent(cs[ids[k].from], ids[k]) && InOrder(cs[p], ids[k])
  }

  lemma CausalStep(flags: Flags, cs: seq<Ctl>, p: nat, id: Id)
    requires Causal(cs) && p < 3 && Due(p, cs[p], id) && id.from < 3 && Sent(cs[id.from], id) && React(flags, p, cs[p], id).Consumed?
    ensures Causal(cs[p := React(flags, p, cs[p], id).next])
  {
    hide React, Used, Sent, Possible, Exists;
    var next := React(flags, p, cs[p], id).next;
    var cs' := cs[p := next];
    ReactPossible(flags, p, cs[p], id);
    forall i: Id | Exists(i) && i.from < 3 && i.to < 3
      ensures CausalAt(cs'[i.from], cs'[i.to], i)
    {
      ExistsBetween(i);
      assert CausalAt(cs[i.from], cs[i.to], i);
      ReactFacts(flags, p, cs[p], id, i);
    }
  }

  lemma SecondAfterFirst(cs: seq<Ctl>, i: Id)
    requires Causal(cs) && Exists(i) && i.kind == KI3Commit && i.from < 2 && i.to == 2 && Sent(cs[i.from], i)
    ensures Stage(cs[2]) >= 3
  {
    assert CausalAt(cs[2], cs[i.from], Id(KEvalBits, 2, i.from));
  }

  lemma TimelyStep(flags: Flags, cs: seq<Ctl>, p: nat, ids: seq<Id>, k: nat)
    requires Causal(cs) && p < 3 && Timely(cs, p, ids) && k < |ids| && Due(p, cs[p], ids[k])
    requires React(flags, p, cs[p], ids[k]).Consumed?
    ensures Timely(cs[p := React(flags, p, cs[p], ids[k]).next], p, Without(ids, k))
  {
    hide React, Used, Sent, Possible, Exists;
    var next := React(flags, p, cs[p], ids[k]).next;
    var rest, cs' := Without(ids, k), cs[p := next];
    ReactAdvances(flags, p, cs[p], ids[k]);
    forall j | 0 <= j < |rest|
      ensures Exists(rest[j]) && rest[j].from < 3 && rest[j].to == p && Sent(cs'[rest[j].from], rest[j]) && InOrder(next, rest[j])
    {
      var id := rest[j];
      assert id == ids[if j < k then j else j + 1];
      ExistsBetween(id);
      if id.kind == KI3Commit {
        KindI3(id);
        SecondAfterFirst(cs, id);
      }
    }
  }

  lemma KindI3(id: Id)
    requires Exists(id) && id.kind == KI3Commit
    ensures id.from < 2 && id.to == 2
  {
  }

  lemma {:induction false} DriveSafe(flags: Flags, cs: seq<Ctl>, p: nat, ids: seq<Id>)
    requires |cs| == 3 && Causal(cs) && p < 3 && !Ended(cs[p]) && Queue(p, cs[p], ids) && Timely(cs, p, ids) && Clean(cs[2]) && flags.AllGood()
    ensures var d := Drive(ReactWith(flags, p), Ended, cs[p], ids);
            !d.Broken? && (p == 2 ==> Clean(d.state))
    decreases |ids|
  {
    hide React, Used, Sent, Possible, Exists, Queue, Due, Causal, Timely, InOrder;
    var c := cs[p];
    var k := FirstReady(ReactWith(flags, p), c, ids, 0);
    if k < |ids| {
      QueueDue(p, c, ids, k);
      TimelyAt(cs, p, ids, k);
      SafeReaction(flags, cs, ids[k]);
      CausalPossible(cs, p);
      var h := React(flags, p, c, ids[k]);
      var next := h.next;
      QueueStep(flags, p, c, ids, k);
      CausalStep(flags, cs, p, ids[k]);
      TimelyStep(flags, cs, p, ids, k);
      ReactKeepsSlots(flags, p, c, ids[k]);
      if !Ended(next) {
        DriveSafe(flags, cs[p := next], p, Without(ids, k));
      }
    }
  }

  lemma TimelyAt(cs: seq<Ctl>, p: nat, ids: seq<Id>, k: nat)
    requires |cs| == 3 && p < 3 && Timely(cs, p, ids) && k < |ids|
    ensures Exists(ids[k]) && ids[k].from < 3 && ids[k].to == p && Sent(cs[ids[k].from], ids[k]) && InOrder(cs[p], ids[k])
  {
  }

  lemma CausalPossible(cs: seq<Ctl>, p: nat)
    requires Causal(cs) && p < 3
    ensures Possible(p, cs[p])
  {
  }

  // ----- one delivery -----

  function Ctls(sys: Sys): seq<Ctl>
    requires |sys.parties| == 3
  {
    [sys.parties[0].ctl, sys.parties[1].ctl, sys.parties[2].ctl]
  }

  /** Message `i` has been sent and is no longer in flight. */
  predicate Delivered(sys: Sys, i: Id)
    requires |sys.parties| == 3 && i.from < 3
  {
    Sent(sys.parties[i.from].ctl, i) && Count(sys.inflight, i) == 0
  }

  /** The two conditions on the scheduler: no padded share reaches a session that is still in its
      setup phase, and the evaluator gets both first input messages before any second one. */
  predicate GoodDelivery(sys: Sys, k: nat)
    requires |sys.parties| == 3
  {
    k < |sys.inflight| && sys.inflight[k].to < 3 ==>
      var id := sys.inflight[k];
      (id.kind == KPadded ==> Stage(sys.parties[id.to].ctl) >= 1) &&
      (id.kind == KI3Commit ==> Delivered(sys, Id(KInputCommit, 0, 2)) && Delivered(sys, Id(KInputCommit, 1, 2)))
  }

  lemma SysCausal(flags: Flags, sys: Sys)
    requires Inv(flags, sys) && NoFailure(sys)
    ensures Causal(Ctls(sys))
  {
    hide React, Used, Sent, Possible, Exists, Count, Queue;
    var cs := Ctls(sys);
    assert Resting(flags, 0, sys.parties[0]) && Resting(flags, 1, sys.parties[1]) && Resting(flags, 2, sys.parties[2]);
    forall i: Id | Exists(i) && i.from < 3 && i.to < 3
      ensures CausalAt(cs[i.from], cs[i.to], i)
    {
      assert Balanced(sys, i);
    }
  }

  /** A first input message that has been delivered is used once the evaluator has sent its bits. */
  lemma DeliveredInputUsed(flags: Flags, sys: Sys, g: nat)
    requires Inv(flags, sys) && NoFailure(sys) && g < 2 && Stage(sys.parties[2].ctl) >= 3
    requires Delivered(sys, Id(KInputCommit, g, 2))
    ensures Used(sys.parties[2].ctl, Id(KInputCommit, g, 2))
  {
    hide Queue, Count, Sent;
    var i := Id(KInputCommit, g, 2);
    assert Balanced(sys, i) && Resting(flags, 2, sys.parties[2]);
    CountIn(sys.parties[2].pending, i);
  }

  lemma UsedInputDelivered(flags: Flags, sys: Sys, g: nat)
    requires Inv(flags, sys) && NoFailure(sys) && g < 2 && Used(sys.parties[2].ctl, Id(KInputCommit, g, 2))
    ensures Delivered(sys, Id(KInputCommit, g, 2))
  {
    hide Queue, Count, Sent, Used, Resting;
    assert Balanced(sys, Id(KInputCommit, g, 2));
  }

  lemma PendingSent(flags: Flags, sys: Sys, p: nat, j: nat)
    requires Inv(flags, sys) && NoFailure(sys) && p < 3 && j < |sys.parties[p].pending|
    ensures var id := sys.parties[p].pending[j];
            Exists(id) && id.from < 3 && id.to == p && Sent(sys.parties[id.from].ctl, id) && InOrder(sys.parties[p].ctl, id)
  {
    hide Count, Sent, Used, Exists;
    var id := sys.parties[p].pending[j];
    assert Resting(flags, p, sys.parties[p]);
    assert Due(p, sys.parties[p].ctl, id);
    ExistsBetween(id);
    assert Balanced(sys, id);
    CountIn(sys.parties[p].pending, id);
    assert React(flags, p, sys.parties[p].ctl, id).NotReady?;
  }

  lemma FlightSent(flags: Flags, sys: Sys, k: nat)
    requires Inv(flags, sys) && NoFailure(sys) && k < |sys.inflight|
    ensures var id := sys.inflight[k]; Exists(id) && id.from < 3 && id.to < 3 && Sent(sys.parties[id.from].ctl, id)
  {
    hide Count, Sent, Used, Exists, Resting;
    var id := sys.inflight[k];
    ExistsBetween(id);
    assert Balanced(sys, id);
    CountIn(sys.inflight, id);
  }

  lemma GoodIsInOrder(flags: Flags, sys: Sys, k: nat)
    requires Inv(flags, sys) && NoFailure(sys) && k < |sys.inflight| && GoodDelivery(sys, k)
    ensures var id := sys.inflight[k]; id.to < 3 && InOrder(sys.parties[id.to].ctl, id)
  {
    hide React, Count, Queue;
    var id := sys.inflight[k];
    FlightSent(flags, sys, k);
    if id.kind == KI3Commit {
      SysCausal(flags, sys);
      SecondAfterFirst(Ctls(sys), id);
      DeliveredInputUsed(flags, sys, 0);
      DeliveredInputUsed(flags, sys, 1);
      assert Resting(flags, 2, sys.parties[2]);
    }
  }

  /** A delivery in order causes no error. */
  lemma GoodStep(flags: Flags, sys: Sys, k: nat)
    requires Inv(flags, sys) && NoFailure(sys) && Clean(sys.parties[2].ctl) && flags.AllGood() && GoodDelivery(sys, k)
    ensures NoFailure(Step(flags, sys, k)) && Clean(Step(flags, sys, k).parties[2].ctl)
  {
    hide React, Count, Queue, Sent, Used, Possible, Exists, Causal, InOrder, GoodDelivery, Balanced, Resting, Due, Clean;
    if k < |sys.inflight| && sys.inflight[k].to < 3 {
      var id := sys.inflight[k];
      var p := id.to;
      var party, cs := sys.parties[p], Ctls(sys);
      SysCausal(flags, sys);
      GoodIsInOrder(flags, sys, k);
      FlightSent(flags, sys, k);
      Deliverable(flags, sys, k);
      var ids := party.pending + [id];
      forall j | 0 <= j < |ids|
        ensures Exists(ids[j]) && ids[j].from < 3 && ids[j].to == p && Sent(cs[ids[j].from], ids[j]) && InOrder(cs[p], ids[j])
      {
        if j < |party.pending| {
          PendingSent(flags, sys, p, j);
        }
      }
      DriveSafe(flags, cs, p, ids);
    }
  }

  // ----- what a delivery out of order does -----

  /** An error, or a second commitment in a slot for the first ones: the run cannot finish. */
  predicate Doomed(sys: Sys)
    requires |sys.parties| == 3
  {
    !NoFailure(sys) || !Clean(sys.parties[2].ctl)
  }

  lemma {:induction false} DriveStaysDoomed(flags: Flags, p: nat, c: Ctl, ids: seq<Id>)
    requires p < 3 && Possible(p, c) && !Clean(c) && Queue(p, c, ids)
    ensures var d := Drive(ReactWith(flags, p), Ended, c, ids); !d.Finished? && (d.Settled? ==> !Clean(d.state))
    decreases |ids|
  {
    hide React, Used, Sent, Possible, Exists, Queue, Due;
    var k := FirstReady(ReactWith(flags, p), c, ids, 0);
    if k < |ids| && React(flags, p, c, ids[k]).Consumed? {
      QueueDue(p, c, ids, k);
      ReactKeepsSlots(flags, p, c, ids[k]);
      QueueStep(flags, p, c, ids, k);
      DriveStaysDoomed(flags, p, React(flags, p, c, ids[k]).next, Without(ids, k));
    }
  }

  lemma DoomedStays(flags: Flags, sys: Sys, k: nat)
    requires Inv(flags, sys) && Doomed(sys)
    ensures Doomed(Step(flags, sys, k))
  {
    hide React, Count, Queue, Sent, Used, Possible, Exists, Balanced, Due, Clean, Resting;
    if k < |sys.inflight| && sys.inflight[k].to < 3 {
      var id := sys.inflight[k];
      if id.to == 2 && !sys.parties[2].failed && !Clean(sys.parties[2].ctl) {
        Deliverable(flags, sys, k);
        assert Resting(flags, 2, sys.parties[2]);
        RestingPossible(flags, 2, sys.parties[2]);
        DriveStaysDoomed(flags, 2, sys.parties[2].ctl, sys.parties[2].pending + [id]);
      }
    }
  }

  /** The new message is the first one the party reacts to. */
  lemma {:induction false} LastIsFirstReady(flags: Flags, p: nat, c: Ctl, pending: seq<Id>, id: Id, idx: nat)
    requires (forall k | 0 <= k < |pending| :: React(flags, p, c, pending[k]).NotReady?) && !React(flags, p, c, id).NotReady?
    requires idx <= |pending|
    ensures FirstReady(ReactWith(flags, p), c, pending + [id], idx) == |pending|
    decreases |pending| - idx
  {
    hide React;
    if idx < |pending| {
      assert (pending + [id])[idx] == pending[idx];
      LastIsFirstReady(flags, p, c, pending, id, idx + 1);
    }
  }

  lemma EarlyShareRefused(flags: Flags, p: nat, c: Ctl, id: Id)
    requires Due(p, c, id) && id.kind == KPadded && Stage(c) == 0
    ensures React(flags, p, c, id).Failed?
  {
  }

  lemma EarlySecondMisplaced(flags: Flags, c: Ctl, id: Id)
    requires Due(2, c, id) && id.kind == KI3Commit && c.CMsg1?
    ensures var h := React(flags, 2, c, id); h.Failed? || (h.Consumed? && !Clean(h.next))
  {
  }

  lemma DriveFirst(flags: Flags, p: nat, c: Ctl, pending: seq<Id>, id: Id)
    requires p < 3 && Possible(p, c) && Queue(p, c, pending + [id])
    requires forall k | 0 <= k < |pending| :: React(flags, p, c, pending[k]).NotReady?
    requires var h := React(flags, p, c, id); h.Failed? || (h.Consumed? && !Clean(h.next))
    ensures var d := Drive(ReactWith(flags, p), Ended, c, pending + [id]);
            !d.Finished? && (d.Settled? ==> !Clean(d.state))
  {
    hide React, Used, Sent, Possible, Exists, Queue, Due;
    LastIsFirstReady(flags, p, c, pending, id, 0);
    var ids := pending + [id];
    assert ids[|pending|] == id;
    if React(flags, p, c, id).Consumed? {
      QueueStep(flags, p, c, ids, |pending|);
      DriveStaysDoomed(flags, p, React(flags, p, c, id).next, Without(ids, |pending|));
    }
  }

  /** Whatever the scheduler delivers out of order dooms the run. */
  lemma BadStep(flags: Flags, sys: Sys, k: nat)
    requires Inv(flags, sys) && NoFailure(sys) && k < |sys.inflight| && !GoodDelivery(sys, k)
    ensures Doomed(Step(flags, sys, k))
  {
    hide React, Count, Queue, Sent, Used, Possible, Exists, Balanced, Due;
    var id := sys.inflight[k];
    var p := id.to;
    var party := sys.parties[p];
    Deliverable(flags, sys, k);
    assert Resting(flags, p, party);
    FlightSent(flags, sys, k);
    if id.kind == KPadded {
      EarlyShareRefused(flags, p, party.ctl, id);
      DriveFirst(flags, p, party.ctl, party.pending, id);
      StageZeroFails(flags, p, party.ctl, party.pending, id);
    } else {
      KindI3(id);
      SysCausal(flags, sys);
      SecondAfterFirst(Ctls(sys), id);
      NotYetDelivered(flags, sys);
      EarlySecondMisplaced(flags, party.ctl, id);
      DriveFirst(flags, p, party.ctl, party.pending, id);
    }
  }

  lemma StageZeroFails(flags: Flags, p: nat, c: Ctl, pending: seq<Id>, id: Id)
    requires React(flags, p, c, id).Failed?
    requires forall k | 0 <= k < |pending| :: React(flags, p, c, pending[k]).NotReady?
    ensures Drive(ReactWith(flags, p), Ended, c, pending + [id]).Broken?
  {
    hide React;
    LastIsFirstReady(flags, p, c, pending, id, 0);
    assert (pending + [id])[|pending|] == id;
  }

  lemma NotYetDelivered(flags: Flags, sys: Sys)
    requires Inv(flags, sys) && NoFailure(sys) && Stage(sys.parties[2].ctl) >= 3
    requires !Delivered(sys, Id(KInputCommit, 0, 2)) || !Delivered(sys, Id(KInputCommit, 1, 2))
    ensures sys.parties[2].ctl.CMsg1?
  {
    hide React, Count, Queue, Sent;
    var c := sys.parties[2].ctl;
    assert Resting(flags, 2, sys.parties[2]);
    if !c.CMsg1? {
      UsedInputDelivered(flags, sys, 0);
      UsedInputDelivered(flags, sys, 1);
    }
  }

  // ----- whole runs -----

  ghost predicate GoodSchedule(flags: Flags, schedule: seq<nat>) {
    forall j | 0 <= j < |schedule| :: GoodDelivery(Run(flags, schedule[..j]), schedule[j])
  }

  lemma GoodPrefix(flags: Flags, schedule: seq<nat>)
    requires schedule != []
    ensures var n := |schedule| - 1;
            GoodSchedule(flags, schedule) <==>
              GoodSchedule(flags, schedule[..n]) && GoodDelivery(Run(flags, schedule[..n]), schedule[n])
  {
    hide Run, GoodDelivery;
    var n := |schedule| - 1;
    assert forall j | 0 <= j < n :: schedule[..n][..j] == schedule[..j] && schedule[..n][j] == schedule[j];
  }

  /** Barring collisions and a rejected decoding, there is no error if and only if every delivery is
      in order; otherwise the run is doomed. */
  lemma {:induction false} InOrderIff(flags: Flags, schedule: seq<nat>)
    requires flags.AllGood()
    ensures GoodSchedule(flags, schedule) <==> !Doomed(Run(flags, schedule))
  {
    hide GoodSchedule, GoodDelivery, Doomed, Step, Inv;
    if schedule == [] {
      InitNotDoomed(flags);
    } else {
      var n := |schedule| - 1;
      var sys := Run(flags, schedule[..n]);
      InOrderIff(flags, schedule[..n]);
      GoodPrefix(flags, schedule);
      RunInv(flags, schedule[..n]);
      if Doomed(sys) {
        DoomedStays(flags, sys, schedule[n]);
      } else {
        StepNotDoomedIff(flags, sys, schedule[n]);
      }
    }
  }

  lemma InitNotDoomed(flags: Flags)
    ensures GoodSchedule(flags, []) && !Doomed(Init())
  {
  }

  lemma StepNotDoomedIff(flags: Flags, sys: Sys, k: nat)
    requires |sys.parties| == 3 && Inv(flags, sys) && !Doomed(sys) && flags.AllGood()
    ensures GoodDelivery(sys, k) <==> !Doomed(Step(flags, sys, k))
  {
    hide Step, Inv, Clean;
    if GoodDelivery(sys, k) {
      GoodStep(flags, sys, k);
    } else {
      BadStep(flags, sys, k);
    }
  }

  lemma DoneHasNoFlight(flags: Flags, sys: Sys)
    requires Inv(flags, sys) && NoFailure(sys) && AllDone(sys)
    ensures sys.inflight == []
  {
    hide React, Count, Queue, Possible, Exists;
    if sys.inflight != [] {
      ExistsBetween(sys.inflight[0]);
      Deliverable(flags, sys, 0);
    }
  }

  /** Barring collisions and a rejected decoding, all three sessions finish without error exactly
      when every delivery is in order and everything sent has been delivered. */
  lemma CompletesIff(flags: Flags, schedule: seq<nat>)
    requires flags.AllGood()
    ensures var sys := Run(flags, schedule);
            NoFailure(sys) && AllDone(sys) <==> GoodSchedule(flags, schedule) && sys.inflight == []
  {
    hide Run, Inv, GoodSchedule;
    var sys := Run(flags, schedule);
    RunInv(flags, schedule);
    InOrderIff(flags, schedule);
    NoStrandedMessage(flags, schedule);
    if NoFailure(sys) && AllDone(sys) {
      DoneHasNoFlight(flags, sys);
    }
  }

  // ----- what has been handed over -----

  /** One more message has been delivered; nothing else has changed in that respect. */
  lemma DeliveredStep(flags: Flags, sys: Sys, k: nat, i: Id)
    requires Inv(flags, sys) && k < |sys.inflight| && Exists(i) && i.from < 3
    ensures Delivered(Step(flags, sys, k), i) <==> Delivered(sys, i) || i == sys.inflight[k]
  {
    hide React, Used, Sent, Possible, Exists, Count, Queue, Resting, Due;
    var id := sys.inflight[k];
    var p := id.to;
    ExistsBetween(id);
    ExistsBetween(i);
    assert Balanced(sys, i);
    var party := sys.parties[p];
    Deliverable(flags, sys, k);
    RestingPossible(flags, p, party);
    DriveAccounts(flags, p, party.ctl, party.pending + [id], i);
    CountWithout(sys.inflight, k, i);
    CountConcat(Without(sys.inflight, k), Receive(flags, p, party, id).1, i);
    if i.from != p {
      OwnCount(p, Receive(flags, p, party, id).1, i);
    }
  }

  /** The message handed over at position `j` of the schedule. */
  function HandedOver(flags: Flags, schedule: seq<nat>, j: nat): Option<Id>
    requires j < |schedule|
  {
    var sys := Run(flags, schedule[..j]);
    if schedule[j] < |sys.inflight| then Some(sys.inflight[schedule[j]]) else None
  }

  predicate WasHandedOver(flags: Flags, schedule: seq<nat>, i: Id) {
    exists j | 0 <= j < |schedule| :: HandedOver(flags, schedule, j) == Some(i)
  }

  lemma HandedOverPrefix(flags: Flags, schedule: seq<nat>, i: Id)
    requires schedule != []
    ensures var n := |schedule| - 1;
            WasHandedOver(flags, schedule, i) <==> WasHandedOver(flags, schedule[..n], i) || HandedOver(flags, schedule, n) == Some(i)
  {
    hide Run;
    var n := |schedule| - 1;
    forall j | 0 <= j < n
      ensures HandedOver(flags, schedule[..n], j) == HandedOver(flags, schedule, j)
    {
      assert schedule[..n][..j] == schedule[..j];
    }
    if WasHandedOver(flags, schedule[..n], i) {
      var j :| 0 <= j < n && HandedOver(flags, schedule[..n], j) == Some(i);
      assert HandedOver(flags, schedule, j) == Some(i);
    }
  }

  /** Delivered is what the scheduler has handed over at some time. */
  lemma {:induction false} DeliveredIff(flags: Flags, schedule: seq<nat>, i: Id)
    requires Exists(i) && i.from < 3
    ensures Delivered(Run(flags, schedule), i) <==> WasHandedOver(flags, schedule, i)
  {
    hide Step, Inv, Delivered, Exists, WasHandedOver;
    if schedule == [] {
      NothingDelivered(flags, i);
    } else {
      var n := |schedule| - 1;
      var sys := Run(flags, schedule[..n]);
      RunInv(flags, schedule[..n]);
      DeliveredIff(flags, schedule[..n], i);
      HandedOverPrefix(flags, schedule, i);
      if schedule[n] < |sys.inflight| {
        DeliveredStep(flags, sys, schedule[n], i);
      } else {
        StepBeyond(flags, sys, schedule[n]);
      }
    }
  }

  lemma NothingDelivered(flags: Flags, i: Id)
    requires Exists(i) && i.from < 3
    ensures !Delivered(Init(), i) && !WasHandedOver(flags, [], i)
  {
    assert Init().inflight == [Id(KCommCrs, 2, 0)] + [Id(KCommCrs, 2, 1)];
  }

  lemma StepBeyond(flags: Flags, sys: Sys, k: nat)
    requires |sys.parties| == 3 && k >= |sys.inflight|
    ensures Step(flags, sys, k) == sys
  {
  }

  // ----- every run in order can be finished -----

  /** Unless nothing is in flight, some delivery is in order. */
  lemma SomeGoodDelivery(flags: Flags, sys: Sys) returns (k: nat)
    requires Inv(flags, sys) && NoFailure(sys) && sys.inflight != []
    ensures k < |sys.inflight| && GoodDelivery(sys, k)
  {
    hide GoodDelivery;
    if j :| 0 <= j < |sys.inflight| && GoodDelivery(sys, j) {
      k := j;
    } else {
      NotAllBad(flags, sys);
      assert false;
    }
  }

  predicate AllBad(sys: Sys)
    requires |sys.parties| == 3
  {
    forall k | 0 <= k < |sys.inflight| :: !GoodDelivery(sys, k)
  }

  lemma NotAllBad(flags: Flags, sys: Sys)
    requires Inv(flags, sys) && NoFailure(sys) && sys.inflight != []
    ensures !AllBad(sys)
  {
    hide React, Used, Sent, Possible, Exists, Kept, Queue, Stuck;
    if AllBad(sys) {
      var c0, c1, c2 := sys.parties[0].ctl, sys.parties[1].ctl, sys.parties[2].ctl;
      assert Resting(flags, 0, sys.parties[0]) && Resting(flags, 1, sys.parties[1]) && Resting(flags, 2, sys.parties[2]);
      KeptUnlessBad(flags, sys, {KPadded, KI3Commit});
      PastSetup(flags, c0, c1, c2, {KPadded, KI3Commit});
      KeptUnlessBad(flags, sys, {KI3Commit});
      PastRing(flags, c0, c1, c2, {KI3Commit});
      PastShamir(flags, c0, c1, c2, {KI3Commit});
      EvaluatorPastFirst(flags, c0, c1, c2, {KI3Commit});
      assert !GoodDelivery(sys, 0);
      NotYetDelivered(flags, sys);
    }
  }

  /** When every delivery would be out of order, everything else has been delivered. */
  lemma KeptUnlessBad(flags: Flags, sys: Sys, late: set<Kind>)
    requires Inv(flags, sys) && NoFailure(sys) && AllBad(sys) && KI3Commit in late
    requires KPadded in late || forall p | 0 <= p < 3 :: Stage(sys.parties[p].ctl) >= 1
    ensures AllKept(flags, sys.parties[0].ctl, sys.parties[1].ctl, sys.parties[2].ctl, late)
  {
    hide React, Used, Sent, Possible, Exists, Queue, Stuck, Count;
    var c0, c1, c2 := sys.parties[0].ctl, sys.parties[1].ctl, sys.parties[2].ctl;
    forall i: Id | Exists(i) && i.kind !in late
      ensures Kept(flags, if i.from == 0 then c0 else if i.from == 1 then c1 else c2,
                   if i.to == 0 then c0 else if i.to == 1 then c1 else c2, i)
    {
      ExistsBetween(i);
      forall k | 0 <= k < |sys.inflight|
        ensures sys.inflight[k] != i
      {
        assert !GoodDelivery(sys, k);
      }
      CountIn(sys.inflight, i);
      DeliveredIsKept(flags, sys, i);
    }
  }

  ghost function AllIds(): set<Id> {
    set k: Kind, from: nat, to: nat | from < 3 && to < 3 && Exists(Id(k, from, to)) :: Id(k, from, to)
  }

  ghost function Undelivered(sys: Sys): set<Id>
    requires |sys.parties| == 3
  {
    set i | i in AllIds() && !Delivered(sys, i)
  }

  lemma FewerUndelivered(flags: Flags, sys: Sys, k: nat)
    requires Inv(flags, sys) && k < |sys.inflight|
    ensures |Undelivered(Step(flags, sys, k))| < |Undelivered(sys)|
  {
    hide Step, Exists;
    var id := sys.inflight[k];
    ExistsBetween(id);
    CountIn(sys.inflight, id);
    forall i | i in AllIds()
      ensures Delivered(Step(flags, sys, k), i) <==> Delivered(sys, i) || i == id
    {
      DeliveredStep(flags, sys, k, i);
    }
    assert id == Id(id.kind, id.from, id.to) && id in Undelivered(sys);
    assert Undelivered(Step(flags, sys, k)) == Undelivered(sys) - {id};
  }

  /** Whoever has kept the order so far can finish in order: the two conditions on the scheduler
      never lead to a deadlock. */
  lemma {:induction false} CanFinish(flags: Flags, schedule: seq<nat>) returns (more: seq<nat>)
    requires flags.AllGood() && GoodSchedule(flags, schedule)
    ensures GoodSchedule(flags, schedule + more) && Run(flags, schedule + more).inflight == []
    ensures NoFailure(Run(flags, schedule + more)) && AllDone(Run(flags, schedule + more))
    decreases |Undelivered(Run(flags, schedule))|
  {
    hide Step, Inv, GoodSchedule, GoodDelivery, Undelivered, NoFailure, AllDone;
    var sys := Run(flags, schedule);
    RunInv(flags, schedule);
    if sys.inflight == [] {
      more := [];
      assert schedule + [] == schedule;
      CompletesIff(flags, schedule);
    } else {
      InOrderIff(flags, schedule);
      var k := SomeGoodDelivery(flags, sys);
      var longer := schedule + [k];
      assert longer[..|schedule|] == schedule;
      GoodPrefix(flags, longer);
      FewerUndelivered(flags, sys, k);
      var rest := CanFinish(flags, longer);
      more := [k] + rest;
      assert schedule + more == longer + rest;
    }
  }

  // ----- runs that fail -----

  /** A run in which nobody has kept a message or failed so far. */
  datatype Path = Path(schedule: seq<nat>, ctls: seq<Ctl>, inflight: seq<Id>)

  predicate Reaches(flags: Flags, path: Path) {
    |path.ctls| == 3 &&
    Run(flags, path.schedule) == Sys([Party(path.ctls[0], [], false), Party(path.ctls[1], [], false), Party(path.ctls[2], [], false)],
                                     path.inflight)
  }

  /** The receiver uses the next message. */
  lemma Uses(flags: Flags, path: Path, k: nat, ctls: seq<Ctl>, inflight: seq<Id>) returns (r: Path)
    requires Reaches(flags, path) && k < |path.inflight| && path.inflight[k].to < 3
    requires var id := path.inflight[k]; var h := React(flags, id.to, path.ctls[id.to], id);
             !Ended(path.ctls[id.to]) && h.Consumed? && !Ended(h.next) &&
             ctls == path.ctls[id.to := h.next] && inflight == Without(path.inflight, k) + h.outs
    ensures r == Path(path.schedule + [k], ctls, inflight) && Reaches(flags, r)
  {
    hide React;
    var id := path.inflight[k];
    var h := React(flags, id.to, path.ctls[id.to], id);
    assert [] + [id] == [id];
    assert Without([id], 0) == [];
    assert Drive(ReactWith(flags, id.to), Ended, h.next, []) == Settled(h.next, [], []);
    assert h.outs + [] == h.outs;
    assert (path.schedule + [k])[..|path.schedule|] == path.schedule;
    r := Path(path.schedule + [k], ctls, inflight);
  }

  /** The receiver refuses the next message. */
  lemma Refuses(flags: Flags, path: Path, k: nat)
    requires Reaches(flags, path) && k < |path.inflight| && path.inflight[k].to < 3
    requires var id := path.inflight[k]; !Ended(path.ctls[id.to]) && React(flags, id.to, path.ctls[id.to], id).Failed?
    ensures Run(flags, path.schedule + [k]).parties[path.inflight[k].to].failed
  {
    hide React;
    var id := path.inflight[k];
    StageZeroFails(flags, id.to, path.ctls[id.to], [], id);
    assert (path.schedule + [k])[..|path.schedule|] == path.schedule;
  }

  lemma FirstSteps(flags: Flags) returns (path: Path)
    ensures path == Path([0, 0, 0], [CRing, CRing, CWaitKey], [Id(KGarbleKey, 0, 2), Id(KKeyNext, 0, 1), Id(KKeyNext, 1, 2)])
    ensures Reaches(flags, path)
  {
    hide Run;
    path := Path([], [CWaitCrs, CWaitCrs, CWaitKey], [Id(KCommCrs, 2, 0), Id(KCommCrs, 2, 1)]);
    assert Reaches(flags, path) by {
      RunNothing(flags);
    }
    path := Uses(flags, path, 0, [CRing, CWaitCrs, CWaitKey],
                 [Id(KCommCrs, 2, 1), Id(KPrfSeed, 0, 1), Id(KGarbleKey, 0, 2), Id(KKeyNext, 0, 1)]);
    path := Uses(flags, path, 0, [CRing, CWaitPrf, CWaitKey],
                 [Id(KPrfSeed, 0, 1), Id(KGarbleKey, 0, 2), Id(KKeyNext, 0, 1)]);
    path := Uses(flags, path, 0, [CRing, CRing, CWaitKey],
                 [Id(KGarbleKey, 0, 2), Id(KKeyNext, 0, 1), Id(KKeyNext, 1, 2)]);
  }

  lemma RunNothing(flags: Flags)
    ensures Run(flags, []) == Init()
  {
  }

  /** Party 1 runs ahead: its padded share reaches the evaluator before the garble key does. */
  const EARLY_SHARE: seq<nat> := [0, 0, 0, 1, 3]

  lemma EarlyShareFails(flags: Flags)
    requires flags.AllGood()
    ensures Run(flags, EARLY_SHARE).parties[2].failed
  {
    hide Run;
    var path := FirstSteps(flags);
    path := Uses(flags, path, 1, [CRing, CShamir(false, false), CWaitKey],
                 [Id(KGarbleKey, 0, 2), Id(KKeyNext, 1, 2), Id(KPadded, 1, 0), Id(KPadded, 1, 2)]);
    Refuses(flags, path, 3);
    assert path.schedule + [3] == EARLY_SHARE;
  }

  /** Party 0's second input message overtakes its first one. */
  const EARLY_SECOND: seq<nat> := [0, 0, 0, 0, 0, 0, 0, 0, 0, 0, 0, 0, 2, 3, 1]

  lemma RingKeysArrive(flags: Flags) returns (path: Path)
    requires flags.AllGood()
    ensures path == Path([0, 0, 0, 0, 0, 0, 0], [CShamir(false, false), CShamir(false, false), CShamir(false, false)],
                         [Id(KPadded, 1, 0), Id(KPadded, 1, 2), Id(KPadded, 2, 1), Id(KPadded, 2, 0), Id(KPadded, 0, 2), Id(KPadded, 0, 1)])
    ensures Reaches(flags, path)
  {
    hide Run;
    path := FirstSteps(flags);
    path := Uses(flags, path, 0, [CRing, CRing, CRing],
                 [Id(KKeyNext, 0, 1), Id(KKeyNext, 1, 2), Id(KKeyNext, 2, 0)]);
    path := Uses(flags, path, 0, [CRing, CShamir(false, false), CRing],
                 [Id(KKeyNext, 1, 2), Id(KKeyNext, 2, 0), Id(KPadded, 1, 0), Id(KPadded, 1, 2)]);
    path := Uses(flags, path, 0, [CRing, CShamir(false, false), CShamir(false, false)],
                 [Id(KKeyNext, 2, 0), Id(KPadded, 1, 0), Id(KPadded, 1, 2), Id(KPadded, 2, 1), Id(KPadded, 2, 0)]);
    path := Uses(flags, path, 0, [CShamir(false, false), CShamir(false, false), CShamir(false, false)],
                 [Id(KPadded, 1, 0), Id(KPadded, 1, 2), Id(KPadded, 2, 1), Id(KPadded, 2, 0), Id(KPadded, 0, 2), Id(KPadded, 0, 1)]);
  }

  lemma SharesArrive(flags: Flags) returns (path: Path)
    requires flags.AllGood()
    ensures path == Path([0, 0, 0, 0, 0, 0, 0, 0, 0, 0, 0, 0], [CEvalBits, CShamir(true, false), CMsg1(Empty, Empty)],
                         [Id(KPadded, 0, 1), Id(KInputCommit, 0, 2), Id(KEvalBits, 2, 0), Id(KEvalBits, 2, 1)])
    ensures Reaches(flags, path)
  {
    hide Run;
    path := RingKeysArrive(flags);
    path := Uses(flags, path, 0, [CShamir(true, false), CShamir(false, false), CShamir(false, false)],
                 [Id(KPadded, 1, 2), Id(KPadded, 2, 1), Id(KPadded, 2, 0), Id(KPadded, 0, 2), Id(KPadded, 0, 1)]);
    path := Uses(flags, path, 0, [CShamir(true, false), CShamir(false, false), CShamir(false, true)],
                 [Id(KPadded, 2, 1), Id(KPadded, 2, 0), Id(KPadded, 0, 2), Id(KPadded, 0, 1)]);
    path := Uses(flags, path, 0, [CShamir(true, false), CShamir(true, false), CShamir(false, true)],
                 [Id(KPadded, 2, 0), Id(KPadded, 0, 2), Id(KPadded, 0, 1)]);
    path := Uses(flags, path, 0, [CEvalBits, CShamir(true, false), CShamir(false, true)],
                 [Id(KPadded, 0, 2), Id(KPadded, 0, 1), Id(KInputCommit, 0, 2)]);
    path := Uses(flags, path, 0, [CEvalBits, CShamir(true, false), CMsg1(Empty, Empty)],
                 [Id(KPadded, 0, 1), Id(KInputCommit, 0, 2), Id(KEvalBits, 2, 0), Id(KEvalBits, 2, 1)]);
  }

  lemma EarlySecondFails(flags: Flags)
    requires flags.AllGood()
    ensures Run(flags, EARLY_SECOND).parties[2].failed
  {
    hide Run;
    var path := SharesArrive(flags);
    path := Uses(flags, path, 2, [CWaitLabel, CShamir(true, false), CMsg1(Empty, Empty)],
                 [Id(KPadded, 0, 1), Id(KInputCommit, 0, 2), Id(KEvalBits, 2, 1), Id(KI3Commit, 0, 2), Id(KHash, 0, 2)]);
    path := Uses(flags, path, 3, [CWaitLabel, CShamir(true, false), CMsg1(HasI3, Empty)],
                 [Id(KPadded, 0, 1), Id(KInputCommit, 0, 2), Id(KEvalBits, 2, 1), Id(KHash, 0, 2)]);
    Refuses(flags, path, 1);
    assert path.schedule + [1] == EARLY_SECOND;
  }
}
