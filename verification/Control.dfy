/** The derivation session with its data taken away: which messages exist, in which phase each is
    sent, kept and used. One honest run sends each of 29 messages once. */
module Control {
  import opened Wrappers
  import opened Replay

  datatype Kind =
    | KCommCrs | KPrfSeed | KGarbleKey | KKeyNext | KPadded | KEvalBits | KInputCommit | KI3Commit | KHash | KTables
    | KLabel | KBit | KLabels | KBits

  datatype Id = Id(kind: Kind, from: nat, to: nat)

  /** The ring of parties. */
  function Next(p: nat): nat {
    if p == 2 then 0 else p + 1
  }

  function Prev(p: nat): nat {
    if p == 0 then 2 else p - 1
  }

  /** The messages of an honest run. */
  predicate Exists(id: Id) {
    match id.kind
    case KCommCrs => id.from == 2 && id.to < 2
    case KPrfSeed => id.from == 0 && id.to == 1
    case KGarbleKey => id.from == 0 && id.to == 2
    case KKeyNext => id.from < 3 && id.to == Next(id.from)
    case KPadded => id.from < 3 && id.to < 3 && id.from != id.to
    case KEvalBits => id.from == 2 && id.to < 2
    case KInputCommit => id.from < 2 && id.to == 2
    case KI3Commit => id.from < 2 && id.to == 2
    case KHash => id.from == 0 && id.to == 2
    case KTables => id.from == 1 && id.to == 2
    case KLabel => id.from == 2 && id.to < 2
    case KBit => id.from < 2 && id.to == 2
    case KLabels => id.from == 2 && id.to < 2
    case KBits => id.from < 2 && id.to == 2
  }

  datatype Slot = Empty | HasInput | HasI3

  datatype Ctl =
    | CWaitCrs
    | CWaitPrf
    | CWaitKey
    | CRing
    | CShamir(next: bool, prev: bool)
    | CEvalBits
    | CMsg1(s0: Slot, s1: Slot)
    | CMsg2(i0: bool, i1: bool)
    | CCircuit(hash: bool, tables: bool)
    | CWaitLabel
    | CBits(b0: bool, b1: bool)
    | CWaitLabels
    | CRejected
    | COutputs(o0: bool, o1: bool)
    | CDone

  /** The phases a party goes through. A state whose slots are all filled is left at once, unless the
      evaluator refuses both first messages. `CRejected` is a garbler's last waiting phase after
      labels whose bits make no keys. */
  predicate Possible(p: nat, c: Ctl) {
    match c
    case CWaitCrs => p < 2
    case CWaitPrf => p == 1
    case CWaitKey => p == 2
    case CShamir(n, q) => !(n && q)
    case CEvalBits => p < 2
    case CMsg1(a, b) => p == 2
    case CMsg2(a, b) => p == 2 && !(a && b)
    case CCircuit(a, b) => p == 2 && !(a && b)
    case CWaitLabel => p < 2
    case CBits(a, b) => p == 2 && !(a && b)
    case CWaitLabels => p < 2
    case CRejected => p < 2
    case COutputs(a, b) => p == 2 && !(a && b)
    case _ => p < 3
  }

  /** Only an error leads here. */
  predicate Stuck(c: Ctl) {
    c == CMsg1(HasInput, HasInput) || c.CRejected?
  }

  function Stage(c: Ctl): nat {
    match c
    case CWaitCrs => 0
    case CWaitPrf => 0
    case CWaitKey => 0
    case CRing => 1
    case CShamir(_, _) => 2
    case CEvalBits => 3
    case CMsg1(_, _) => 3
    case CMsg2(_, _) => 3
    case CCircuit(_, _) => 4
    case CWaitLabel => 5
    case CBits(_, _) => 5
    case CWaitLabels => 6
    case COutputs(_, _) => 6
    case CRejected => 7
    case CDone => 7
  }

  /** The stage at which a message has been sent. */
  function SendStage(k: Kind): nat {
    match k
    case KCommCrs => 0
    case KPrfSeed => 1
    case KGarbleKey => 1
    case KKeyNext => 1
    case KPadded => 2
    case KEvalBits => 3
    case KInputCommit => 3
    case KI3Commit => 5
    case KHash => 5
    case KTables => 5
    case KLabel => 5
    case KBit => 6
    case KLabels => 6
    case KBits => 7
  }

  predicate Sent(c: Ctl, id: Id) {
    Stage(c) >= SendStage(id.kind)
  }

  /** The receiver in state `c` has taken the message in. */
  predicate Used(c: Ctl, id: Id) {
    match id.kind
    case KCommCrs => !c.CWaitCrs?
    case KPrfSeed => Stage(c) >= 1
    case KGarbleKey => Stage(c) >= 1
    case KKeyNext => Stage(c) >= 2
    case KPadded => Stage(c) >= 3 || (c.CShamir? && if id.from == Next(id.to) then c.next else c.prev)
    case KEvalBits => Stage(c) >= 5
    case KInputCommit => Stage(c) >= 4 || c.CMsg2? || (c.CMsg1? && (if id.from == 0 then c.s0 else c.s1) == HasInput)
    case KI3Commit => Stage(c) >= 4 || (c.CMsg2? && if id.from == 0 then c.i0 else c.i1) ||
                      (c.CMsg1? && (if id.from == 0 then c.s0 else c.s1) == HasI3)
    case KHash => Stage(c) >= 5 || (c.CCircuit? && c.hash)
    case KTables => Stage(c) >= 5 || (c.CCircuit? && c.tables)
    case KLabel => Stage(c) >= 6
    case KBit => Stage(c) >= 6 || (c.CBits? && if id.from == 0 then c.b0 else c.b1)
    case KLabels => Stage(c) >= 7
    case KBits => Stage(c) >= 7 || (c.COutputs? && if id.from == 0 then c.o0 else c.o1)
  }

  /** What may go wrong for other reasons than the order of messages: equal ring keys at a party,
      two commitments of one wire that collide, output bits that make no keys. */
  datatype Flags = Flags(key0: bool, key1: bool, key2: bool, commit: bool, decode: bool) {
    predicate Key(p: nat) {
      if p == 0 then key0 else if p == 1 then key1 else key2
    }

    predicate AllGood() {
      key0 && key1 && key2 && commit && decode
    }
  }

  type CHandled = Handled<Ctl, Id, ProtocolError>

  function Refuse(c: Ctl, e: ProtocolError): CHandled {
    Failed(e, c, [])
  }

  predicate IsBatch(k: Kind) {
    k == KEvalBits || k == KInputCommit || k == KI3Commit
  }

  predicate IsVerification(k: Kind) {
    k == KLabel || k == KBit
  }

  predicate IsOutput(k: Kind) {
    k == KLabels || k == KBits
  }

  predicate IsCircuit(k: Kind) {
    k == KHash || k == KTables
  }

  function Toward(k: Kind): seq<Id> {
    [Id(k, 2, 0), Id(k, 2, 1)]
  }

  /** What party `p` in state `c` does with a message addressed to it. */
  function React(flags: Flags, p: nat, c: Ctl, id: Id): CHandled {
    var k, from := id.kind, id.from;
    match c
    case CWaitCrs =>
      if from == 2 then
        if k != KCommCrs then Refuse(c, InvalidMessage)
        else if p == 0 then Consumed(CRing, [Id(KPrfSeed, 0, 1), Id(KGarbleKey, 0, 2), Id(KKeyNext, 0, 1)])
        else Consumed(CWaitPrf, [])
      else if p == 1 && from == 0 && (k == KKeyNext || k == KPrfSeed) then NotReady
      else Refuse(c, InvalidMessage)
    case CWaitPrf =>
      if k == KKeyNext && from == 0 then NotReady
      else if k == KPrfSeed && from == 0 then Consumed(CRing, [Id(KKeyNext, 1, 2)])
      else Refuse(c, InvalidMessage)
    case CWaitKey =>
      if k == KKeyNext && from == 1 then NotReady
      else if k == KGarbleKey && from == 0 then Consumed(CRing, [Id(KKeyNext, 2, 0)])
      else Refuse(c, InvalidMessage)
    case CRing =>
      if k == KPadded then NotReady
      else if k != KKeyNext then Refuse(c, InvalidMessage)
      else if !flags.Key(p) then Refuse(c, VerificationError)
      else Consumed(CShamir(false, false), [Id(KPadded, p, Prev(p)), Id(KPadded, p, Next(p))])
    case CShamir(n, q) =>
      if IsBatch(k) then NotReady
      else if k != KPadded then Refuse(c, InvalidMessage)
      else if from == Next(p) then if q then StartInputs(p) else Consumed(CShamir(true, q), [])
      else if n then StartInputs(p) else Consumed(CShamir(n, true), [])
    case CEvalBits =>
      if IsVerification(k) || IsOutput(k) then NotReady
      else if k != KEvalBits then Refuse(c, InvalidMessage)
      else Consumed(CWaitLabel, [Id(KI3Commit, p, 2), Id(if p == 0 then KHash else KTables, p, 2)])
    case CMsg1(s0, s1) =>
      if IsVerification(k) || IsOutput(k) || IsCircuit(k) then NotReady
      else if !IsBatch(k) then Refuse(c, InvalidMessage)
      else if (if from == 0 then s0 else s1) != Empty then Refuse(c, InconsistentMessage)
      else
        var slot := if k == KInputCommit then HasInput else HasI3;
        var c' := if from == 0 then CMsg1(slot, s1) else CMsg1(s0, slot);
        if c' != CMsg1(HasInput, HasInput) then Consumed(c', [])
        else if flags.commit then Consumed(CMsg2(false, false), [])
        else Refuse(c', InvalidMessage)
    case CMsg2(i0, i1) =>
      if IsVerification(k) || IsOutput(k) || IsCircuit(k) then NotReady
      else if !IsBatch(k) then Refuse(c, InvalidMessage)
      else if from == 0 then if i1 then Consumed(CCircuit(false, false), []) else Consumed(CMsg2(true, i1), [])
      else if i0 then Consumed(CCircuit(false, false), []) else Consumed(CMsg2(i0, true), [])
    case CCircuit(h, t) =>
      if IsVerification(k) then NotReady
      else if !IsCircuit(k) then Refuse(c, InvalidMessage)
      else if from == 0 then if t then Consumed(CBits(false, false), Toward(KLabel)) else Consumed(CCircuit(true, t), [])
      else if h then Consumed(CBits(false, false), Toward(KLabel)) else Consumed(CCircuit(h, true), [])
    case CWaitLabel =>
      if IsOutput(k) then NotReady
      else if k != KLabel then Refuse(c, InvalidMessage)
      else Consumed(CWaitLabels, [Id(KBit, p, 2)])
    case CBits(b0, b1) =>
      if IsOutput(k) then NotReady
      else if !IsVerification(k) then Refuse(c, InvalidMessage)
      else if from == 0 then if b1 then Consumed(COutputs(false, false), Toward(KLabels)) else Consumed(CBits(true, b1), [])
      else if b0 then Consumed(COutputs(false, false), Toward(KLabels)) else Consumed(CBits(b0, true), [])
    case CWaitLabels =>
      if k != KLabels then Refuse(c, InvalidMessage)
      else if flags.decode then Consumed(CDone, [Id(KBits, p, 2)])
      else Failed(VerificationError, CRejected, [Id(KBits, p, 2)])
    case CRejected => Refuse(c, InvalidMessage)
    case COutputs(o0, o1) =>
      if !IsOutput(k) then Refuse(c, InvalidMessage)
      else if (if from == 0 then o1 else o0) then
        if flags.decode then Consumed(CDone, []) else Refuse(COutputs(false, false), VerificationError)
      else Consumed(if from == 0 then COutputs(true, o1) else COutputs(o0, true), [])
    case CDone => Consumed(c, [])
  }

  function StartInputs(p: nat): CHandled {
    if p == 2 then Consumed(CMsg1(Empty, Empty), Toward(KEvalBits)) else Consumed(CEvalBits, [Id(KInputCommit, p, 2)])
  }

  // ----- one step -----

  /** Party `p` in state `c` may still get the message. */
  predicate Due(p: nat, c: Ctl, id: Id) {
    p < 3 && Possible(p, c) && Exists(id) && id.to == p && !Used(c, id)
  }

  /** Membership in a list of at most three. */
  predicate Among(i: Id, ids: seq<Id>) {
    (|ids| > 0 && ids[0] == i) || (|ids| > 1 && ids[1] == i) || (|ids| > 2 && ids[2] == i)
  }

  // ----- what one reaction does -----

  predicate StaysPossible(flags: Flags, p: nat, c: Ctl, id: Id) {
    var h := React(flags, p, c, id);
    h.Consumed? ==> Possible(p, h.next) && !Stuck(h.next)
  }

  /** Using a message marks it and nothing else as used. */
  predicate UsesOnly(flags: Flags, p: nat, c: Ctl, id: Id, i: Id) {
    var h := React(flags, p, c, id);
    h.Consumed? && i.to == p ==> (Used(h.next, i) <==> Used(c, i) || i == id)
  }

  /** What is sent is exactly what the new stage adds. */
  predicate SendsOnly(flags: Flags, p: nat, c: Ctl, id: Id, i: Id) {
    var h := React(flags, p, c, id);
    h.Consumed? && i.from == p ==> (Sent(h.next, i) <==> Sent(c, i) || Among(i, h.outs)) && !(Sent(c, i) && Among(i, h.outs))
  }

  /** A finished party has used everything that was meant for it. */
  lemma DueNotDone(p: nat, c: Ctl, id: Id)
    requires Due(p, c, id)
    ensures Stage(c) <= 6
  {
  }

  lemma PossibleEarly(flags: Flags, p: nat, c: Ctl, id: Id)
    requires Due(p, c, id) && Stage(c) <= 2
    ensures StaysPossible(flags, p, c, id)
  {
    hide Used;
  }

  lemma PossibleMiddle(flags: Flags, p: nat, c: Ctl, id: Id)
    requires Due(p, c, id) && 3 <= Stage(c) <= 4
    ensures StaysPossible(flags, p, c, id)
  {
    hide Used;
  }

  lemma PossibleStage5(flags: Flags, p: nat, c: Ctl, id: Id)
    requires Due(p, c, id) && Stage(c) == 5
    ensures StaysPossible(flags, p, c, id)
  {
    hide Used;
  }

  lemma PossibleStage6(flags: Flags, p: nat, c: Ctl, id: Id)
    requires Due(p, c, id) && Stage(c) == 6
    ensures StaysPossible(flags, p, c, id)
  {
    hide Used;
  }

  lemma ReactPossible(flags: Flags, p: nat, c: Ctl, id: Id)
    requires Due(p, c, id)
    ensures StaysPossible(flags, p, c, id)
  {
    hide React, StaysPossible, Due;
    DueNotDone(p, c, id);
    if Stage(c) <= 2 {
      PossibleEarly(flags, p, c, id);
    } else if Stage(c) <= 4 {
      PossibleMiddle(flags, p, c, id);
    } else if Stage(c) == 5 {
      PossibleStage5(flags, p, c, id);
    } else {
      PossibleStage6(flags, p, c, id);
    }
  }

  lemma UsesStage0(flags: Flags, p: nat, c: Ctl, id: Id, i: Id)
    requires Due(p, c, id) && Exists(i) && Stage(c) == 0
    ensures UsesOnly(flags, p, c, id, i)
  {
  }

  lemma UsesStage1(flags: Flags, p: nat, c: Ctl, id: Id, i: Id)
    requires Due(p, c, id) && Exists(i) && Stage(c) == 1
    ensures UsesOnly(flags, p, c, id, i)
  {
  }

  lemma UsesStage2(flags: Flags, p: nat, c: Ctl, id: Id, i: Id)
    requires Due(p, c, id) && Exists(i) && Stage(c) == 2
    ensures UsesOnly(flags, p, c, id, i)
  {
  }

  lemma UsesStage3(flags: Flags, p: nat, c: Ctl, id: Id, i: Id)
    requires Due(p, c, id) && Exists(i) && Stage(c) == 3
    ensures UsesOnly(flags, p, c, id, i)
  {
  }

  lemma UsesStage4(flags: Flags, p: nat, c: Ctl, id: Id, i: Id)
    requires Due(p, c, id) && Exists(i) && Stage(c) == 4
    ensures UsesOnly(flags, p, c, id, i)
  {
  }

  lemma UsesStage5(flags: Flags, p: nat, c: Ctl, id: Id, i: Id)
    requires Due(p, c, id) && Exists(i) && Stage(c) == 5
    ensures UsesOnly(flags, p, c, id, i)
  {
  }

  lemma UsesStage6(flags: Flags, p: nat, c: Ctl, id: Id, i: Id)
    requires Due(p, c, id) && Exists(i) && Stage(c) == 6
    ensures UsesOnly(flags, p, c, id, i)
  {
  }

  lemma SendsStage01(flags: Flags, p: nat, c: Ctl, id: Id, i: Id)
    requires Due(p, c, id) && Exists(i) && Stage(c) <= 1
    ensures SendsOnly(flags, p, c, id, i)
  {
    hide Used;
  }

  lemma SendsStage2(flags: Flags, p: nat, c: Ctl, id: Id, i: Id)
    requires Due(p, c, id) && Exists(i) && Stage(c) == 2
    ensures SendsOnly(flags, p, c, id, i)
  {
    hide Used;
  }

  lemma SendsStage3(flags: Flags, p: nat, c: Ctl, id: Id, i: Id)
    requires Due(p, c, id) && Exists(i) && Stage(c) == 3
    ensures SendsOnly(flags, p, c, id, i)
  {
    hide Used;
  }

  lemma SendsStage4(flags: Flags, p: nat, c: Ctl, id: Id, i: Id)
    requires Due(p, c, id) && Exists(i) && Stage(c) == 4
    ensures SendsOnly(flags, p, c, id, i)
  {
    hide Used;
  }

  lemma SendsStage5(flags: Flags, p: nat, c: Ctl, id: Id, i: Id)
    requires Due(p, c, id) && Exists(i) && Stage(c) == 5
    ensures SendsOnly(flags, p, c, id, i)
  {
    hide Used;
  }

  lemma SendsStage6(flags: Flags, p: nat, c: Ctl, id: Id, i: Id)
    requires Due(p, c, id) && Exists(i) && Stage(c) == 6
    ensures SendsOnly(flags, p, c, id, i)
  {
    hide Used;
  }

  lemma ReactFacts(flags: Flags, p: nat, c: Ctl, id: Id, i: Id)
    requires Due(p, c, id) && Exists(i)
    ensures UsesOnly(flags, p, c, id, i) && SendsOnly(flags, p, c, id, i)
  {
    hide React, UsesOnly, SendsOnly, Due;
    DueNotDone(p, c, id);
    match Stage(c) {
      case 0 =>
        UsesStage0(flags, p, c, id, i);
        SendsStage01(flags, p, c, id, i);
      case 1 =>
        UsesStage1(flags, p, c, id, i);
        SendsStage01(flags, p, c, id, i);
      case 2 =>
        UsesStage2(flags, p, c, id, i);
        SendsStage2(flags, p, c, id, i);
      case 3 =>
        UsesStage3(flags, p, c, id, i);
        SendsStage3(flags, p, c, id, i);
      case 4 =>
        UsesStage4(flags, p, c, id, i);
        SendsStage4(flags, p, c, id, i);
      case 5 =>
        UsesStage5(flags, p, c, id, i);
        SendsStage5(flags, p, c, id, i);
      case _ =>
        UsesStage6(flags, p, c, id, i);
        SendsStage6(flags, p, c, id, i);
    }
  }

  /** At most three different messages, all from `p`. */
  predicate OutsOf(p: nat, outs: seq<Id>) {
    |outs| <= 3 && (forall k | 0 <= k < |outs| :: Exists(outs[k]) && outs[k].from == p) &&
    (|outs| >= 2 ==> outs[0] != outs[1]) && (|outs| == 3 ==> outs[0] != outs[2] && outs[1] != outs[2])
  }

  predicate SendsOwn(flags: Flags, p: nat, c: Ctl, id: Id) {
    var h := React(flags, p, c, id);
    !h.NotReady? ==> OutsOf(p, h.outs)
  }

  lemma OutsSetup(flags: Flags, p: nat, c: Ctl, id: Id)
    requires Due(p, c, id) && Stage(c) <= 1
    ensures SendsOwn(flags, p, c, id)
  {
  }

  lemma OutsShamir(flags: Flags, p: nat, c: Ctl, id: Id)
    requires Due(p, c, id) && Stage(c) == 2
    ensures SendsOwn(flags, p, c, id)
  {
  }

  lemma OutsMiddle(flags: Flags, p: nat, c: Ctl, id: Id)
    requires Due(p, c, id) && 3 <= Stage(c) <= 4
    ensures SendsOwn(flags, p, c, id)
  {
  }

  lemma OutsLate(flags: Flags, p: nat, c: Ctl, id: Id)
    requires Due(p, c, id) && 5 <= Stage(c)
    ensures SendsOwn(flags, p, c, id)
  {
  }

  /** A reaction that fails uses up the message at most, and its new state accounts for what it has
      sent. */
  predicate FailsSoundly(flags: Flags, p: nat, c: Ctl, id: Id, i: Id) {
    var h := React(flags, p, c, id);
    h.Failed? ==>
      Possible(p, h.left) && !h.left.CDone? &&
      (i.to == p && Used(h.left, i) ==> Used(c, i) || i == id) &&
      (i.from == p ==> (Sent(h.left, i) <==> Sent(c, i) || Among(i, h.outs)) && !(Sent(c, i) && Among(i, h.outs)))
  }

  lemma FailsSetup(flags: Flags, p: nat, c: Ctl, id: Id, i: Id)
    requires Due(p, c, id) && Exists(i) && Stage(c) <= 1
    ensures FailsSoundly(flags, p, c, id, i)
  {
  }

  lemma FailsShamir(flags: Flags, p: nat, c: Ctl, id: Id, i: Id)
    requires Due(p, c, id) && Exists(i) && Stage(c) == 2
    ensures FailsSoundly(flags, p, c, id, i)
  {
  }

  lemma FailsMiddle(flags: Flags, p: nat, c: Ctl, id: Id, i: Id)
    requires Due(p, c, id) && Exists(i) && 3 <= Stage(c) <= 4
    ensures FailsSoundly(flags, p, c, id, i)
  {
  }

  lemma FailsLate(flags: Flags, p: nat, c: Ctl, id: Id, i: Id)
    requires Due(p, c, id) && Exists(i) && 5 <= Stage(c)
    ensures FailsSoundly(flags, p, c, id, i)
  {
  }

  lemma ReactFails(flags: Flags, p: nat, c: Ctl, id: Id, i: Id)
    requires Due(p, c, id) && Exists(i)
    ensures FailsSoundly(flags, p, c, id, i)
  {
    hide React, FailsSoundly, Due;
    if Stage(c) <= 1 {
      FailsSetup(flags, p, c, id, i);
    } else if Stage(c) == 2 {
      FailsShamir(flags, p, c, id, i);
    } else if Stage(c) <= 4 {
      FailsMiddle(flags, p, c, id, i);
    } else {
      FailsLate(flags, p, c, id, i);
    }
  }
}
