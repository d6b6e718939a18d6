/** Three honest sessions, the messages in flight and an arbitrary scheduler, on control states:
    every message stays accounted for, none is stranded, and exactly which deliveries lead to an
    error (`crates/zcash/src/derivation_session.rs`). */
module Schedule {
  import opened Wrappers
  import opened Replay
  import opened Control

  function ReactWith(flags: Flags, p: nat): (Ctl, Id) -> CHandled {
    (c: Ctl, id: Id) => React(flags, p, c, id)
  }

  predicate Ended(c: Ctl) {
    c.CDone?
  }

  function Count(ids: seq<Id>, i: Id): nat {
    multiset(ids)[i]
  }

  function B(b: bool): nat {
    if b then 1 else 0
  }

  lemma CountWithout(ids: seq<Id>, k: nat, i: Id)
    requires k < |ids|
    ensures Count(Without(ids, k), i) + B(ids[k] == i) == Count(ids, i)
  {
    assert ids == ids[..k] + [ids[k]] + ids[k + 1..];
  }

  lemma CountConcat(a: seq<Id>, b: seq<Id>, i: Id)
    ensures Count(a + b, i) == Count(a, i) + Count(b, i)
  {
  }

  lemma CountIn(ids: seq<Id>, i: Id)
    ensures Count(ids, i) > 0 <==> exists k :: 0 <= k < |ids| && ids[k] == i
  {
  }

  lemma CountOuts(p: nat, outs: seq<Id>, i: Id)
    requires OutsOf(p, outs)
    ensures Count(outs, i) == B(Among(i, outs))
  {
    if |outs| == 1 {
      assert outs == [outs[0]];
    } else if |outs| == 2 {
      assert outs == [outs[0], outs[1]];
    } else if |outs| == 3 {
      assert outs == [outs[0], outs[1], outs[2]];
    }
  }

  // ----- one call of one party -----

  /** Everything queued at party `p` may still be used, and nothing is queued twice. */
  ghost predicate Queue(p: nat, c: Ctl, ids: seq<Id>) {
    (forall k | 0 <= k < |ids| :: Due(p, c, ids[k])) && forall i: Id :: Count(ids, i) <= 1
  }

  predicate Received(p: nat, c: Ctl, ids: seq<Id>, c': Ctl, ids': seq<Id>, i: Id) {
    i.to == p ==> B(Used(c', i)) + Count(ids', i) == B(Used(c, i)) + Count(ids, i)
  }

  predicate Emitted(p: nat, c: Ctl, c': Ctl, outs: seq<Id>, i: Id) {
    i.from == p ==> B(Sent(c', i)) == B(Sent(c, i)) + Count(outs, i)
  }

  /** An error may lose messages, but makes none up. */
  predicate NoneMadeUp(p: nat, c: Ctl, ids: seq<Id>, c': Ctl, ids': seq<Id>, i: Id) {
    i.to == p ==> B(Used(c', i)) + Count(ids', i) <= B(Used(c, i)) + Count(ids, i)
  }

  /** What the call has done with message `i`. */
  predicate Accounts(p: nat, c: Ctl, ids: seq<Id>, d: Driven<Ctl, Id, ProtocolError>, i: Id) {
    match d
    case Settled(c', ids', outs) => Received(p, c, ids, c', ids', i) && Emitted(p, c, c', outs, i)
    case Finished(c', outs) => Received(p, c, ids, c', [], i) && Emitted(p, c, c', outs, i)
    case Broken(_, c', ids', outs) => NoneMadeUp(p, c, ids, c', ids', i) && Emitted(p, c, c', outs, i)
  }

  predicate Own(p: nat, outs: seq<Id>) {
    forall k | 0 <= k < |outs| :: Exists(outs[k]) && outs[k].from == p
  }

  ghost predicate EndsWell(p: nat, c: Ctl, d: Driven<Ctl, Id, ProtocolError>) {
    Own(p, d.outs) &&
    match d
    case Settled(c', ids', _) => Possible(p, c') && !Ended(c') && Queue(p, c', ids') && (Stuck(c') ==> Stuck(c))
    case Finished(c', _) => Ended(c')
    case Broken(_, c', ids', _) => Possible(p, c') && !Ended(c') && Queue(p, c', ids')
  }

  lemma OnlyOnce(ids: seq<Id>, j: nat, k: nat)
    requires j < |ids| && k < |ids| && j != k && Count(ids, ids[j]) <= 1
    ensures ids[j] != ids[k]
  {
    var rest := Without(ids, j);
    CountWithout(ids, j, ids[j]);
    CountIn(rest, ids[j]);
    assert rest[if k < j then k else k - 1] == ids[k];
  }

  /** A message that is used up leaves a queue for any state that has used nothing else. */
  lemma QueueRest(p: nat, c: Ctl, ids: seq<Id>, k: nat, next: Ctl)
    requires p < 3 && Possible(p, next) && Queue(p, c, ids) && k < |ids|
    requires forall i: Id | Exists(i) && i.to == p && Used(next, i) :: Used(c, i) || i == ids[k]
    ensures Queue(p, next, Without(ids, k))
  {
    hide Used, Possible, Count, Exists;
    var rest := Without(ids, k);
    forall i: Id
      ensures Count(rest, i) <= 1
    {
      CountWithout(ids, k, i);
      assert Count(ids, i) <= 1;
    }
    forall j | 0 <= j < |rest|
      ensures Due(p, next, rest[j])
    {
      var at := if j < k then j else j + 1;
      assert rest[j] == ids[at] && Due(p, c, ids[at]);
      OnlyOnce(ids, k, at);
    }
  }

  lemma QueueStep(flags: Flags, p: nat, c: Ctl, ids: seq<Id>, k: nat)
    requires p < 3 && Queue(p, c, ids) && k < |ids| && React(flags, p, c, ids[k]).Consumed?
    ensures var next := React(flags, p, c, ids[k]).next;
            Possible(p, next) && !Stuck(next) && Queue(p, next, Without(ids, k))
  {
    hide React, Used, Sent, Possible, Count, Exists, Stuck, Queue, Due;
    QueueDue(p, c, ids, k);
    var next := React(flags, p, c, ids[k]).next;
    ReactPossible(flags, p, c, ids[k]);
    forall i: Id | Exists(i) && i.to == p && Used(next, i)
      ensures Used(c, i) || i == ids[k]
    {
      ReactFacts(flags, p, c, ids[k], i);
    }
    QueueRest(p, c, ids, k, next);
  }

  lemma QueueFails(flags: Flags, p: nat, c: Ctl, ids: seq<Id>, k: nat)
    requires p < 3 && Queue(p, c, ids) && k < |ids| && React(flags, p, c, ids[k]).Failed?
    ensures var left := React(flags, p, c, ids[k]).left;
            Possible(p, left) && !Ended(left) && Queue(p, left, Without(ids, k))
  {
    hide React, Used, Sent, Possible, Count, Exists, Queue, Due;
    QueueDue(p, c, ids, k);
    var left := React(flags, p, c, ids[k]).left;
    DueExists(p, c, ids[k]);
    ReactFails(flags, p, c, ids[k], ids[k]);
    forall i: Id | Exists(i) && i.to == p && Used(left, i)
      ensures Used(c, i) || i == ids[k]
    {
      ReactFails(flags, p, c, ids[k], i);
    }
    QueueRest(p, c, ids, k, left);
  }

  lemma DueExists(p: nat, c: Ctl, id: Id)
    requires Due(p, c, id)
    ensures Exists(id)
  {
  }

  /** The first reaction of a call and what follows it. */
  lemma AccountsCompose(p: nat, c: Ctl, ids: seq<Id>, k: nat, c1: Ctl, outs: seq<Id>, d: Driven<Ctl, Id, ProtocolError>, i: Id)
    requires k < |ids| && Own(p, outs) && EndsWell(p, c1, d) && !Stuck(c1) && Accounts(p, c1, Without(ids, k), d, i)
    requires Received(p, c, ids, c1, Without(ids, k), i) && Emitted(p, c, c1, outs, i)
    ensures EndsWell(p, c, Sending(outs, d)) && Accounts(p, c, ids, Sending(outs, d), i)
  {
    hide Used, Sent, Possible, Count, Queue, Own, Stuck, Without, B;
    EmittedCompose(p, c, c1, outs, d.state, d.outs, i);
    OwnConcat(p, outs, d.outs);
  }

  lemma EmittedCompose(p: nat, c: Ctl, c1: Ctl, outs: seq<Id>, c2: Ctl, more: seq<Id>, i: Id)
    requires Emitted(p, c, c1, outs, i)
    ensures Emitted(p, c1, c2, more, i) ==> Emitted(p, c, c2, outs + more, i)
  {
    hide Used, Sent, Count;
    CountConcat(outs, more, i);
  }

  lemma ReactionAccounts(flags: Flags, p: nat, c: Ctl, ids: seq<Id>, k: nat, i: Id)
    requires k < |ids| && Due(p, c, ids[k]) && Exists(i)
    ensures var h := React(flags, p, c, ids[k]);
            (!h.NotReady? ==> Own(p, h.outs)) &&
            (h.Consumed? ==> Received(p, c, ids, h.next, Without(ids, k), i) && Emitted(p, c, h.next, h.outs, i)) &&
            (h.Failed? ==> NoneMadeUp(p, c, ids, h.left, Without(ids, k), i) && Emitted(p, c, h.left, h.outs, i))
  {
    hide React, Used, Sent, Possible, Count, Exists;
    var h := React(flags, p, c, ids[k]);
    ReactFacts(flags, p, c, ids[k], i);
    CountWithout(ids, k, i);
    if !h.NotReady? {
      SendsOwnAt(flags, p, c, ids[k]);
      CountOuts(p, h.outs, i);
      OutsOwn(p, h.outs);
      ReactFails(flags, p, c, ids[k], i);
    }
  }

  /** A call keeps account of every message to and from the party. */
  lemma {:induction false} DriveAccounts(flags: Flags, p: nat, c: Ctl, ids: seq<Id>, i: Id)
    requires p < 3 && Possible(p, c) && !Ended(c) && Queue(p, c, ids) && Exists(i)
    ensures var d := Drive(ReactWith(flags, p), Ended, c, ids);
            EndsWell(p, c, d) && Accounts(p, c, ids, d, i)
    decreases |ids|
  {
    hide React, Used, Sent, Possible, Count, Exists, Queue, Due, Own, Stuck;
    var k := FirstReady(ReactWith(flags, p), c, ids, 0);
    if k == |ids| {
      OwnNothing(p, c, i);
    } else {
      QueueDue(p, c, ids, k);
      ReactionAccounts(flags, p, c, ids, k, i);
      var h := React(flags, p, c, ids[k]);
      if h.Consumed? {
        QueueStep(flags, p, c, ids, k);
        if Ended(h.next) {
          NothingLeft(p, h.next, Without(ids, k));
        } else {
          DriveAccounts(flags, p, h.next, Without(ids, k), i);
          AccountsCompose(p, c, ids, k, h.next, h.outs, Drive(ReactWith(flags, p), Ended, h.next, Without(ids, k)), i);
        }
      } else {
        QueueFails(flags, p, c, ids, k);
      }
    }
  }

  lemma QueueDue(p: nat, c: Ctl, ids: seq<Id>, k: nat)
    requires Queue(p, c, ids) && k < |ids|
    ensures Due(p, c, ids[k])
  {
  }

  lemma SendsOwnAt(flags: Flags, p: nat, c: Ctl, id: Id)
    requires Due(p, c, id)
    ensures !React(flags, p, c, id).NotReady? ==> OutsOf(p, React(flags, p, c, id).outs)
  {
    hide React, Exists, OutsOf;
    if Stage(c) <= 1 {
      OutsSetup(flags, p, c, id);
    } else if Stage(c) == 2 {
      OutsShamir(flags, p, c, id);
    } else if Stage(c) <= 4 {
      OutsMiddle(flags, p, c, id);
    } else {
      OutsLate(flags, p, c, id);
    }
  }

  lemma OwnNothing(p: nat, c: Ctl, i: Id)
    ensures Own(p, []) && Count([], i) == 0
  {
  }

  lemma OutsOwn(p: nat, outs: seq<Id>)
    requires OutsOf(p, outs)
    ensures Own(p, outs)
  {
  }

  lemma OwnConcat(p: nat, a: seq<Id>, b: seq<Id>)
    requires Own(p, a) && Own(p, b)
    ensures Own(p, a + b)
  {
  }

  /** A finished party has an empty queue. */
  lemma NothingLeft(p: nat, c: Ctl, ids: seq<Id>)
    requires Ended(c) && Queue(p, c, ids)
    ensures ids == []
  {
    if ids != [] {
      assert Due(p, c, ids[0]);
      DueNotDone(p, c, ids[0]);
    }
  }

  // ----- the three parties -----

  datatype Party = Party(ctl: Ctl, pending: seq<Id>, failed: bool)

  datatype Sys = Sys(parties: seq<Party>, inflight: seq<Id>)

  function Init(): Sys {
    Sys([Party(CWaitCrs, [], false), Party(CWaitCrs, [], false), Party(CWaitKey, [], false)],
        [Id(KCommCrs, 2, 0), Id(KCommCrs, 2, 1)])
  }

  /** A session that has returned an error may be called again; `failed` remembers the error. */
  function Receive(flags: Flags, p: nat, party: Party, id: Id): (Party, seq<Id>) {
    if Ended(party.ctl) then (party, [])
    else
      match Drive(ReactWith(flags, p), Ended, party.ctl, party.pending + [id])
      case Settled(c, pending, outs) => (Party(c, pending, party.failed), outs)
      case Finished(c, outs) => (Party(c, [], party.failed), outs)
      case Broken(_, c, pending, outs) => (Party(c, pending, true), outs)
  }

  /** The scheduler delivers message `k` of those in flight. */
  function Step(flags: Flags, sys: Sys, k: nat): (r: Sys)
    requires |sys.parties| == 3
    ensures |r.parties| == 3
  {
    if k >= |sys.inflight| || sys.inflight[k].to >= 3 then sys
    else
      var id := sys.inflight[k];
      var (party, outs) := Receive(flags, id.to, sys.parties[id.to], id);
      Sys(sys.parties[id.to := party], Without(sys.inflight, k) + outs)
  }

  function Run(flags: Flags, schedule: seq<nat>): (r: Sys)
    ensures |r.parties| == 3
  {
    if schedule == [] then Init() else Step(flags, Run(flags, schedule[..|schedule| - 1]), schedule[|schedule| - 1])
  }

  /** A party between two calls. Without errors, what is pending is what the phase asks to keep. */
  ghost predicate Resting(flags: Flags, p: nat, party: Party) {
    Possible(p, party.ctl) && Queue(p, party.ctl, party.pending) && (Ended(party.ctl) ==> party.pending == []) &&
    (!party.failed ==>
       !Stuck(party.ctl) && forall k | 0 <= k < |party.pending| :: React(flags, p, party.ctl, party.pending[k]).NotReady?)
  }

  /** The copies of message `i`: in flight, queued at its receiver, or used. */
  function Copies(sys: Sys, i: Id): nat
    requires |sys.parties| == 3 && i.to < 3
  {
    Count(sys.inflight, i) + Count(sys.parties[i.to].pending, i) + B(Used(sys.parties[i.to].ctl, i))
  }

  /** There is at most one copy of what was sent, and exactly one if its receiver has not failed; of
      nothing else there is a copy. */
  predicate Balanced(sys: Sys, i: Id)
    requires |sys.parties| == 3 && i.from < 3 && i.to < 3
  {
    var sent := B(Sent(sys.parties[i.from].ctl, i));
    Copies(sys, i) <= sent && (!sys.parties[i.to].failed ==> Copies(sys, i) == sent)
  }

  lemma ExistsBetween(i: Id)
    requires Exists(i)
    ensures i.from < 3 && i.to < 3 && i.from != i.to
  {
  }

  ghost predicate Inv(flags: Flags, sys: Sys) {
    |sys.parties| == 3 && (forall k | 0 <= k < |sys.inflight| :: Exists(sys.inflight[k])) &&
    (forall p | 0 <= p < 3 :: Resting(flags, p, sys.parties[p])) &&
    forall i: Id | Exists(i) && i.from < 3 && i.to < 3 :: Balanced(sys, i)
  }

  lemma InitInv(flags: Flags)
    ensures Inv(flags, Init())
  {
    hide React, Count, Used, Sent;
    var sys := Init();
    forall p | 0 <= p < 3
      ensures Resting(flags, p, sys.parties[p])
    {
      EmptyQueue(p, sys.parties[p].ctl);
    }
    forall i: Id | Exists(i) && i.from < 3 && i.to < 3
      ensures Balanced(sys, i)
    {
      InitBalanced(i);
    }
  }

  lemma InitBalanced(i: Id)
    requires Exists(i) && i.from < 3 && i.to < 3
    ensures Balanced(Init(), i)
  {
    assert Init().inflight == [Id(KCommCrs, 2, 0)] + [Id(KCommCrs, 2, 1)];
  }

  /** A message in flight can be queued at its receiver. */
  lemma Deliverable(flags: Flags, sys: Sys, k: nat)
    requires Inv(flags, sys) && k < |sys.inflight|
    ensures var id := sys.inflight[k]; var party := sys.parties[id.to];
            !Ended(party.ctl) && Due(id.to, party.ctl, id) && Queue(id.to, party.ctl, party.pending + [id])
  {
    hide React, Sent, Possible, Exists, Count;
    var id := sys.inflight[k];
    ExistsBetween(id);
    var party := sys.parties[id.to];
    assert Balanced(sys, id) && Resting(flags, id.to, party);
    CountIn(sys.inflight, id);
    assert Due(id.to, party.ctl, id);
    DueNotDone(id.to, party.ctl, id);
    forall i: Id
      ensures Count(party.pending + [id], i) <= 1
    {
      CountConcat(party.pending, [id], i);
      CountOne(id, i);
      assert Count(party.pending, i) <= 1;
    }
  }

  lemma CountOne(id: Id, i: Id)
    ensures Count([id], i) == B(id == i)
  {
  }

  lemma OwnCount(p: nat, outs: seq<Id>, i: Id)
    requires Own(p, outs) && i.from != p
    ensures Count(outs, i) == 0
  {
    CountIn(outs, i);
  }

  /** The books after one delivery. */
  lemma StepBalanced(flags: Flags, sys: Sys, k: nat, i: Id)
    requires Inv(flags, sys) && k < |sys.inflight| && Exists(i) && i.from < 3 && i.to < 3
    ensures Balanced(Step(flags, sys, k), i)
  {
    hide React, Used, Sent, Possible, Exists, Count, Queue, Resting, Due;
    var id := sys.inflight[k];
    var p := id.to;
    ExistsBetween(id);
    ExistsBetween(i);
    assert Balanced(sys, i);
    var party := sys.parties[p];
    var (party', outs) := Receive(flags, p, party, id);
    CountWithout(sys.inflight, k, i);
    CountConcat(Without(sys.inflight, k), outs, i);
    Deliverable(flags, sys, k);
    RestingPossible(flags, p, party);
    DriveAccounts(flags, p, party.ctl, party.pending + [id], i);
    CountConcat(party.pending, [id], i);
    CountOne(id, i);
    OwnNothing(p, party.ctl, i);
    if i.from != p {
      OwnCount(p, outs, i);
    }
  }

  lemma RestingPossible(flags: Flags, p: nat, party: Party)
    requires Resting(flags, p, party)
    ensures Possible(p, party.ctl)
  {
  }

  lemma ReceiveRests(flags: Flags, sys: Sys, k: nat)
    requires Inv(flags, sys) && k < |sys.inflight|
    ensures var id := sys.inflight[k];
            var (party, outs) := Receive(flags, id.to, sys.parties[id.to], id);
            Resting(flags, id.to, party) && Own(id.to, outs)
  {
    hide React, Used, Sent, Possible, Exists, Count, Queue, Due;
    var id := sys.inflight[k];
    var p := id.to;
    ExistsBetween(id);
    var party := sys.parties[p];
    assert Resting(flags, p, party);
    Deliverable(flags, sys, k);
    DriveAccounts(flags, p, party.ctl, party.pending + [id], id);
    var d := Drive(ReactWith(flags, p), Ended, party.ctl, party.pending + [id]);
    SettledNotReady(ReactWith(flags, p), Ended, party.ctl, party.pending + [id]);
    if d.Finished? {
      EndedPossible(p, d.state);
      EmptyQueue(p, d.state);
    } else if d.Settled? {
      forall j | 0 <= j < |d.pending|
        ensures React(flags, p, d.state, d.pending[j]).NotReady?
      {
        assert ReactWith(flags, p)(d.state, d.pending[j]).NotReady?;
      }
    }
  }

  lemma EndedPossible(p: nat, c: Ctl)
    requires p < 3 && Ended(c)
    ensures Possible(p, c) && !Stuck(c)
  {
  }

  lemma EmptyQueue(p: nat, c: Ctl)
    ensures Queue(p, c, [])
  {
  }

  lemma StepInv(flags: Flags, sys: Sys, k: nat)
    requires Inv(flags, sys)
    ensures Inv(flags, Step(flags, sys, k))
  {
    hide React, Used, Sent, Possible, Exists, Count, Queue, Due, Receive, Resting, Balanced;
    if k < |sys.inflight| && sys.inflight[k].to < 3 {
      var id := sys.inflight[k];
      var next := Step(flags, sys, k);
      ReceiveRests(flags, sys, k);
      forall i: Id | Exists(i) && i.from < 3 && i.to < 3
        ensures Balanced(next, i)
      {
        StepBalanced(flags, sys, k, i);
      }
    }
  }

  /** Every reachable system is balanced and at rest, whatever the scheduler does. */
  lemma {:induction false} RunInv(flags: Flags, schedule: seq<nat>)
    ensures Inv(flags, Run(flags, schedule))
  {
    hide Inv, Step;
    if schedule == [] {
      InitInv(flags);
    } else {
      RunInv(flags, schedule[..|schedule| - 1]);
      StepInv(flags, Run(flags, schedule[..|schedule| - 1]), schedule[|schedule| - 1]);
    }
  }
}
