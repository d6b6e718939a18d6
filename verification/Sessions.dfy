/** One party's derivation session (`crates/zcash/src/derivation_session.rs`). */
module Sessions {
  import opened Wrappers
  import opened LabelPrfs
  import Garbling
  import Setup
  import opened Replay
  import opened Phases

  const DERIVATION_PARTIES: nat := 3

  datatype Status = Waiting | Complete | AbortedBy(party: nat)

  datatype Snapshot = Snapshot(state: State, pending: seq<Message>)

  datatype Handling = Handling(after: Snapshot, result: Result<Status, ProtocolError>, outs: seq<Message>)

  predicate IsDone(s: State) {
    s.phase.Done?
  }

  function HandleWith(env: Env): (State, Message) -> Handled<State, Message, ProtocolError>
    requires env.q > 1
  {
    (s: State, m: Message) => Handle(env, s, m)
  }

  // ----- the checks before anything is handled -----

  datatype Screening = Clear | AbortFrom(party: nat) | WrongReceiver

  /** The first message that is an abort, which is broadcast, or that is for somebody else. */
  function Screen(id: nat, messages: seq<Message>): Screening {
    if messages == [] then Clear
    else if messages[0].body.Abort? then AbortFrom(messages[0].from)
    else if messages[0].to != id then WrongReceiver
    else Screen(id, messages[1..])
  }

  predicate Addressed(id: nat, messages: seq<Message>) {
    forall k | 0 <= k < |messages| :: messages[k].to == id && !messages[k].body.Abort?
  }

  lemma {:induction false} ScreenClearIff(id: nat, messages: seq<Message>)
    ensures Screen(id, messages) == Clear <==> Addressed(id, messages)
  {
    if messages != [] {
      ScreenClearIff(id, messages[1..]);
      assert messages == [messages[0]] + messages[1..];
    }
  }

  /** What handling a batch of messages does to the session. */
  function HandleAll(env: Env, sn: Snapshot, messages: seq<Message>): Handling
    requires env.q > 1
  {
    match sn.state.phase
    case Done(_) => Handling(sn, Ok(Complete), [])
    case Aborted(f) => Handling(sn, Ok(AbortedBy(f)), [])
    case _ =>
      match Screen(sn.state.ctx.partyId, messages)
      case AbortFrom(f) => Handling(Snapshot(sn.state.(phase := Aborted(f)), []), Ok(AbortedBy(f)), [])
      case WrongReceiver => Handling(sn, Err(InvalidMessage), [])
      case Clear => Outcome(Drive(HandleWith(env), IsDone, sn.state, sn.pending + messages))
  }

  function Outcome(d: Driven<State, Message, ProtocolError>): Handling {
    match d
    case Settled(s, p, outs) => Handling(Snapshot(s, p), Ok(Waiting), outs)
    case Finished(s, outs) => Handling(Snapshot(s, []), Ok(Complete), outs)
    case Broken(e, s, p, outs) => Handling(Snapshot(s, p), Err(e), outs)
  }

  class Session {
    const env: Env
    var context: Context
    var phase: Phase
    var pending: seq<Message>

    function Snap(): Snapshot
      reads this
    {
      Snapshot(State(context, phase), pending)
    }

    constructor (env: Env, partyId: nat, share: int, seed: Seed, pad: seq<bool>)
      requires partyId < DERIVATION_PARTIES
      ensures this.env == env
      ensures Snap() == Snapshot(StartSetup(env, Context(partyId, share, seed, pad, None)).0, [])
    {
      this.env := env;
      context := Context(partyId, share, seed, pad, None);
      phase := StartSetup(env, Context(partyId, share, seed, pad, None)).0.phase;
      pending := [];
    }

    /** `new_with_seed`: an unknown party is refused. */
    static method NewWithSeed(env: Env, partyId: nat, share: int, seed: Seed, pad: seq<bool>)
      returns (r: Option<Session>, outgoing: seq<Message>)
      ensures r.Some? <==> partyId < DERIVATION_PARTIES
      ensures r.Some? ==>
        fresh(r.value) && r.value.env == env &&
        (r.value.Snap().state, outgoing) == StartSetup(env, Context(partyId, share, seed, pad, None)) &&
        r.value.Snap().pending == []
      ensures r.None? ==> outgoing == []
    {
      if partyId >= DERIVATION_PARTIES {
        return None, [];
      }
      var session := new Session(env, partyId, share, seed, pad);
      outgoing := StartSetup(env, Context(partyId, share, seed, pad, None)).1;
      r := Some(session);
    }

    method ScreenMessages(messages: seq<Message>) returns (r: Screening)
      ensures r == Screen(context.partyId, messages)
    {
      for k := 0 to |messages|
        invariant Screen(context.partyId, messages) == Screen(context.partyId, messages[k..])
      {
        var message := messages[k];
        assert messages[k..][1..] == messages[k + 1..];
        if message.body.Abort? {
          return AbortFrom(message.from);
        }
        if message.to != context.partyId {
          return WrongReceiver;
        }
      }
      r := Clear;
    }

    /** Looks for the first pending message that the phase handles, taking each out and putting it
        back in its place when the phase is not ready for it. */
    method HandleFirstReady() returns (h: Option<Handled<State, Message, ProtocolError>>)
      requires env.q > 1
      modifies this`pending
      ensures var p, s := old(pending), State(context, phase);
              var i := FirstReady(HandleWith(env), s, p, 0);
              if i == |p| then h == None && pending == p
              else h == Some(HandleWith(env)(s, p[i])) && pending == Without(p, i)
    {
      hide Handle;
      ghost var p := pending;
      ghost var s := State(context, phase);
      var idx := 0;
      while idx < |pending|
        invariant idx <= |pending| && pending == p
        invariant FirstReady(HandleWith(env), s, p, 0) == FirstReady(HandleWith(env), s, p, idx)
      {
        var message := pending[idx];
        pending := Without(pending, idx);
        var handled := Handle(env, State(context, phase), message);
        if handled.NotReady? {
          pending := pending[..idx] + [message] + pending[idx..];
          assert pending == p;
          idx := idx + 1;
        } else {
          return Some(handled);
        }
      }
      h := None;
    }

    /** The replay loop. */
    method ReplayPending(outgoing: seq<Message>) returns (r: Result<Status, ProtocolError>, sent: seq<Message>)
      requires env.q > 1 && !phase.Done?
      modifies this`context, this`phase, this`pending
      ensures var d := Drive(HandleWith(env), IsDone, old(State(context, phase)), old(pending));
              Outcome(d) == Handling(Snap(), r, d.outs) && sent == outgoing + d.outs
    {
      hide Handle, FirstReady, Drive, Without, HandleWith, Sending, StartSetup;
      ghost var h := HandleWith(env);
      ghost var all := Drive(h, IsDone, State(context, phase), pending);
      ghost var outs: seq<Message> := [];
      SendingNothing(all);
      sent := outgoing;
      var progressed := true;
      while progressed
        invariant sent == outgoing + outs && !phase.Done?
        invariant all == Sending(outs, Drive(h, IsDone, State(context, phase), pending))
        invariant !progressed ==> all == Settled(State(context, phase), pending, outs)
        decreases |pending|, progressed
      {
        progressed := false;
        DriveRound(h, IsDone, State(context, phase), pending, outs);
        var handled := HandleFirstReady();
        match handled {
          case None =>
          case Some(Consumed(next, more)) =>
            context, phase := next.ctx, next.phase;
            sent := sent + more;
            if phase.Done? {
              pending := [];
              return Ok(Complete), sent;
            }
            outs := outs + more;
            progressed := true;
          case Some(Failed(e, left, more)) =>
            context, phase := left.ctx, left.phase;
            sent := sent + more;
            return Err(e), sent;
          case Some(NotReady) => assert false;
        }
      }
      r := Ok(Waiting);
    }

    /** Queues the messages and replays the queue until nothing moves. It always ends, and its
        effect is the one above. */
    method HandleMessages(messages: seq<Message>, outgoing: seq<Message>)
      returns (r: Result<Status, ProtocolError>, sent: seq<Message>)
      requires env.q > 1
      modifies this`context, this`phase, this`pending
      ensures var h := HandleAll(env, old(Snap()), messages);
              h == Handling(Snap(), r, h.outs) && sent == outgoing + h.outs
    {
      hide Handle, Drive;
      sent := outgoing;
      if phase.Done? {
        return Ok(Complete), sent;
      }
      if phase.Aborted? {
        return Ok(AbortedBy(phase.culprit)), sent;
      }
      var screening := ScreenMessages(messages);
      match screening {
        case AbortFrom(f) =>
          pending := [];
          phase := Aborted(f);
          return Ok(AbortedBy(f)), sent;
        case WrongReceiver =>
          return Err(InvalidMessage), sent;
        case Clear =>
          pending := pending + messages;
          r, sent := ReplayPending(outgoing);
      }
    }

    method DerivedKeys() returns (keys: Option<OrchardKeys>)
      ensures keys == if phase.Done? then Some(phase.keys) else None
    {
      keys := if phase.Done? then Some(phase.keys) else None;
    }
  }

  // ----- properties -----

  /** After a call that succeeds, what is still pending is what the phase asks to keep; nothing is
      pending once the session is done or aborted. */
  lemma PendingNotReady(env: Env, sn: Snapshot, messages: seq<Message>)
    requires env.q > 1 && (sn.state.phase.Done? || sn.state.phase.Aborted? ==> sn.pending == [])
    ensures var h := HandleAll(env, sn, messages);
            h.result.Ok? ==>
              var s := h.after.state;
              if s.phase.Done? || s.phase.Aborted? then h.after.pending == []
              else forall k | 0 <= k < |h.after.pending| :: Handle(env, s, h.after.pending[k]).NotReady?
  {
    hide Handle, Drive;
    SettledNotReady(HandleWith(env), IsDone, sn.state, sn.pending + messages);
    FinishedIsDone(HandleWith(env), IsDone, sn.state, sn.pending + messages);
    DrivenKeepsParty(env, sn.state, sn.pending + messages);
    var h := HandleAll(env, sn, messages);
    if h.result.Ok? && !h.after.state.phase.Done? && !h.after.state.phase.Aborted? {
      forall k | 0 <= k < |h.after.pending|
        ensures Handle(env, h.after.state, h.after.pending[k]).NotReady?
      {
        assert HandleWith(env)(h.after.state, h.after.pending[k]).NotReady?;
      }
    }
  }

  /** The first message of a batch that is an abort or for somebody else decides: an abort ends the
      session and drops what was pending, a message for somebody else leaves it as it was. */
  lemma FirstOddMessageDecides(env: Env, sn: Snapshot, before: seq<Message>, m: Message, after: seq<Message>)
    requires env.q > 1 && !sn.state.phase.Done? && !sn.state.phase.Aborted?
    requires Addressed(sn.state.ctx.partyId, before) && (m.body.Abort? || m.to != sn.state.ctx.partyId)
    ensures HandleAll(env, sn, before + [m] + after)
         == if m.body.Abort? then Handling(Snapshot(sn.state.(phase := Aborted(m.from)), []), Ok(AbortedBy(m.from)), [])
            else Handling(sn, Err(InvalidMessage), [])
  {
    ScreenSkips(sn.state.ctx.partyId, before, [m] + after);
    assert before + [m] + after == before + ([m] + after);
  }

  lemma {:induction false} ScreenSkips(id: nat, before: seq<Message>, rest: seq<Message>)
    requires Addressed(id, before)
    ensures Screen(id, before + rest) == Screen(id, rest)
  {
    if before == [] {
      assert before + rest == rest;
    } else {
      assert (before + rest)[0] == before[0] && (before + rest)[1..] == before[1..] + rest;
      ScreenSkips(id, before[1..], rest);
    }
  }

  /** A session that is done or aborted stays so, and sends nothing more. */
  lemma EndIsFinal(env: Env, sn: Snapshot, messages: seq<Message>)
    requires env.q > 1 && (sn.state.phase.Done? || sn.state.phase.Aborted?)
    ensures var h := HandleAll(env, sn, messages);
            h.after == sn && h.outs == [] &&
            h.result == Ok(if sn.state.phase.Done? then Complete else AbortedBy(sn.state.phase.culprit))
  {
  }

  lemma AddressedConcat(id: nat, a: seq<Message>, b: seq<Message>)
    requires Addressed(id, a + b)
    ensures Addressed(id, a) && Addressed(id, b)
  {
    assert forall k | 0 <= k < |a| :: (a + b)[k] == a[k];
    assert forall k | 0 <= k < |b| :: (a + b)[|a| + k] == b[k];
  }

  lemma {:induction false} DrivenKeepsParty(env: Env, s: State, pending: seq<Message>)
    requires env.q > 1
    ensures var d := Drive(HandleWith(env), IsDone, s, pending);
            d.Settled? ==> d.state.ctx.partyId == s.ctx.partyId && (d.state.phase.Aborted? ==> s.phase.Aborted?) &&
                           (d.state.phase.Done? ==> s.phase.Done?)
    decreases |pending|
  {
    var i := FirstReady(HandleWith(env), s, pending, 0);
    if i < |pending| && Handle(env, s, pending[i]).Consumed? && !Handle(env, s, pending[i]).next.phase.Done? {
      DrivenKeepsParty(env, Handle(env, s, pending[i]).next, Without(pending, i));
      HandleKeepsParty(env, s, pending[i]);
    }
  }

  predicate SameParty(s: State, h: Handled<State, Message, ProtocolError>) {
    h.Consumed? ==> h.next.ctx.partyId == s.ctx.partyId && !h.next.phase.Aborted?
  }

  lemma SetupKeepsParty(env: Env, s: State, m: Message)
    requires env.q > 1 && (s.phase.WaitCrs? || s.phase.WaitPrf? || s.phase.WaitGarbleKey?)
    ensures SameParty(s, HandleSetup(env, s, m))
  {
    hide Garbling.GarbleAll, Setup.Expand;
  }

  lemma CommonRandomnessKeepsParty(env: Env, s: State, m: Message)
    requires env.q > 1 && (s.phase.CommonRandomness?)
    ensures SameParty(s, HandleCommonRandomness(env, s, m))
  {
    hide Garbling.GarbleAll, Setup.Expand;
  }

  lemma ShamirToRssKeepsParty(env: Env, s: State, m: Message)
    requires env.q > 1 && (s.phase.ShamirToRssPhase?)
    ensures SameParty(s, HandleShamirToRss(env, s, m))
  {
    hide Garbling.GarbleAll, Setup.Expand;
  }

  lemma BatchInputKeepsParty(env: Env, s: State, m: Message)
    requires env.q > 1 && (s.phase.GarblerWaitEvalBits? || s.phase.EvaluatorWaitMsg1? || s.phase.EvaluatorWaitMsg2?)
    ensures SameParty(s, HandleBatchInput(env, s, m))
  {
    hide Garbling.GarbleAll, Setup.Expand;
  }

  lemma CircuitKeepsParty(env: Env, s: State, m: Message)
    requires env.q > 1 && (s.phase.CircuitEval?)
    ensures SameParty(s, HandleCircuit(env, s, m))
  {
    hide Garbling.GarbleAll, Setup.Expand;
  }

  lemma VerificationKeepsParty(env: Env, s: State, m: Message)
    requires env.q > 1 && (s.phase.GarblerWaitLabel? || s.phase.EvaluatorWaitBits?)
    ensures SameParty(s, HandleVerification(env, s, m))
  {
    hide Garbling.GarbleAll, Setup.Expand;
  }

  lemma OutputKeepsParty(env: Env, s: State, m: Message)
    requires env.q > 1 && (s.phase.GarblerWaitLabels? || s.phase.EvaluatorWaitOutputs?)
    ensures SameParty(s, HandleOutput(env, s, m))
  {
    hide Garbling.GarbleAll, Setup.Expand;
  }

  lemma HandleKeepsParty(env: Env, s: State, m: Message)
    requires env.q > 1
    ensures var h := Handle(env, s, m);
            h.Consumed? ==> h.next.ctx.partyId == s.ctx.partyId && (h.next.phase.Aborted? ==> s.phase.Aborted?)
  {
    hide HandleSetup, HandleCommonRandomness, HandleShamirToRss, HandleBatchInput, HandleCircuit, HandleVerification, HandleOutput;
    match s.phase {
      case Done(_) =>
      case Aborted(_) =>
      case CommonRandomness(_, _) => CommonRandomnessKeepsParty(env, s, m);
      case ShamirToRssPhase(_, _, _, _, _) => ShamirToRssKeepsParty(env, s, m);
      case CircuitEval(_, _, _) => CircuitKeepsParty(env, s, m);
      case GarblerWaitLabel(_, _) => VerificationKeepsParty(env, s, m);
      case EvaluatorWaitBits(_, _, _) => VerificationKeepsParty(env, s, m);
      case GarblerWaitLabels(_) => OutputKeepsParty(env, s, m);
      case EvaluatorWaitOutputs(_, _) => OutputKeepsParty(env, s, m);
      case WaitCrs => SetupKeepsParty(env, s, m);
      case WaitPrf(_) => SetupKeepsParty(env, s, m);
      case WaitGarbleKey(_) => SetupKeepsParty(env, s, m);
      case _ => BatchInputKeepsParty(env, s, m);
    }
  }

  /** Batching is immaterial: for messages to this party and no abort, handling `a` and `b` at once
      is handling `a` and then `b`, unless handling `a` already fails. */
  lemma BatchingImmaterial(env: Env, sn: Snapshot, a: seq<Message>, b: seq<Message>)
    requires env.q > 1 && Addressed(sn.state.ctx.partyId, a + b)
    ensures var both, first := HandleAll(env, sn, a + b), HandleAll(env, sn, a);
            first.result.Ok? ==>
              var second := HandleAll(env, first.after, b);
              both == Handling(second.after, second.result, first.outs + second.outs)
    ensures HandleAll(env, sn, a).result.Err? ==>
      HandleAll(env, sn, a + b).result == HandleAll(env, sn, a).result
  {
    hide Handle, Drive;
    var id := sn.state.ctx.partyId;
    AddressedConcat(id, a, b);
    ScreenClearIff(id, a);
    ScreenClearIff(id, b);
    ScreenClearIff(id, a + b);
    assert sn.pending + (a + b) == (sn.pending + a) + b;
    DriveAppend(HandleWith(env), IsDone, sn.state, sn.pending + a, b);
    DrivenKeepsParty(env, sn.state, sn.pending + a);
    FinishedIsDone(HandleWith(env), IsDone, sn.state, sn.pending + a);
  }
}
