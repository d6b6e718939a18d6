/** The buffer-and-replay loop of `Session::handle_messages`
    (`crates/zcash/src/derivation_session.rs`), for any message handler. */
module Replay {
  /** What a handler does with one message. A failing handler may leave a changed state behind and
      may already have sent something. */
  datatype Handled<S, M, E> =
    | Consumed(next: S, outs: seq<M>)
    | NotReady
    | Failed(error: E, left: S, outs: seq<M>)

  datatype Driven<S, M, E> =
    | Settled(state: S, pending: seq<M>, outs: seq<M>)
    | Finished(state: S, outs: seq<M>)
    | Broken(error: E, state: S, pending: seq<M>, outs: seq<M>)

  /** The first message from `idx` on that the state does not ask to keep. */
  function FirstReady<S, M, E>(handle: (S, M) -> Handled<S, M, E>, s: S, pending: seq<M>, idx: nat): (i: nat)
    requires idx <= |pending|
    ensures idx <= i <= |pending|
    ensures forall k | idx <= k < i :: handle(s, pending[k]).NotReady?
    ensures i < |pending| ==> !handle(s, pending[i]).NotReady?
    decreases |pending| - idx
  {
    if idx == |pending| || !handle(s, pending[idx]).NotReady? then idx
    else FirstReady(handle, s, pending, idx + 1)
  }

  function Without<M>(pending: seq<M>, i: nat): (r: seq<M>)
    requires i < |pending|
    ensures |r| == |pending| - 1
  {
    pending[..i] + pending[i + 1..]
  }

  function Sending<S, M, E>(outs: seq<M>, d: Driven<S, M, E>): Driven<S, M, E> {
    match d
    case Settled(s, p, o) => Settled(s, p, outs + o)
    case Finished(s, o) => Finished(s, outs + o)
    case Broken(e, s, p, o) => Broken(e, s, p, outs + o)
  }

  /** Handle the first ready message and start over, until none is ready, the session is done, or a
      handler fails. */
  function Drive<S, M, E>(handle: (S, M) -> Handled<S, M, E>, done: S -> bool, s: S, pending: seq<M>): Driven<S, M, E>
    decreases |pending|
  {
    var i := FirstReady(handle, s, pending, 0);
    if i == |pending| then Settled(s, pending, [])
    else
      match handle(s, pending[i])
      case Consumed(next, outs) =>
        if done(next) then Finished(next, outs) else Sending(outs, Drive(handle, done, next, Without(pending, i)))
      case Failed(e, left, outs) => Broken(e, left, Without(pending, i), outs)
      case NotReady => Settled(s, pending, [])
  }

  /** One round of the loop, after `outs` have been sent. */
  lemma DriveRound<S, M, E>(handle: (S, M) -> Handled<S, M, E>, done: S -> bool, s: S, pending: seq<M>, outs: seq<M>)
    ensures var i := FirstReady(handle, s, pending, 0);
            var all := Sending(outs, Drive(handle, done, s, pending));
            if i == |pending| then all == Settled(s, pending, outs)
            else match handle(s, pending[i])
              case Consumed(next, more) =>
                all == if done(next) then Finished(next, outs + more) else Sending(outs + more, Drive(handle, done, next, Without(pending, i)))
              case Failed(e, left, more) => all == Broken(e, left, Without(pending, i), outs + more)
              case NotReady => false
  {
    hide FirstReady;
    var i := FirstReady(handle, s, pending, 0);
    if i < |pending| && handle(s, pending[i]).Consumed? {
      var h := handle(s, pending[i]);
      SendingTwice(outs, h.outs, Drive(handle, done, h.next, Without(pending, i)));
    }
  }

  lemma SendingTwice<S, M, E>(a: seq<M>, b: seq<M>, d: Driven<S, M, E>)
    ensures Sending(a, Sending(b, d)) == Sending(a + b, d)
  {
    match d {
      case Settled(_, _, o) => assert a + (b + o) == a + b + o;
      case Finished(_, o) => assert a + (b + o) == a + b + o;
      case Broken(_, _, _, o) => assert a + (b + o) == a + b + o;
    }
  }

  /** What is left over is what the resulting state asks to keep. */
  lemma {:induction false} SettledNotReady<S, M, E>(handle: (S, M) -> Handled<S, M, E>, done: S -> bool, s: S, pending: seq<M>)
    ensures var d := Drive(handle, done, s, pending);
            d.Settled? ==> forall k | 0 <= k < |d.pending| :: handle(d.state, d.pending[k]).NotReady?
    decreases |pending|
  {
    var i := FirstReady(handle, s, pending, 0);
    if i < |pending| && handle(s, pending[i]).Consumed? && !done(handle(s, pending[i]).next) {
      SettledNotReady(handle, done, handle(s, pending[i]).next, Without(pending, i));
    }
  }

  lemma {:induction false} FinishedIsDone<S, M, E>(handle: (S, M) -> Handled<S, M, E>, done: S -> bool, s: S, pending: seq<M>)
    ensures Drive(handle, done, s, pending).Finished? ==> done(Drive(handle, done, s, pending).state)
    decreases |pending|
  {
    var i := FirstReady(handle, s, pending, 0);
    if i < |pending| && handle(s, pending[i]).Consumed? && !done(handle(s, pending[i]).next) {
      FinishedIsDone(handle, done, handle(s, pending[i]).next, Without(pending, i));
    }
  }

  /** Messages added behind others wait until those have settled. */
  function Then<S, M, E>(handle: (S, M) -> Handled<S, M, E>, done: S -> bool, first: Driven<S, M, E>, more: seq<M>)
    : Driven<S, M, E>
  {
    match first
    case Settled(s, p, outs) => Sending(outs, Drive(handle, done, s, p + more))
    case Finished(s, outs) => first
    case Broken(e, s, p, outs) => Broken(e, s, p + more, outs)
  }

  lemma {:induction false} FirstReadyAppend<S, M, E>(handle: (S, M) -> Handled<S, M, E>, s: S, p: seq<M>, more: seq<M>, idx: nat)
    requires idx <= |p| && FirstReady(handle, s, p, idx) < |p|
    ensures FirstReady(handle, s, p + more, idx) == FirstReady(handle, s, p, idx)
    decreases |p| - idx
  {
    assert (p + more)[idx] == p[idx];
    if handle(s, p[idx]).NotReady? {
      FirstReadyAppend(handle, s, p, more, idx + 1);
    }
  }

  lemma ThenSending<S, M, E>(handle: (S, M) -> Handled<S, M, E>, done: S -> bool, outs: seq<M>, d: Driven<S, M, E>, more: seq<M>)
    ensures Then(handle, done, Sending(outs, d), more) == Sending(outs, Then(handle, done, d, more))
  {
    if d.Settled? {
      SendingTwice(outs, d.outs, Drive(handle, done, d.state, d.pending + more));
    }
  }

  lemma SendingNothing<S, M, E>(d: Driven<S, M, E>)
    ensures Sending([], d) == d
  {
  }

  /** Handling `p` and `more` together is handling `p` until it settles and then `more`. */
  lemma {:induction false} DriveAppend<S, M, E>(handle: (S, M) -> Handled<S, M, E>, done: S -> bool, s: S, p: seq<M>, more: seq<M>)
    ensures Drive(handle, done, s, p + more) == Then(handle, done, Drive(handle, done, s, p), more)
    decreases |p|
  {
    var i := FirstReady(handle, s, p, 0);
    if i == |p| {
      SendingNothing(Drive(handle, done, s, p + more));
    } else {
      FirstReadyAppend(handle, s, p, more, 0);
      assert Without(p + more, i) == Without(p, i) + more;
      match handle(s, p[i]) {
        case Consumed(next, outs) =>
          if !done(next) {
            DriveAppend(handle, done, next, Without(p, i), more);
            ThenSending(handle, done, outs, Drive(handle, done, next, Without(p, i)), more);
          }
        case _ =>
      }
    }
  }

  // ----- simulation -----

  /** Two handlers agree through the maps `fs` and `fm` on one message. */
  function Mapped<C, I, S, M, E>(fs: C -> S, fm: I -> M, h: Handled<C, I, E>): Handled<S, M, E> {
    match h
    case Consumed(next, outs) => Consumed(fs(next), MapAll(fm, outs))
    case NotReady => NotReady
    case Failed(e, left, outs) => Failed(e, fs(left), MapAll(fm, outs))
  }

  function MapAll<I, M>(fm: I -> M, xs: seq<I>): (r: seq<M>)
    ensures |r| == |xs| && forall k | 0 <= k < |xs| :: r[k] == fm(xs[k])
  {
    seq(|xs|, k requires 0 <= k < |xs| => fm(xs[k]))
  }

  function MappedDriven<C, I, S, M, E>(fs: C -> S, fm: I -> M, d: Driven<C, I, E>): Driven<S, M, E> {
    match d
    case Settled(c, p, outs) => Settled(fs(c), MapAll(fm, p), MapAll(fm, outs))
    case Finished(c, outs) => Finished(fs(c), MapAll(fm, outs))
    case Broken(e, c, p, outs) => Broken(e, fs(c), MapAll(fm, p), MapAll(fm, outs))
  }
}
