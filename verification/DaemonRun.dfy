/// The running daemon: any number of sessions, one orchestrator that works
/// through their events in order, D-Bus calls at any moment (also while the
/// orchestrator waits for the human), and the clock. Each handler is one step;
/// the wait for a confirmation splits the pairing handler in two.
///
/// A remote address names one live connection at a time, and a new connection
/// from it is announced only after the old one's `Closed`.
module DaemonRun {
  import opened Protocol
  import opened Pairing
  import opened Devices
  import D = Daemon
  import C = Connection
  import S = Session

  datatype ListenerEvent =
    | Arrived(handle: D.Handle)
    | FromSession(remote: D.Remote, event: S.SessionEvent)

  /** A session whose driver is still running. */
  datatype Conn = Conn(handle: D.Handle, m: C.Machine)

  datatype Verdict = Verdict(accept: bool, at: nat)

  /** What the orchestrator is doing between steps. `redeem` and `Verdict.at`
      are positions in the log. */
  datatype Waiting =
    | Idle
    | Awaiting(remote: D.Remote, id: DeviceId, name: Text, ticket: nat, deadline: Instant,
               redeem: nat, answer: Option<Verdict>)

  /** The history of pairing, one entry per effective act. A redemption points
      at the issue it used up, a pin at its redemption and its answer. */
  datatype Fact =
    | Issued(bytes: TokenBytes, at: Instant)
    | Redeemed(id: DeviceId, presented: TokenBytes, when: Instant, issue: nat)
    | Answered(id: DeviceId, accept: bool)
    | Pinned(id: DeviceId, redeem: nat, answer: nat)
    | Unpaired(id: DeviceId)

  datatype System = System(
    core: D.Core, waiting: Waiting, live: map<D.Remote, Conn>, queue: seq<ListenerEvent>, now: Instant,
    nextSerial: nat, nextTicket: nat, issue: nat, log: seq<Fact>)

  const CONFIRMATION_WAIT: Duration := TOKEN_TTL + 5 * SECOND

  function Init(ds: seq<PersistedDevice>, now: Instant): System {
    System(D.Restored(ds), Idle, map[], [], now, 0, 0, 0, [])
  }

  datatype Step =
    | Advance(to: Instant)
    | Accept(remote: D.Remote, tlsId: DeviceId, local: C.Identity, interval: Duration, startError: Option<string>)
    | Drive(remote: D.Remote, turn: S.Turn)
    | Handle
    | Resume
    | StartPairing(random: TokenBytes)
    | ConfirmPairing(id: DeviceId, accept: bool)
    | Unpair(id: DeviceId)

  predicate CanStep(s: System, step: Step) {
    match step
    case Advance(to) => s.now <= to
    case Accept(remote, tlsId, _, _, _) =>
      remote !in s.live && Admits(Trust(s.core.paired, s.core.window), tlsId, s.now)
    case Drive(remote, _) => remote in s.live
    case Handle => s.waiting.Idle? && s.queue != []
    case Resume => s.waiting.Awaiting? && (s.waiting.answer.Some? || s.now >= s.waiting.deadline)
    case _ => true
  }

  function Tagged(remote: D.Remote, events: seq<S.SessionEvent>): seq<ListenerEvent> {
    seq(|events|, i requires 0 <= i < |events| => FromSession(remote, events[i]))
  }

  function Apply(s: System, step: Step): System
    requires CanStep(s, step)
  {
    match step
    case Advance(to) => s.(now := to)
    case Accept(remote, tlsId, local, interval, startError) =>
      Accepted(s, D.Handle(remote, s.nextSerial, tlsId), C.New(local, interval, None), startError)
    case Drive(remote, turn) => Driven(s, remote, turn)
    case Handle => Handled(s)
    case Resume => Resumed(s)
    case StartPairing(random) =>
      s.(core := D.PairingStarted(s.core, random, s.now), issue := |s.log|, log := s.log + [Issued(random, s.now)])
    case ConfirmPairing(id, accept) => Confirmed(s, id, accept)
    case Unpair(id) => s.(core := D.Unpaired(s.core, id), log := s.log + [Unpaired(id)])
  }

  function Accepted(s: System, handle: D.Handle, m: C.Machine, startError: Option<string>): System {
    var (m', actions) := C.Next(m, C.Started, 0, s.now);
    var o := S.PerformAll(actions, startError);
    s.(queue := s.queue + ([Arrived(handle)] + Tagged(handle.remote, o.events)),
       live := if o.live then s.live[handle.remote := Conn(handle, m')] else s.live - {handle.remote},
       nextSerial := s.nextSerial + 1)
  }

  function Driven(s: System, remote: D.Remote, turn: S.Turn): System
    requires remote in s.live
  {
    var (m', o) := S.DriveTurn(s.live[remote].m, turn);
    s.(queue := s.queue + Tagged(remote, o.events),
       live := if o.live then s.live[remote := Conn(s.live[remote].handle, m')] else s.live - {remote})
  }

  function Handled(s: System): System
    requires s.queue != []
  {
    var s' := s.(queue := s.queue[1..]);
    match s.queue[0]
    case Arrived(handle) => s'.(core := D.Connected(s.core, handle.remote, handle))
    case FromSession(remote, PeerHandshake(id, name, _, token)) =>
      var (c, awaiting) := D.Greeted(s.core, remote, id, name, token, s.now, s.nextTicket);
      if awaiting && token.Some? then
        s'.(core := c,
            waiting := Awaiting(remote, id, name, s.nextTicket, s.now + CONFIRMATION_WAIT, |s.log|, None),
            nextTicket := s.nextTicket + 1,
            log := s.log + [Redeemed(id, token.value, s.now, s.issue)])
      else s'.(core := c)
    case FromSession(remote, Closed(_)) => s'.(core := D.Closed(s.core, remote))
    case _ => s'
  }

  function Resumed(s: System): System
    requires s.waiting.Awaiting?
  {
    var w := s.waiting;
    var accepted := w.answer.Some? && w.answer.value.accept;
    s.(core := D.Answered(s.core, w.remote, w.id, w.name, accepted),
       waiting := Idle,
       log := s.log + if accepted then [Pinned(w.id, w.redeem, w.answer.value.at)] else [])
  }

  /** The answer reaches the waiting handler only through its own ticket. */
  function Confirmed(s: System, id: DeviceId, accept: bool): System {
    var (c, sentTo) := D.Confirmed(s.core, id);
    if Delivered(s, id) then
      s.(core := c, waiting := s.waiting.(answer := Some(Verdict(accept, |s.log|))), log := s.log + [Answered(id, accept)])
    else s.(core := c)
  }

  predicate Delivered(s: System, id: DeviceId) {
    var sentTo := D.Confirmed(s.core, id).1;
    s.waiting.Awaiting? && s.waiting.answer.None? && sentTo == Some(s.waiting.ticket)
  }

  predicate Legal(s: System, steps: seq<Step>)
    decreases |steps|
  {
    steps == [] || (CanStep(s, steps[0]) && Legal(Apply(s, steps[0]), steps[1..]))
  }

  function After(s: System, steps: seq<Step>): System
    requires Legal(s, steps)
    decreases |steps|
  {
    if steps == [] then s else After(Apply(s, steps[0]), steps[1..])
  }

  /** `steps` leads from `s` to `s'`. */
  predicate Leads(s: System, steps: seq<Step>, s': System) {
    Legal(s, steps) && After(s, steps) == s'
  }

  lemma {:induction false} RunsCompose(s: System, first: seq<Step>, second: seq<Step>)
    requires Legal(s, first) && Legal(After(s, first), second)
    ensures Leads(s, first + second, After(After(s, first), second))
    decreases |first|
  {
    if first == [] {
      assert first + second == second;
    } else {
      assert (first + second)[1..] == first[1..] + second;
      RunsCompose(Apply(s, first[0]), first[1..], second);
    }
  }

  /** One more step at the end of a run. */
  lemma Extend(s: System, steps: seq<Step>, s': System, last: Step)
    requires Leads(s, steps, s') && CanStep(s', last)
    ensures Leads(s, steps + [last], Apply(s', last))
  {
    var none: seq<Step> := [];
    assert [last][1..] == none;
    assert After(s', [last]) == After(Apply(s', last), none);
    RunsCompose(s, steps, [last]);
  }

  // ---- The orchestrator's loop on the shared object ----

  /** The clip, with its sender, that handling the next event passes on to the
      clipboard handler, if any. */
  function ClipsFor(s: System): seq<(DeviceId, Clip)>
    requires s.queue != []
  {
    match s.queue[0]
    case FromSession(remote, ClipboardReceived(clip)) =>
      if remote in s.core.remoteToDevice then [(s.core.remoteToDevice[remote], clip)] else []
    case _ => []
  }

  /** One event off the listener's channel. */
  method HandleEvent(shared: D.Shared, e: ListenerEvent, ghost s: System, now: Instant, ticket: nat)
    returns (awaiting: bool, clips: seq<(DeviceId, Clip)>, ghost after: System)
    requires s.core == shared.View() && s.queue != [] && s.queue[0] == e
    requires s.now == now && s.nextTicket == ticket && s.waiting.Idle?
    modifies shared.Footprint()
    ensures after == Handled(s) && shared.View() == after.core && clips == ClipsFor(s)
    ensures awaiting <==> after.waiting.Awaiting?
    ensures after.queue == s.queue[1..] && (!awaiting ==> after.nextTicket == ticket)
    ensures shared.currentToken == old(shared.currentToken)
  {
    awaiting, clips, after := false, [], Handled(s);
    match e {
      case Arrived(handle) =>
        shared.OnConnected(handle.remote, handle);
      case FromSession(remote, PeerHandshake(id, name, _, token)) =>
        awaiting := shared.OnPeerHandshake(remote, id, name, token, now, ticket);
      case FromSession(remote, ClipboardReceived(received)) =>
        if remote in shared.remoteToDevice {
          clips := [(shared.remoteToDevice[remote], received)];
        }
      case FromSession(remote, Closed(_)) =>
        shared.OnClosed(remote);
      case _ =>
    }
  }

  /** Handling events, each at its own clock reading, until the queue is empty
      or a confirmation is awaited; and the clips passed on meanwhile. */
  function Orchestrated(s: System, clocks: seq<Instant>): (System, seq<(DeviceId, Clip)>)
    requires |s.queue| <= |clocks|
    decreases |s.queue|
  {
    if s.waiting.Idle? && s.queue != [] then
      var at := s.(now := clocks[0]);
      Passing(ClipsFor(at), Orchestrated(Handled(at), clocks[1..]))
    else (s, [])
  }

  function Passing(clips: seq<(DeviceId, Clip)>, later: (System, seq<(DeviceId, Clip)>)): (System, seq<(DeviceId, Clip)>) {
    (later.0, clips + later.1)
  }

  lemma PassingAgain(a: seq<(DeviceId, Clip)>, b: seq<(DeviceId, Clip)>, later: (System, seq<(DeviceId, Clip)>))
    ensures Passing(a, Passing(b, later)) == Passing(a + b, later) && Passing([], later) == later
  {
    assert a + (b + later.1) == a + b + later.1 && [] + later.1 == later.1;
  }

  method Orchestrate(shared: D.Shared, events: seq<ListenerEvent>, clocks: seq<Instant>, ghost s: System, ticket: nat)
    returns (handled: nat, awaiting: bool, clips: seq<(DeviceId, Clip)>)
    requires s.core == shared.View() && s.queue == events && |events| <= |clocks|
    requires s.nextTicket == ticket && s.waiting.Idle?
    modifies shared.Footprint()
    ensures handled <= |events| && Orchestrated(s, clocks).0.queue == events[handled..]
    ensures shared.View() == Orchestrated(s, clocks).0.core && clips == Orchestrated(s, clocks).1
    ensures awaiting <==> Orchestrated(s, clocks).0.waiting.Awaiting?
  {
    handled, awaiting, clips := 0, false, [];
    ghost var t := s;
    assert clocks[0..] == clocks;
    PassingAgain([], [], Orchestrated(s, clocks));
    while handled < |events| && !awaiting
      invariant handled <= |events| && t.queue == events[handled..]
      invariant Orchestrated(s, clocks) == Passing(clips, Orchestrated(t, clocks[handled..]))
      invariant t.core == shared.View() && (awaiting <==> t.waiting.Awaiting?)
      invariant !awaiting ==> t.nextTicket == ticket
      invariant shared.currentToken == old(shared.currentToken)
      decreases |events| - handled
    {
      var e := events[handled];
      ghost var at := t.(now := clocks[handled]);
      assert at.queue[0] == e && at.queue[1..] == events[handled + 1..];
      assert clocks[handled..][0] == clocks[handled] && clocks[handled..][1..] == clocks[handled + 1..];
      var passed;
      ghost var after;
      awaiting, passed, after := HandleEvent(shared, e, at, clocks[handled], ticket);
      assert Orchestrated(t, clocks[handled..]) == Passing(passed, Orchestrated(after, clocks[handled + 1..]));
      PassingAgain(clips, passed, Orchestrated(after, clocks[handled + 1..]));
      t, clips, handled := after, clips + passed, handled + 1;
    }
    PassingAgain(clips, [], (t, []));
  }

  predicate Ticking(now: Instant, clocks: seq<Instant>)
    decreases |clocks|
  {
    clocks == [] || (now <= clocks[0] && Ticking(clocks[0], clocks[1..]))
  }

  /** The orchestrator's share of a run. */
  function LoopSteps(s: System, clocks: seq<Instant>): seq<Step>
    requires |s.queue| <= |clocks|
    decreases |s.queue|
  {
    if s.waiting.Idle? && s.queue != [] then
      [Advance(clocks[0]), Handle] + LoopSteps(Handled(s.(now := clocks[0])), clocks[1..])
    else []
  }

  /** The loop is a run of the system: what every run keeps, the loop keeps. */
  lemma {:induction false} LoopIsRun(s: System, clocks: seq<Instant>)
    requires |s.queue| <= |clocks| && Ticking(s.now, clocks)
    ensures Legal(s, LoopSteps(s, clocks)) && After(s, LoopSteps(s, clocks)) == Orchestrated(s, clocks).0
    decreases |s.queue|
  {
    if s.waiting.Idle? && s.queue != [] {
      var at := s.(now := clocks[0]);
      var rest := LoopSteps(Handled(at), clocks[1..]);
      LoopIsRun(Handled(at), clocks[1..]);
      assert LoopSteps(s, clocks)[0] == Advance(clocks[0]) && LoopSteps(s, clocks)[1..] == [Handle] + rest;
      assert ([Handle] + rest)[1..] == rest;
      assert Legal(at, [Handle] + rest) && After(at, [Handle] + rest) == After(Handled(at), rest);
    }
  }
}
