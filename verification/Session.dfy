/// The driver around one connection machine: it turns reads, ticks and
/// commands into machine events, carries out the actions and reports session
/// events. `Walk` is the grammar those events obey.
module Session {
  import opened Protocol
  import C = Connection

  datatype CloseReason =
    | VersionMismatch(ours: nat, theirs: nat)
    | KeepaliveTimedOut
    | ConnectionLost(detail: string)
    | FramingError(detail: string)

  datatype SessionEvent =
    | PeerHandshake(deviceId: DeviceId, name: Text, capabilities: seq<Capability>, pairingToken: Option<TokenBytes>)
    | Ponged(rtt: Duration)
    | ClipboardReceived(clip: Clip)
    | Closed(reason: CloseReason)

  /** The branch of the driver's select loop that completes. */
  datatype Input =
    | Read(msg: Message)
    | StreamReadFailed(detail: string)
    | BadFrame(detail: string)
    | Ticked(now: Instant)
    | Command(clip: Clip)
    | CommandsDropped
    | ConnectionClosed(detail: string)

  /** One turn of the loop, with the nonce, the clock reading and the stream
      write outcome it meets. */
  datatype Turn = Turn(input: Input, nonce: nat, clock: Instant, writeError: Option<string>)

  /** What the driver did: messages written, events reported, still running or not. */
  datatype Outcome = Outcome(sent: seq<Message>, events: seq<SessionEvent>, live: bool)

  const NOTHING := Outcome([], [], true)

  function Then(a: Outcome, b: Outcome): Outcome {
    Outcome(a.sent + b.sent, a.events + b.events, b.live)
  }

  function Perform(action: C.Action, writeError: Option<string>): Outcome {
    match action
    case Send(msg) =>
      if writeError.Some? then Outcome([], [Closed(FramingError(writeError.value))], false)
      else Outcome([msg], [], true)
    case PeerHandshake(id, name, caps, token) => Outcome([], [PeerHandshake(id, name, caps, token)], true)
    case Ponged(rtt) => Outcome([], [Ponged(rtt)], true)
    case PeerClipboard(clip) => Outcome([], [ClipboardReceived(clip)], true)
    case KeepaliveTimedOut => Outcome([], [Closed(KeepaliveTimedOut)], false)
    case Reject(ours, theirs) => Outcome([], [Closed(VersionMismatch(ours, theirs))], false)
  }

  function PerformAll(actions: seq<C.Action>, writeError: Option<string>): Outcome {
    if actions == [] then NOTHING
    else
      var first := Perform(actions[0], writeError);
      if first.live then Then(first, PerformAll(actions[1..], writeError)) else first
  }

  /** One turn on a running machine. */
  function DriveTurn(m: C.Machine, t: Turn): (C.Machine, Outcome) {
    match t.input
    case Read(msg) => Feed(m, C.Received(msg), t)
    case StreamReadFailed(detail) => (m, Outcome([], [Closed(ConnectionLost(detail))], false))
    case BadFrame(detail) => (m, Outcome([], [Closed(FramingError(detail))], false))
    case Ticked(now) => Feed(m, C.Tick(now), t)
    case Command(clip) => Feed(m, C.SendClipboard(clip), t)
    case CommandsDropped => (m, NOTHING)
    case ConnectionClosed(detail) => (m, Outcome([], [Closed(ConnectionLost(detail))], false))
  }

  function Feed(m: C.Machine, e: C.Event, t: Turn): (C.Machine, Outcome) {
    var (m', actions) := C.Next(m, e, t.nonce, t.clock);
    (m', PerformAll(actions, t.writeError))
  }

  /** Every turn of the schedule until one ends the session. Once the command
      channel is gone its branch is no longer selected. */
  function DriveAll(m: C.Machine, commandsOpen: bool, turns: seq<Turn>): (C.Machine, Outcome)
    decreases |turns|
  {
    if turns == [] then (m, NOTHING)
    else if turns[0].input.Command? && !commandsOpen then DriveAll(m, commandsOpen, turns[1..])
    else
      var (m', first) := DriveTurn(m, turns[0]);
      if !first.live then (m', first)
      else
        var (m'', rest) := DriveAll(m', commandsOpen && !turns[0].input.CommandsDropped?, turns[1..]);
        (m'', Then(first, rest))
  }

  lemma PerformNone(a: Outcome)
    ensures Then(NOTHING, a) == a
    ensures a.live ==> Then(a, NOTHING) == a
  {
    assert a.sent + [] == a.sent && a.events + [] == a.events;
  }

  /** No machine event asks for more than one action. */
  lemma PerformOne(m: C.Machine, e: C.Event, nonce: nat, clock: Instant, writeError: Option<string>)
    ensures var actions := C.Next(m, e, nonce, clock).1;
            && |actions| <= 1
            && PerformAll(actions, writeError) == if actions == [] then NOTHING else Perform(actions[0], writeError)
  {
    var actions := C.Next(m, e, nonce, clock).1;
    if actions != [] {
      PerformNone(Perform(actions[0], writeError));
      assert PerformAll(actions[1..], writeError) == NOTHING;
    }
  }

  lemma ThenAssociates(a: Outcome, b: Outcome, c: Outcome)
    ensures Then(Then(a, b), c) == Then(a, Then(b, c))
  {
    assert a.sent + b.sent + c.sent == a.sent + (b.sent + c.sent);
    assert a.events + b.events + c.events == a.events + (b.events + c.events);
  }

  method RunActions(actions: seq<C.Action>, writeError: Option<string>)
    returns (sent: seq<Message>, events: seq<SessionEvent>, live: bool)
    ensures Outcome(sent, events, live) == PerformAll(actions, writeError)
  {
    sent, events := [], [];
    PerformNone(PerformAll(actions, writeError));
    assert actions[0..] == actions;
    for i := 0 to |actions|
      invariant PerformAll(actions, writeError) == Then(Outcome(sent, events, true), PerformAll(actions[i..], writeError))
    {
      assert actions[i..][0] == actions[i] && actions[i..][1..] == actions[i + 1..];
      ThenAssociates(Outcome(sent, events, true), Perform(actions[i], writeError), PerformAll(actions[i + 1..], writeError));
      var written, reported, goOn := [], [], true;
      match actions[i] {
        case Send(msg) =>
          if writeError.Some? {
            reported, goOn := [Closed(FramingError(writeError.value))], false;
          } else {
            written := [msg];
          }
        case PeerHandshake(id, name, caps, token) =>
          reported := [PeerHandshake(id, name, caps, token)];
        case Ponged(rtt) =>
          reported := [Ponged(rtt)];
        case PeerClipboard(clip) =>
          reported := [ClipboardReceived(clip)];
        case KeepaliveTimedOut =>
          reported, goOn := [Closed(KeepaliveTimedOut)], false;
        case Reject(ours, theirs) =>
          reported, goOn := [Closed(VersionMismatch(ours, theirs))], false;
      }
      assert Outcome(written, reported, goOn) == Perform(actions[i], writeError);
      sent, events := sent + written, events + reported;
      if !goOn {
        return sent, events, false;
      }
    }
    PerformNone(Outcome(sent, events, true));
    live := true;
  }

  /** The greeting a machine opens with. */
  function HelloOf(m: C.Machine): Message {
    Handshake(Greeting(PROTOCOL_VERSION, m.local.deviceId, m.local.name, m.local.capabilities, m.outgoingToken))
  }

  /** The whole life of a driver: greet the peer, then serve the schedule. */
  function Serve(m: C.Machine, startError: Option<string>, turns: seq<Turn>): (C.Machine, Outcome) {
    var (m0, actions) := C.Next(m, C.Started, 0, 0);
    var first := PerformAll(actions, startError);
    if !first.live then (m0, first)
    else
      var (m', rest) := DriveAll(m0, true, turns);
      (m', Then(first, rest))
  }

  /** Runs until a terminal event or the end of the schedule; `live` tells
      which. Every event sent to the session's receiver is in `events`. */
  method Drive(machine: C.ConnectionMachine, startError: Option<string>, turns: seq<Turn>)
    returns (sent: seq<Message>, events: seq<SessionEvent>, live: bool)
    modifies machine
    ensures (machine.View(), Outcome(sent, events, live)) == Serve(old(machine.View()), startError, turns)
  {
    ghost var m0 := machine.View();
    var actions := machine.Handle(C.Started, 0, 0);
    sent, events, live := RunActions(actions, startError);
    if !live {
      return;
    }
    var commandsOpen := true;
    for i := 0 to |turns|
      invariant live
      invariant Serve(m0, startError, turns)
             == (DriveAll(machine.View(), commandsOpen, turns[i..]).0,
                 Then(Outcome(sent, events, true), DriveAll(machine.View(), commandsOpen, turns[i..]).1))
    {
      var t := turns[i];
      assert turns[i..][0] == t && turns[i..][1..] == turns[i + 1..];
      if t.input.Command? && !commandsOpen {
        continue;
      }
      ghost var before, open := machine.View(), commandsOpen;
      var s, e, l := Serviced(machine, t);
      ThenAssociates(Outcome(sent, events, true), Outcome(s, e, l),
                     DriveAll(machine.View(), open && !t.input.CommandsDropped?, turns[i + 1..]).1);
      sent, events := sent + s, events + e;
      if t.input.CommandsDropped? {
        commandsOpen := false;
      }
      if !l {
        live := false;
        return;
      }
    }
    PerformNone(Outcome(sent, events, true));
  }

  /** The selected branch of one turn. */
  method Serviced(machine: C.ConnectionMachine, t: Turn)
    returns (sent: seq<Message>, events: seq<SessionEvent>, live: bool)
    modifies machine
    ensures (machine.View(), Outcome(sent, events, live)) == DriveTurn(old(machine.View()), t)
  {
    sent, events, live := [], [], true;
    match t.input {
      case Read(msg) =>
        var actions := machine.Handle(C.Received(msg), t.nonce, t.clock);
        sent, events, live := RunActions(actions, t.writeError);
      case StreamReadFailed(detail) =>
        events, live := [Closed(ConnectionLost(detail))], false;
      case BadFrame(detail) =>
        events, live := [Closed(FramingError(detail))], false;
      case Ticked(now) =>
        var actions := machine.Handle(C.Tick(now), t.nonce, t.clock);
        sent, events, live := RunActions(actions, t.writeError);
      case Command(clip) =>
        var actions := machine.Handle(C.SendClipboard(clip), t.nonce, t.clock);
        sent, events, live := RunActions(actions, t.writeError);
      case CommandsDropped =>
      case ConnectionClosed(detail) =>
        events, live := [Closed(ConnectionLost(detail))], false;
    }
  }

  /** Hands on every event up to and including the terminal one and returns
      its reason; `None` if the channel ends without one. */
  method Drain(events: seq<SessionEvent>) returns (reason: Option<CloseReason>, passed: seq<SessionEvent>)
    ensures passed <= events
    ensures forall i :: 0 <= i < |passed| - 1 ==> !passed[i].Closed?
    ensures reason.Some? ==> passed != [] && passed[|passed| - 1] == Closed(reason.value)
    ensures reason.None? ==> passed == events && forall i :: 0 <= i < |events| ==> !events[i].Closed?
  {
    passed := [];
    for i := 0 to |events|
      invariant passed == events[..i]
      invariant forall k :: 0 <= k < i ==> !events[k].Closed?
    {
      passed := passed + [events[i]];
      if events[i].Closed? {
        return Some(events[i].reason), passed;
      }
    }
    reason := None;
  }

  // ---- The grammar of session events ----

  datatype Stage = Opening | Talking | Over

  function StageOf(m: C.Machine): Stage {
    if m.phase == C.Ready then Talking else Opening
  }

  function Follow(s: Stage, e: SessionEvent): Option<Stage> {
    match (s, e)
    case (Over, _) => None
    case (_, Closed(_)) => Some(Over)
    case (Opening, PeerHandshake(_, _, _, _)) => Some(Talking)
    case (Opening, _) => None
    case (Talking, PeerHandshake(_, _, _, _)) => None
    case (Talking, _) => Some(Talking)
  }

  function Walk(s: Stage, events: seq<SessionEvent>): Option<Stage>
    decreases |events|
  {
    if events == [] then Some(s)
    else
      var next := Follow(s, events[0]);
      if next.None? then None else Walk(next.value, events[1..])
  }

  lemma {:induction false} WalkAppend(s: Stage, a: seq<SessionEvent>, b: seq<SessionEvent>)
    ensures Walk(s, a + b) == if Walk(s, a).Some? then Walk(Walk(s, a).value, b) else None
    decreases |a|
  {
    if a == [] {
      assert a + b == b;
    } else {
      assert (a + b)[1..] == a[1..] + b;
      if Follow(s, a[0]).Some? {
        WalkAppend(Follow(s, a[0]).value, a[1..], b);
      }
    }
  }

  /** One turn reports at most one event, and it is one the grammar allows
      in the machine's phase. */
  lemma TurnFollowsGrammar(m: C.Machine, t: Turn)
    ensures var (m', o) := DriveTurn(m, t);
            && |o.events| <= 1
            && Walk(StageOf(m), o.events) == Some(if o.live then StageOf(m') else Over)
            && (o.live ==> |o.sent| <= 1)
            && (!o.live ==> o.sent == [])
  {
    match t.input {
      case Read(msg) => PerformOne(m, C.Received(msg), t.nonce, t.clock, t.writeError);
      case Ticked(now) => PerformOne(m, C.Tick(now), t.nonce, t.clock, t.writeError);
      case Command(clip) => PerformOne(m, C.SendClipboard(clip), t.nonce, t.clock, t.writeError);
      case _ =>
    }
    var (m', o) := DriveTurn(m, t);
    if o.events != [] {
      assert o.events[1..] == [];
    }
  }

  lemma {:induction false} DriveFollowsGrammar(m: C.Machine, commandsOpen: bool, turns: seq<Turn>)
    ensures var (m', o) := DriveAll(m, commandsOpen, turns);
            Walk(StageOf(m), o.events) == Some(if o.live then StageOf(m') else Over)
    decreases |turns|
  {
    if turns != [] {
      if turns[0].input.Command? && !commandsOpen {
        DriveFollowsGrammar(m, commandsOpen, turns[1..]);
      } else {
        var (m', first) := DriveTurn(m, turns[0]);
        TurnFollowsGrammar(m, turns[0]);
        if first.live {
          var open := commandsOpen && !turns[0].input.CommandsDropped?;
          DriveFollowsGrammar(m', open, turns[1..]);
          WalkAppend(StageOf(m), first.events, DriveAll(m', open, turns[1..]).1.events);
        }
      }
    }
  }

  /** A finished session's events, read off positions: an immediate `Closed`,
      or one `PeerHandshake`, then round trips and clips, then one `Closed`. */
  predicate Complete(events: seq<SessionEvent>) {
    && events != []
    && events[|events| - 1].Closed?
    && forall i :: 0 <= i < |events| - 1 ==> !events[i].Closed? && (events[i].PeerHandshake? <==> i == 0)
  }

  lemma {:induction false} TalkingUntilClosed(events: seq<SessionEvent>)
    ensures Walk(Talking, events) == Some(Over) <==>
            (&& events != [] && events[|events| - 1].Closed?
             && forall i :: 0 <= i < |events| - 1 ==> !events[i].Closed? && !events[i].PeerHandshake?)
    decreases |events|
  {
    if events != [] {
      var rest := events[1..];
      TalkingUntilClosed(rest);
      if events[0].Closed? {
        assert rest != [] ==> Walk(Over, rest) == None;
        assert rest != [] ==> !(forall i :: 0 <= i < |events| - 1 ==> !events[i].Closed?) by {
          if rest != [] {
            assert 0 < |events| - 1;
          }
        }
      } else if !events[0].PeerHandshake? {
        assert forall i :: 0 <= i < |rest| ==> rest[i] == events[i + 1];
        assert forall i :: 1 <= i < |events| ==> events[i] == rest[i - 1];
      }
    }
  }

  lemma GrammarMeansComplete(events: seq<SessionEvent>)
    ensures Walk(Opening, events) == Some(Over) <==> Complete(events)
  {
    if events != [] {
      var rest := events[1..];
      TalkingUntilClosed(rest);
      assert forall i :: 0 <= i < |rest| ==> rest[i] == events[i + 1];
      assert forall i :: 1 <= i < |events| ==> events[i] == rest[i - 1];
      if events[0].Closed? {
        assert rest != [] ==> Walk(Over, rest) == None;
      }
    }
  }

  lemma ServeFollowsGrammar(m: C.Machine, startError: Option<string>, turns: seq<Turn>)
    requires m.phase == C.AwaitingPeerHandshake
    ensures var (m', o) := Serve(m, startError, turns);
            Walk(Opening, o.events) == Some(if o.live then StageOf(m') else Over)
  {
    var m0 := C.Next(m, C.Started, 0, 0).0;
    PerformOne(m, C.Started, 0, 0, startError);
    if startError.None? {
      DriveFollowsGrammar(m0, true, turns);
      var o := DriveAll(m0, true, turns).1;
      assert [] + o.events == o.events;
    } else {
      assert [Closed(FramingError(startError.value))][1..] == [];
    }
  }

  lemma OpenThenClosed(events: seq<SessionEvent>, r: CloseReason)
    requires Walk(Opening, events) in {Some(Opening), Some(Talking)}
    ensures Complete(events + [Closed(r)])
    ensures forall i :: 0 <= i < |events| ==> !events[i].Closed?
  {
    var closed := events + [Closed(r)];
    assert [Closed(r)][1..] == [];
    WalkAppend(Opening, events, [Closed(r)]);
    GrammarMeansComplete(closed);
    assert forall i :: 0 <= i < |events| ==> closed[i] == events[i];
  }

  /** For every schedule of reads, ticks, commands, write failures and losses:
      what a fresh driver has reported is a complete session if the task has
      exited, and otherwise one that can still be completed by closing. */
  lemma DriverObeysGrammar(m: C.Machine, startError: Option<string>, turns: seq<Turn>)
    requires m.phase == C.AwaitingPeerHandshake
    ensures var o := Serve(m, startError, turns).1;
            && (!o.live ==> Complete(o.events))
            && (o.live ==> forall r :: Complete(o.events + [Closed(r)]))
            && (forall i :: 0 <= i < |o.events| && o.events[i].Closed? ==> !o.live && i == |o.events| - 1)
  {
    var o := Serve(m, startError, turns).1;
    ServeFollowsGrammar(m, startError, turns);
    if o.live {
      forall r ensures Complete(o.events + [Closed(r)]) {
        OpenThenClosed(o.events, r);
      }
      OpenThenClosed(o.events, KeepaliveTimedOut);
    } else {
      GrammarMeansComplete(o.events);
    }
  }

  /** Draining an exited driver therefore passes on everything it reported and
      always returns the reason. */
  method DriveThenDrain(machine: C.ConnectionMachine, startError: Option<string>, turns: seq<Turn>)
    returns (reason: Option<CloseReason>, passed: seq<SessionEvent>, live: bool)
    requires machine.phase == C.AwaitingPeerHandshake
    modifies machine
    ensures live == Serve(old(machine.View()), startError, turns).1.live
    ensures passed == Serve(old(machine.View()), startError, turns).1.events
    ensures !live ==> reason.Some? && Complete(passed) && passed[|passed| - 1] == Closed(reason.value)
  {
    ghost var m := machine.View();
    var sent, events;
    sent, events, live := Drive(machine, startError, turns);
    DriverObeysGrammar(m, startError, turns);
    reason, passed := Drain(events);
  }
}
