/// What ends a session, and with which reason: over every schedule of the
/// driver, read off the schedule and the machine's state, not off the code of
/// a turn.
module Driver {
  import opened Protocol
  import opened Session
  import C = Connection

  /** Whether the command branch is still selected after `turns`. */
  predicate OpenAfter(turns: seq<Turn>) {
    forall i :: 0 <= i < |turns| ==> !turns[i].input.CommandsDropped?
  }

  /** The turn has a message to write: a pong, a clip or a ping that is due. */
  predicate Writes(m: C.Machine, open: bool, t: Turn) {
    m.phase == C.Ready &&
    match t.input
    case Read(msg) => msg.Ping?
    case Command(_) => open
    case Ticked(now) => m.pending.None? && m.lastPing.Some? && Since(now, m.lastPing.value) >= m.interval
    case _ => false
  }

  /** The reason a turn ends the session for, if it does: the stream or the
      connection failed, a frame was bad, the peer speaks another version, a
      ping went unanswered for three intervals, or a write failed. */
  function Ending(m: C.Machine, open: bool, t: Turn): Option<CloseReason> {
    match t.input
    case StreamReadFailed(detail) => Some(ConnectionLost(detail))
    case ConnectionClosed(detail) => Some(ConnectionLost(detail))
    case BadFrame(detail) => Some(FramingError(detail))
    case Read(Handshake(g)) =>
      if m.phase == C.AwaitingPeerHandshake && g.version != PROTOCOL_VERSION
      then Some(VersionMismatch(PROTOCOL_VERSION, g.version)) else None
    case Ticked(now) =>
      if m.phase == C.Ready && m.pending.Some? && Since(now, m.pending.value.sentAt) >= 3 * m.interval then Some(KeepaliveTimedOut)
      else WriteFailure(m, open, t)
    case _ => WriteFailure(m, open, t)
  }

  function WriteFailure(m: C.Machine, open: bool, t: Turn): Option<CloseReason> {
    if Writes(m, open, t) && t.writeError.Some? then Some(FramingError(t.writeError.value)) else None
  }

  /** The session is over: nothing more was written, and the reason is the last event. */
  predicate EndedFor(before: Outcome, after: Outcome, reason: CloseReason) {
    after == Outcome(before.sent, before.events + [Closed(reason)], false)
  }

  // ---- Schedules split ----

  lemma {:induction false} DriveSplits(m: C.Machine, open: bool, a: seq<Turn>, b: seq<Turn>)
    ensures var (m', o) := DriveAll(m, open, a);
            DriveAll(m, open, a + b) ==
              if !o.live then (m', o)
              else (DriveAll(m', open && OpenAfter(a), b).0, Then(o, DriveAll(m', open && OpenAfter(a), b).1))
    decreases |a|
  {
    if a == [] {
      assert a + b == b;
      PerformNone(DriveAll(m, open, b).1);
    } else {
      var rest := a[1..];
      assert (a + b)[0] == a[0] && (a + b)[1..] == rest + b;
      OpenFront(a);
      if a[0].input.Command? && !open {
        DriveSplits(m, open, rest, b);
      } else {
        var (m', first) := DriveTurn(m, a[0]);
        if first.live {
          var open' := open && !a[0].input.CommandsDropped?;
          DriveSplits(m', open', rest, b);
          var (m'', o) := DriveAll(m', open', rest);
          if o.live {
            ThenAssociates(first, o, DriveAll(m'', open' && OpenAfter(rest), b).1);
          }
        }
      }
    }
  }

  lemma OpenFront(a: seq<Turn>)
    requires a != []
    ensures OpenAfter(a) <==> !a[0].input.CommandsDropped? && OpenAfter(a[1..])
  {
    assert forall i :: 0 <= i < |a[1..]| ==> a[1..][i] == a[i + 1];
    assert forall i :: 1 <= i < |a| ==> a[i] == a[1..][i - 1];
  }

  /** Serving more of a schedule goes on from where the first part got, if it
      is still running, and changes nothing if it is not. */
  lemma ServeSplits(m: C.Machine, startError: Option<string>, a: seq<Turn>, b: seq<Turn>)
    ensures var (m', o) := Serve(m, startError, a);
            Serve(m, startError, a + b) ==
              if !o.live then (m', o) else (DriveAll(m', OpenAfter(a), b).0, Then(o, DriveAll(m', OpenAfter(a), b).1))
  {
    var (m0, actions) := C.Next(m, C.Started, 0, 0);
    var first := PerformAll(actions, startError);
    if first.live {
      DriveSplits(m0, true, a, b);
      var (m', o) := DriveAll(m0, true, a);
      if o.live {
        ThenAssociates(first, o, DriveAll(m', OpenAfter(a), b).1);
      }
    }
  }

  // ---- One more turn ----

  lemma TurnEndsExactlyWhen(m: C.Machine, open: bool, t: Turn)
    requires open || !t.input.Command?
    ensures var o := DriveTurn(m, t).1;
            && (o.live <==> Ending(m, open, t).None?)
            && (!o.live ==> o == Outcome([], [Closed(Ending(m, open, t).value)], false))
            && (o.live ==> (o.sent != [] <==> Writes(m, open, t)))
  {
    match t.input {
      case Read(msg) => PerformOne(m, C.Received(msg), t.nonce, t.clock, t.writeError);
      case Ticked(now) => PerformOne(m, C.Tick(now), t.nonce, t.clock, t.writeError);
      case Command(clip) => PerformOne(m, C.SendClipboard(clip), t.nonce, t.clock, t.writeError);
      case _ =>
    }
  }

  lemma ServeOneMore(m: C.Machine, startError: Option<string>, turns: seq<Turn>, t: Turn)
    requires Serve(m, startError, turns).1.live
    ensures var (m', o) := Serve(m, startError, turns);
            var skipped := t.input.Command? && !OpenAfter(turns);
            Serve(m, startError, turns + [t]) ==
              if skipped then (m', o) else (DriveTurn(m', t).0, Then(o, DriveTurn(m', t).1))
  {
    var (m', o) := Serve(m, startError, turns);
    var none: seq<Turn> := [];
    assert [t][1..] == none;
    ServeSplits(m, startError, turns, [t]);
    PerformNone(o);
    PerformNone(DriveTurn(m', t).1);
  }

  /** The next turn ends a running session exactly when it has a reason to, and
      that reason is the last thing reported. */
  lemma EndsExactlyWhen(m: C.Machine, startError: Option<string>, turns: seq<Turn>, t: Turn)
    requires Serve(m, startError, turns).1.live
    ensures var (m', before) := Serve(m, startError, turns);
            var after := Serve(m, startError, turns + [t]).1;
            var reason := Ending(m', OpenAfter(turns), t);
            && (after.live <==> reason.None?)
            && (reason.Some? ==> EndedFor(before, after, reason.value))
            && (after.live ==> (|after.sent| > |before.sent| <==> Writes(m', OpenAfter(turns), t)))
  {
    var (m', before) := Serve(m, startError, turns);
    ServeOneMore(m, startError, turns, t);
    if !t.input.Command? || OpenAfter(turns) {
      TurnEndsExactlyWhen(m', OpenAfter(turns), t);
      var o := DriveTurn(m', t).1;
      assert |(before.sent + o.sent)| == |before.sent| + |o.sent|;
      assert before.sent + [] == before.sent;
    }
  }

  /** And once it has ended, the rest of the schedule changes nothing. */
  lemma EndIsFinal(m: C.Machine, startError: Option<string>, turns: seq<Turn>, i: nat)
    requires i <= |turns| && !Serve(m, startError, turns[..i]).1.live
    ensures Serve(m, startError, turns) == Serve(m, startError, turns[..i])
  {
    assert turns == turns[..i] + turns[i..];
    ServeSplits(m, startError, turns[..i], turns[i..]);
  }

  // ---- Whole schedules ----

  predicate Cuts(input: Input) { input.StreamReadFailed? || input.BadFrame? || input.ConnectionClosed? }

  /** For every schedule and every turn the driver reaches: a failed read, a bad
      frame or a lost connection ends the session there and then, with its own
      kind of reason and its own detail as the last event. */
  lemma CutEndsSession(m: C.Machine, startError: Option<string>, turns: seq<Turn>, i: nat)
    requires i < |turns| && Serve(m, startError, turns[..i]).1.live && Cuts(turns[i].input)
    ensures var (before, after) := (Serve(m, startError, turns[..i]).1, Serve(m, startError, turns).1);
            && !after.live && after.sent == before.sent
            && |after.events| == |before.events| + 1 && after.events[..|before.events|] == before.events
            && var last := after.events[|before.events|];
               && (turns[i].input.StreamReadFailed? ==> last == Closed(ConnectionLost(turns[i].input.detail)))
               && (turns[i].input.BadFrame? ==> last == Closed(FramingError(turns[i].input.detail)))
               && (turns[i].input.ConnectionClosed? ==> last == Closed(ConnectionLost(turns[i].input.detail)))
  {
    EndsExactlyWhen(m, startError, turns[..i], turns[i]);
    assert turns[..i + 1] == turns[..i] + [turns[i]];
    EndIsFinal(m, startError, turns, i + 1);
  }

  /** A failed write of a pong, a clip, a ping or the greeting does the same. */
  lemma WriteFailureEndsSession(m: C.Machine, startError: Option<string>, turns: seq<Turn>, i: nat)
    requires i < |turns| && Serve(m, startError, turns[..i]).1.live && turns[i].writeError.Some?
    requires Writes(Serve(m, startError, turns[..i]).0, OpenAfter(turns[..i]), turns[i])
    ensures EndedFor(Serve(m, startError, turns[..i]).1, Serve(m, startError, turns).1, FramingError(turns[i].writeError.value))
  {
    EndsExactlyWhen(m, startError, turns[..i], turns[i]);
    assert turns[..i + 1] == turns[..i] + [turns[i]];
    EndIsFinal(m, startError, turns, i + 1);
  }

  lemma GreetsFirst(m: C.Machine, startError: Option<string>, turns: seq<Turn>)
    ensures var o := Serve(m, startError, turns).1;
            && (startError.Some? ==> o == Outcome([], [Closed(FramingError(startError.value))], false))
            && (startError.None? ==> o.sent != [] && o.sent[0] == HelloOf(m))
  {
    PerformOne(m, C.Started, 0, 0, startError);
  }

  /** A driver still running has met none of those. */
  lemma LiveMeansUncut(m: C.Machine, startError: Option<string>, turns: seq<Turn>)
    requires Serve(m, startError, turns).1.live
    ensures startError.None? && forall i :: 0 <= i < |turns| ==> !Cuts(turns[i].input)
    ensures forall i :: 0 <= i < |turns| ==> Serve(m, startError, turns[..i]).1.live
  {
    GreetsFirst(m, startError, turns);
    forall i | 0 <= i < |turns|
      ensures !Cuts(turns[i].input) && Serve(m, startError, turns[..i]).1.live
    {
      if !Serve(m, startError, turns[..i]).1.live {
        EndIsFinal(m, startError, turns, i);
      } else if Cuts(turns[i].input) {
        CutEndsSession(m, startError, turns, i);
      }
    }
  }

  // ---- The greeting decides ----

  predicate Greets(t: Turn) { t.input.Read? && t.input.msg.Handshake? }

  /** Until the peer's greeting is read, a running driver has written its own
      greeting and nothing else, has reported nothing, and its machine is as new. */
  lemma {:induction false} QuietUntilGreeted(m: C.Machine, startError: Option<string>, turns: seq<Turn>)
    requires m.phase == C.AwaitingPeerHandshake && Serve(m, startError, turns).1.live
    requires forall i :: 0 <= i < |turns| ==> !Greets(turns[i])
    ensures Serve(m, startError, turns) == (m, Outcome([HelloOf(m)], [], true))
    decreases |turns|
  {
    LiveMeansUncut(m, startError, turns);
    if turns == [] {
      PerformOne(m, C.Started, 0, 0, startError);
      PerformNone(Outcome([HelloOf(m)], [], true));
    } else {
      var init, last := turns[..|turns| - 1], turns[|turns| - 1];
      assert turns == init + [last];
      QuietUntilGreeted(m, startError, init);
      ServeOneMore(m, startError, init, last);
      QuietTurn(m, last);
      PerformNone(Outcome([HelloOf(m)], [], true));
    }
  }

  lemma QuietTurn(m: C.Machine, t: Turn)
    requires m.phase == C.AwaitingPeerHandshake && !Greets(t) && !Cuts(t.input)
    ensures DriveTurn(m, t) == (m, NOTHING)
  {
    match t.input {
      case Read(msg) => PerformOne(m, C.Received(msg), t.nonce, t.clock, t.writeError);
      case Ticked(now) => PerformOne(m, C.Tick(now), t.nonce, t.clock, t.writeError);
      case Command(clip) => PerformOne(m, C.SendClipboard(clip), t.nonce, t.clock, t.writeError);
      case CommandsDropped =>
    }
  }

  function Introduction(g: Greeting): SessionEvent {
    PeerHandshake(g.deviceId, g.name, g.capabilities, g.pairingToken)
  }

  /** The first greeting a running driver reads decides the session, whatever
      comes before and after it: with our version the peer is introduced first
      of all; with any other, lower or higher, the session is over there and
      then, our version named first, and the machine never gets ready. */
  lemma VersionDecides(m: C.Machine, startError: Option<string>, turns: seq<Turn>, i: nat)
    requires m.phase == C.AwaitingPeerHandshake
    requires i < |turns| && Greets(turns[i]) && (forall k :: 0 <= k < i ==> !Greets(turns[k]))
    requires Serve(m, startError, turns[..i]).1.live
    ensures var g := turns[i].input.msg.greeting;
            var (m', o) := Serve(m, startError, turns);
            && (Introduction(g) in o.events <==> g.version == PROTOCOL_VERSION)
            && (g.version == PROTOCOL_VERSION ==> o.events != [] && o.events[0] == Introduction(g) && m'.phase == C.Ready)
            && (g.version != PROTOCOL_VERSION ==>
                  m' == m && o == Outcome([HelloOf(m)], [Closed(VersionMismatch(PROTOCOL_VERSION, g.version))], false))
  {
    var before, t := turns[..i], turns[i];
    assert turns == before + [t] + turns[i + 1..] && turns[..i + 1] == before + [t];
    QuietUntilGreeted(m, startError, before);
    ServeOneMore(m, startError, before, t);
    PerformOne(m, C.Received(t.input.msg), t.nonce, t.clock, t.writeError);
    var (m1, o1) := Serve(m, startError, before + [t]);
    if o1.live {
      ServeSplits(m, startError, before + [t], turns[i + 1..]);
      var (m2, o2) := DriveAll(m1, OpenAfter(before + [t]), turns[i + 1..]);
      ReadyStays(m1, OpenAfter(before + [t]), turns[i + 1..]);
      assert o1.events == [Introduction(t.input.msg.greeting)];
      assert ([Introduction(t.input.msg.greeting)] + o2.events)[0] == Introduction(t.input.msg.greeting);
    } else {
      EndIsFinal(m, startError, turns, i + 1);
    }
  }

  /** What a running, introduced driver does with each input, when no write
      fails: pings are answered with their nonce, the outstanding pong is timed,
      clips go out and come in, and everything else passes without a trace. */
  lemma ReadyAnswers(m: C.Machine, startError: Option<string>, turns: seq<Turn>, t: Turn)
    requires Serve(m, startError, turns).1.live && Serve(m, startError, turns).0.phase == C.Ready
    requires t.writeError.None? && !t.input.Ticked? && !Cuts(t.input)
    ensures var (m', before) := Serve(m, startError, turns);
            var (m'', after) := Serve(m, startError, turns + [t]);
            && after == Outcome(before.sent + Answers(m', OpenAfter(turns), t), before.events + Reports(m', t), true)
            && (Reports(m', t) == [] || !Reports(m', t)[0].Ponged? ==> m'' == m')
            && m''.phase == C.Ready
  {
    var (m', before) := Serve(m, startError, turns);
    ServeOneMore(m, startError, turns, t);
    match t.input {
      case Read(msg) => PerformOne(m', C.Received(msg), t.nonce, t.clock, t.writeError);
      case Command(clip) => PerformOne(m', C.SendClipboard(clip), t.nonce, t.clock, t.writeError);
      case CommandsDropped =>
    }
    PerformNone(before);
  }

  function Answers(m: C.Machine, open: bool, t: Turn): seq<Message> {
    match t.input
    case Read(Ping(n)) => [Pong(n)]
    case Command(clip) => if open then [Clipboard(clip)] else []
    case _ => []
  }

  function Reports(m: C.Machine, t: Turn): seq<SessionEvent> {
    match t.input
    case Read(Clipboard(clip)) => [ClipboardReceived(clip)]
    case Read(Pong(n)) =>
      if m.pending.Some? && m.pending.value.nonce == n then [Ponged(Since(t.clock, m.pending.value.sentAt))] else []
    case _ => []
  }

  lemma {:induction false} ReadyStays(m: C.Machine, open: bool, turns: seq<Turn>)
    requires m.phase == C.Ready
    ensures DriveAll(m, open, turns).0.phase == C.Ready
    decreases |turns|
  {
    if turns != [] {
      if turns[0].input.Command? && !open {
        ReadyStays(m, open, turns[1..]);
      } else {
        ReadyStays(DriveTurn(m, turns[0]).0, open && !turns[0].input.CommandsDropped?, turns[1..]);
      }
    }
  }

  /** Once the command channel is gone, no clip of the schedule is looked at. */
  lemma {:induction false} DroppedCommandsIgnored(m: C.Machine, turns: seq<Turn>)
    ensures DriveAll(m, false, turns) == DriveAll(m, false, WithoutCommands(turns))
    decreases |turns|
  {
    if turns != [] {
      var rest := WithoutCommands(turns[1..]);
      if turns[0].input.Command? {
        DroppedCommandsIgnored(m, turns[1..]);
      } else {
        assert ([turns[0]] + rest)[1..] == rest;
        DroppedCommandsIgnored(DriveTurn(m, turns[0]).0, turns[1..]);
      }
    }
  }

  function WithoutCommands(turns: seq<Turn>): seq<Turn> {
    if turns == [] then []
    else if turns[0].input.Command? then WithoutCommands(turns[1..])
    else [turns[0]] + WithoutCommands(turns[1..])
  }
}
