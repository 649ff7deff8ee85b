/// The phone's side of the dialer: the slot holding the active session, the
/// events handed to the app, and the connection status folded from them.
module Phone {
  import opened Protocol
  import Hex
  import R = Reconnect
  import S = Session

  datatype CoreEvent =
    | PeerHandshake(deviceId: Text, name: Text)
    | Ponged(rttMs: nat)
    | Disconnected(reason: S.CloseReason)
    | Reconnecting(attempt: nat, delayMs: nat)
    | ClipboardReceived(text: seq<Byte>)

  /** `None` for a plain `Connected` and for clips that are not UTF-8. */
  function ToCoreEvent(e: R.DialerEvent, utf8: seq<Byte> -> bool): Option<CoreEvent> {
    match e
    case Connected(_) => None
    case Reconnecting(attempt, delay) => Some(Reconnecting(attempt, delay / MILLISECOND))
    case FromSession(PeerHandshake(id, name, _, _)) => Some(PeerHandshake(Hex.ToHex(id), name))
    case FromSession(ClipboardReceived(clip)) => if utf8(clip.content) then Some(ClipboardReceived(clip.content)) else None
    case FromSession(Ponged(rtt)) => Some(Ponged(rtt / MILLISECOND))
    case FromSession(Closed(reason)) => Some(Disconnected(reason))
  }

  function CoreEvents(trace: seq<R.DialerEvent>, utf8: seq<Byte> -> bool): seq<CoreEvent> {
    if trace == [] then []
    else
      var init := CoreEvents(trace[..|trace| - 1], utf8);
      var last := ToCoreEvent(trace[|trace| - 1], utf8);
      if last.Some? then init + [last.value] else init
  }

  /** The active-session slot after one event. */
  function Slot(slot: Option<nat>, e: R.DialerEvent): Option<nat> {
    match e
    case Connected(h) => Some(h)
    case FromSession(Closed(_)) => None
    case _ => slot
  }

  function SlotFrom(slot: Option<nat>, trace: seq<R.DialerEvent>): Option<nat>
    decreases |trace|
  {
    if trace == [] then slot else Slot(SlotFrom(slot, trace[..|trace| - 1]), trace[|trace| - 1])
  }

  function SlotAfter(trace: seq<R.DialerEvent>): Option<nat> { SlotFrom(None, trace) }

  /** What an earlier `pair()` left in the slot matters until the dialer first
      connects, and no longer. */
  lemma {:induction false} SlotForgets(slot: Option<nat>, trace: seq<R.DialerEvent>)
    requires R.Walk(R.Dialing(0), trace).Some?
    ensures SlotFrom(slot, trace) == if R.Connects(trace) == 0 then slot else SlotAfter(trace)
    decreases |trace|
  {
    if trace != [] {
      var init, last := trace[..|trace| - 1], trace[|trace| - 1];
      WalkBack(trace);
      SlotForgets(slot, init);
      R.StageCounts(R.Dialing(0), init);
      R.StageCounts(R.Dialing(0), trace);
      ConnectsSnoc(init, last);
      assert trace == init + [last];
    }
  }

  lemma {:induction false} ConnectsSnoc(trace: seq<R.DialerEvent>, e: R.DialerEvent)
    ensures R.Connects(trace + [e]) == R.Connects(trace) + if e.Connected? then 1 else 0
    decreases |trace|
  {
    if trace == [] {
      var none: seq<R.DialerEvent> := [];
      assert trace + [e] == [e] && [e][1..] == none;
    } else {
      assert (trace + [e])[1..] == trace[1..] + [e];
      ConnectsSnoc(trace[1..], e);
    }
  }

  predicate IsHandshake(e: R.DialerEvent) { e.FromSession? && e.event.PeerHandshake? }

  datatype SendError = InvalidClipboard(error: ClipError) | NotConnected

  class PhoneCore {
    var activeSession: Option<nat>
    /** Handles a clip was queued on, in order. */
    var queued: seq<(nat, Clip)>
    /** How often the scanned peer was written to the peers file. */
    var peersSaved: nat

    constructor ()
      ensures activeSession == None && queued == [] && peersSaved == 0
    {
      activeSession, queued, peersSaved := None, [], 0;
    }

    /** Runs over every event the dialer sent before its channel closed. */
    method ForwardEvents(events: seq<R.DialerEvent>, utf8: seq<Byte> -> bool) returns (delivered: seq<CoreEvent>)
      modifies this
      ensures activeSession == SlotFrom(old(activeSession), events) && delivered == CoreEvents(events, utf8)
      ensures queued == old(queued)
      ensures peersSaved == old(peersSaved) + if exists i :: 0 <= i < |events| && IsHandshake(events[i]) then 1 else 0
    {
      var persisted := false;
      delivered := [];
      for i := 0 to |events|
        invariant activeSession == SlotFrom(old(activeSession), events[..i]) && delivered == CoreEvents(events[..i], utf8)
        invariant queued == old(queued)
        invariant persisted <==> exists k :: 0 <= k < i && IsHandshake(events[k])
        invariant peersSaved == old(peersSaved) + if persisted then 1 else 0
      {
        var event := events[i];
        assert events[..i + 1][..i] == events[..i];
        match event {
          case Connected(handle) => activeSession := Some(handle);
          case FromSession(Closed(_)) => activeSession := None;
          case _ =>
        }
        if !persisted && IsHandshake(event) {
          persisted := true;
          peersSaved := peersSaved + 1;
        }
        var coreEvent := ToCoreEvent(event, utf8);
        if coreEvent.Some? {
          delivered := delivered + [coreEvent.value];
        }
      }
      assert events[..|events|] == events;
    }

    method SendClipboard(text: seq<Byte>, digest: seq<Byte> -> Hash) returns (error: Option<SendError>)
      modifies this`queued
      ensures |text| > MAX_CONTENT_LEN ==> error == Some(InvalidClipboard(TooLarge(|text|)))
      ensures |text| <= MAX_CONTENT_LEN ==> error == if activeSession.None? then Some(NotConnected) else None
      ensures queued == if error.None? then old(queued) + [(activeSession.value, Clip(MIME_TEXT_PLAIN, text, digest(text)))]
                        else old(queued)
    {
      var built := NewClip(MIME_TEXT_PLAIN, text, digest);
      if built.Rejected? {
        return Some(InvalidClipboard(built.error));
      }
      match activeSession {
        case Some(handle) =>
          queued := queued + [(handle, built.clip)];
          return None;
        case None =>
          return Some(NotConnected);
      }
    }
  }

  // ---- The app's status ----

  datatype Status =
    | NotPaired
    | Connected(name: Text, deviceId: Text, lastRttMs: Option<nat>)
    | Retrying(attempt: nat)
    | Lost(reason: S.CloseReason)

  function Reduce(s: Status, e: CoreEvent): Status {
    match e
    case PeerHandshake(id, name) => Connected(name, id, None)
    case Ponged(ms) => if s.Connected? then s.(lastRttMs := Some(ms)) else s
    case Reconnecting(attempt, _) => Retrying(attempt)
    case Disconnected(reason) => Lost(reason)
    case ClipboardReceived(_) => s
  }

  function Fold(events: seq<CoreEvent>): Status {
    if events == [] then NotPaired else Reduce(Fold(events[..|events| - 1]), events[|events| - 1])
  }

  /** The handle of the last `Connected`. */
  function LatestHandle(trace: seq<R.DialerEvent>): Option<nat> {
    if trace == [] then None
    else if trace[|trace| - 1].Connected? then Some(trace[|trace| - 1].handle)
    else LatestHandle(trace[..|trace| - 1])
  }

  /** The peer named by the last handshake. */
  function LatestPeer(trace: seq<R.DialerEvent>): Option<(Text, Text)> {
    if trace == [] then None
    else PeerAfter(LatestPeer(trace[..|trace| - 1]), trace[|trace| - 1])
  }

  function PeerAfter(peer: Option<(Text, Text)>, e: R.DialerEvent): Option<(Text, Text)> {
    if IsHandshake(e) then Some((e.event.name, Hex.ToHex(e.event.deviceId))) else peer
  }

  predicate Shows(status: Status, peer: Option<(Text, Text)>) {
    status.Connected? && peer == Some((status.name, status.deviceId))
  }

  lemma WalkBack(trace: seq<R.DialerEvent>)
    requires trace != [] && R.Walk(R.Dialing(0), trace).Some?
    ensures var before := R.Walk(R.Dialing(0), trace[..|trace| - 1]);
            before.Some? && R.Walk(R.Dialing(0), trace) == R.Follow(before.value, trace[|trace| - 1])
  {
    var init, last := trace[..|trace| - 1], trace[|trace| - 1];
    assert trace == init + [last] && [last][1..] == [];
    R.WalkAppend(R.Dialing(0), init, [last]);
  }

  /** Where the trace stands decides the slot. */
  lemma {:induction false} SlotFollows(trace: seq<R.DialerEvent>)
    requires R.Walk(R.Dialing(0), trace).Some?
    ensures var stage := R.Walk(R.Dialing(0), trace).value;
            && SlotAfter(trace) == (if stage.Within? then Some(stage.handle) else None)
            && (stage.Within? ==> LatestHandle(trace) == Some(stage.handle))
  {
    if trace != [] {
      WalkBack(trace);
      SlotFollows(trace[..|trace| - 1]);
    }
  }

  /** Connected from a session's handshake to its close, and to that peer. */
  predicate StatusFits(stage: R.Stage, status: Status, peer: Option<(Text, Text)>) {
    && (status.Connected? <==> stage.Within? && stage.session == S.Talking)
    && (status.Connected? ==> Shows(status, peer))
  }

  function StatusAfter(status: Status, e: R.DialerEvent, utf8: seq<Byte> -> bool): Status {
    var core := ToCoreEvent(e, utf8);
    if core.Some? then Reduce(status, core.value) else status
  }

  lemma StatusStep(stage: R.Stage, e: R.DialerEvent, status: Status, peer: Option<(Text, Text)>, utf8: seq<Byte> -> bool)
    requires R.Follow(stage, e).Some? && StatusFits(stage, status, peer)
    ensures StatusFits(R.Follow(stage, e).value, StatusAfter(status, e, utf8), PeerAfter(peer, e))
  {
  }

  /** Where the trace stands also decides the status. */
  lemma {:induction false} StatusFollows(trace: seq<R.DialerEvent>, utf8: seq<Byte> -> bool)
    requires R.Walk(R.Dialing(0), trace).Some?
    ensures var stage := R.Walk(R.Dialing(0), trace).value;
            var status := Fold(CoreEvents(trace, utf8));
            && (status.Connected? <==> stage.Within? && stage.session == S.Talking)
            && (status.Connected? ==> Shows(status, LatestPeer(trace)))
  {
    if trace != [] {
      var init, last := trace[..|trace| - 1], trace[|trace| - 1];
      WalkBack(trace);
      StatusFollows(init, utf8);
      FoldsLast(trace, utf8);
      StatusStep(R.Walk(R.Dialing(0), init).value, last, Fold(CoreEvents(init, utf8)), LatestPeer(init), utf8);
    }
  }

  lemma FoldsLast(trace: seq<R.DialerEvent>, utf8: seq<Byte> -> bool)
    requires trace != []
    ensures var before := Fold(CoreEvents(trace[..|trace| - 1], utf8));
            Fold(CoreEvents(trace, utf8)) == StatusAfter(before, trace[|trace| - 1], utf8)
  {
    var init := CoreEvents(trace[..|trace| - 1], utf8);
    var e := ToCoreEvent(trace[|trace| - 1], utf8);
    if e.Some? {
      var events := init + [e.value];
      assert events != [] && events[..|events| - 1] == init && events[|events| - 1] == e.value;
    }
  }

  /** What the app and the core may be relied on after the events `seen`. */
  predicate Coherent(seen: seq<R.DialerEvent>, utf8: seq<Byte> -> bool) {
    var status := Fold(CoreEvents(seen, utf8));
    && (status.Connected? ==> SlotAfter(seen).Some? && Shows(status, LatestPeer(seen)))
    && (SlotAfter(seen).None? <==> R.Connects(seen) == R.Closes(seen))
    && (SlotAfter(seen).Some? ==> SlotAfter(seen) == LatestHandle(seen))
    && (seen != [] ==> StatusTells(status, seen[|seen| - 1]))
  }

  predicate StatusTells(status: Status, last: R.DialerEvent) {
    match last
    case Reconnecting(attempt, _) => status == Retrying(attempt)
    case FromSession(Closed(reason)) => status == Lost(reason)
    case FromSession(Ponged(rtt)) => status.Connected? && status.lastRttMs == Some(rtt / MILLISECOND)
    case FromSession(PeerHandshake(id, name, _, _)) => status == Connected(name, Hex.ToHex(id), None)
    case _ => true
  }

  /** Back-offs and texts, as the app hears of them. */
  function Backoffs(events: seq<CoreEvent>): seq<(nat, nat)> {
    if events == [] then []
    else
      var last := events[|events| - 1];
      Backoffs(events[..|events| - 1]) + if last.Reconnecting? then [(last.attempt, last.delayMs)] else []
  }

  function Texts(events: seq<CoreEvent>): seq<seq<Byte>> {
    if events == [] then []
    else
      var last := events[|events| - 1];
      Texts(events[..|events| - 1]) + if last.ClipboardReceived? then [last.text] else []
  }

  /** The same, as the dialer sent them. */
  function SentBackoffs(trace: seq<R.DialerEvent>): seq<(nat, nat)> {
    if trace == [] then []
    else
      var last := trace[|trace| - 1];
      SentBackoffs(trace[..|trace| - 1])
      + if last.Reconnecting? then [(last.attempt, last.delay / MILLISECOND)] else []
  }

  function SentTexts(trace: seq<R.DialerEvent>, utf8: seq<Byte> -> bool): seq<seq<Byte>> {
    if trace == [] then []
    else
      var last := trace[|trace| - 1];
      SentTexts(trace[..|trace| - 1], utf8)
      + if last.FromSession? && last.event.ClipboardReceived? && utf8(last.event.clip.content) then [last.event.clip.content] else []
  }

  /** Every clip that is text reaches the app, and every back-off with its
      number and its wait, in the order they were sent. */
  lemma {:induction false} AppHearsAll(trace: seq<R.DialerEvent>, utf8: seq<Byte> -> bool)
    ensures Texts(CoreEvents(trace, utf8)) == SentTexts(trace, utf8)
    ensures Backoffs(CoreEvents(trace, utf8)) == SentBackoffs(trace)
  {
    if trace != [] {
      var init, e := CoreEvents(trace[..|trace| - 1], utf8), ToCoreEvent(trace[|trace| - 1], utf8);
      AppHearsAll(trace[..|trace| - 1], utf8);
      if e.Some? {
        var events := init + [e.value];
        assert events[..|events| - 1] == init && events[|events| - 1] == e.value;
      }
    }
  }

  lemma LastTold(seen: seq<R.DialerEvent>, utf8: seq<Byte> -> bool)
    requires seen != [] && R.Walk(R.Dialing(0), seen).Some?
    ensures StatusTells(Fold(CoreEvents(seen, utf8)), seen[|seen| - 1])
  {
    var init, last := seen[..|seen| - 1], seen[|seen| - 1];
    WalkBack(seen);
    StatusFollows(init, utf8);
    FoldsLast(seen, utf8);
    StepTells(R.Walk(R.Dialing(0), init).value, last, Fold(CoreEvents(init, utf8)), LatestPeer(init), utf8);
  }

  lemma StepTells(stage: R.Stage, e: R.DialerEvent, status: Status, peer: Option<(Text, Text)>, utf8: seq<Byte> -> bool)
    requires R.Follow(stage, e).Some? && StatusFits(stage, status, peer)
    ensures StatusTells(StatusAfter(status, e, utf8), e)
  {
  }

  lemma GrammarIsCoherent(seen: seq<R.DialerEvent>, utf8: seq<Byte> -> bool)
    requires R.Walk(R.Dialing(0), seen).Some?
    ensures Coherent(seen, utf8)
  {
    SlotFollows(seen);
    StatusFollows(seen, utf8);
    R.StageCounts(R.Dialing(0), seen);
    if seen != [] {
      LastTold(seen, utf8);
    }
  }

  /** For every prefix of every run of the dialer, once its events have been
      forwarded: the status reads Connected only while the slot holds the
      handle of the latest connection, and then names the peer of the latest
      handshake; a valid clip is refused as not connected exactly when every
      connection so far has closed; and a back-off or a close is what the
      status tells. */
  lemma PhoneCoherent(local: R.C.Identity, interval: Duration, token: Option<TokenBytes>, rounds: seq<R.Round>,
                      k: nat, utf8: seq<Byte> -> bool)
    requires k <= |R.Trace(local, interval, token, 0, rounds).0|
    ensures Coherent(R.Trace(local, interval, token, 0, rounds).0[..k], utf8)
  {
    var trace := R.Trace(local, interval, token, 0, rounds).0;
    R.DialerObeysGrammar(local, interval, token, 0, rounds);
    assert trace == trace[..k] + trace[k..];
    R.WalkAppend(R.Dialing(0), trace[..k], trace[k..]);
    GrammarIsCoherent(trace[..k], utf8);
  }
}
