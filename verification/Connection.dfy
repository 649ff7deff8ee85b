/// The per-connection state machine: handshake, ping/pong keepalive and the
/// clipboard gate. `ConnectionMachine` is the object the driver owns; `Next`
/// is the function its methods are proved against.
module Connection {
  import opened Protocol

  datatype Identity = Identity(deviceId: DeviceId, name: Text, capabilities: seq<Capability>)

  datatype Event =
    | Started
    | Received(msg: Message)
    | Tick(now: Instant)
    | SendClipboard(clip: Clip)

  datatype Action =
    | Send(msg: Message)
    | PeerHandshake(deviceId: DeviceId, name: Text, capabilities: seq<Capability>, pairingToken: Option<TokenBytes>)
    | Ponged(rtt: Duration)
    | PeerClipboard(clip: Clip)
    | KeepaliveTimedOut
    | Reject(ours: nat, theirs: nat)

  datatype Phase = AwaitingPeerHandshake | Ready

  datatype PendingPing = PendingPing(nonce: nat, sentAt: Instant)

  const PONG_TIMEOUT_MULTIPLIER: nat := 3
  const U64: nat := 0x1_0000_0000_0000_0000

  /** The value of a machine at one moment. */
  datatype Machine = Machine(
    phase: Phase, local: Identity, outgoingToken: Option<TokenBytes>, interval: Duration,
    lastPing: Option<Instant>, pending: Option<PendingPing>, nextNonce: nat)

  function New(local: Identity, interval: Duration, token: Option<TokenBytes>): Machine {
    Machine(AwaitingPeerHandshake, local, token, interval, None, None, 0)
  }

  /** One event: the machine afterwards and the actions it asks for.
      `nonce` is the random number drawn if a ping is sent, `clock` the
      reading taken if a round trip is measured. */
  function Next(m: Machine, e: Event, nonce: nat, clock: Instant): (Machine, seq<Action>) {
    match e
    case Started =>
      (m, [Send(Handshake(Greeting(PROTOCOL_VERSION, m.local.deviceId, m.local.name,
                                   m.local.capabilities, m.outgoingToken)))])
    case Received(msg) => NextReceived(m, msg, clock)
    case Tick(now) => NextTick(m, now, nonce)
    case SendClipboard(clip) => (m, if m.phase == Ready then [Send(Clipboard(clip))] else [])
  }

  function NextReceived(m: Machine, msg: Message, clock: Instant): (Machine, seq<Action>) {
    match (m.phase, msg)
    case (AwaitingPeerHandshake, Handshake(g)) =>
      if g.version != PROTOCOL_VERSION then (m, [Reject(PROTOCOL_VERSION, g.version)])
      else (m.(phase := Ready), [PeerHandshake(g.deviceId, g.name, g.capabilities, g.pairingToken)])
    case (Ready, Ping(n)) => (m, [Send(Pong(n))])
    case (Ready, Pong(n)) =>
      if m.pending.Some? && m.pending.value.nonce == n
      then (m.(pending := None), [Ponged(Since(clock, m.pending.value.sentAt))])
      else (m, [])
    case (Ready, Clipboard(c)) => (m, [PeerClipboard(c)])
    case _ => (m, [])
  }

  function NextTick(m: Machine, now: Instant, nonce: nat): (Machine, seq<Action>) {
    if m.phase != Ready then (m, [])
    else if m.pending.Some? then
      if Since(now, m.pending.value.sentAt) >= m.interval * PONG_TIMEOUT_MULTIPLIER
      then (m.(pending := None), [KeepaliveTimedOut])
      else (m, [])
    else if m.lastPing.None? then (m.(lastPing := Some(now)), [])
    else if Since(now, m.lastPing.value) >= m.interval then
      (m.(lastPing := Some(now), pending := Some(PendingPing(nonce, now)), nextNonce := (m.nextNonce + 1) % U64),
       [Send(Ping(nonce))])
    else (m, [])
  }

  /** The arm of `on_received` that drops a message: a handshake once Ready,
      anything else before, or a pong that answers no outstanding ping. */
  predicate Ignored(m: Machine, msg: Message) {
    match (m.phase, msg)
    case (AwaitingPeerHandshake, Handshake(_)) => false
    case (AwaitingPeerHandshake, _) => true
    case (Ready, Handshake(_)) => true
    case (Ready, Pong(n)) => m.pending.None? || m.pending.value.nonce != n
    case (Ready, _) => false
  }

  /** Exactly those messages leave the machine as it was and ask for nothing. */
  lemma IgnoredExactlyWhen(m: Machine, msg: Message, clock: Instant)
    ensures NextReceived(m, msg, clock) == (m, []) <==> Ignored(m, msg)
  {
  }

  class ConnectionMachine {
    var phase: Phase
    const local: Identity
    const outgoingToken: Option<TokenBytes>
    const interval: Duration
    var lastPing: Option<Instant>
    var pending: Option<PendingPing>
    var nextNonce: nat

    ghost function View(): Machine
      reads this
    {
      Machine(phase, local, outgoingToken, interval, lastPing, pending, nextNonce)
    }

    constructor (local: Identity, interval: Duration, token: Option<TokenBytes>)
      ensures View() == New(local, interval, token)
    {
      phase := AwaitingPeerHandshake;
      this.local := local;
      outgoingToken := token;
      this.interval := interval;
      lastPing := None;
      pending := None;
      nextNonce := 0;
    }

    method Handle(e: Event, nonce: nat, clock: Instant) returns (actions: seq<Action>)
      modifies this
      ensures (View(), actions) == Next(old(View()), e, nonce, clock)
    {
      match e {
        case Started =>
          actions := [Send(Handshake(Greeting(PROTOCOL_VERSION, local.deviceId, local.name,
                                              local.capabilities, outgoingToken)))];
        case Received(msg) =>
          actions := OnReceived(msg, clock);
        case Tick(now) =>
          actions := OnTick(now, nonce);
        case SendClipboard(clip) =>
          if phase == Ready {
            actions := [Send(Clipboard(clip))];
          } else {
            actions := [];
          }
      }
    }

    method OnReceived(msg: Message, clock: Instant) returns (actions: seq<Action>)
      modifies this
      ensures (View(), actions) == NextReceived(old(View()), msg, clock)
    {
      match (phase, msg) {
        case (AwaitingPeerHandshake, Handshake(g)) =>
          if g.version != PROTOCOL_VERSION {
            return [Reject(PROTOCOL_VERSION, g.version)];
          }
          phase := Ready;
          return [PeerHandshake(g.deviceId, g.name, g.capabilities, g.pairingToken)];
        case (Ready, Ping(n)) =>
          return [Send(Pong(n))];
        case (Ready, Pong(n)) =>
          var taken := pending;
          pending := None;
          if taken.Some? && taken.value.nonce == n {
            return [Ponged(Since(clock, taken.value.sentAt))];
          }
          pending := taken;
          return [];
        case (Ready, Clipboard(c)) =>
          return [PeerClipboard(c)];
        case _ =>
          return [];
      }
    }

    method OnTick(now: Instant, nonce: nat) returns (actions: seq<Action>)
      modifies this
      ensures (View(), actions) == NextTick(old(View()), now, nonce)
    {
      if phase != Ready {
        return [];
      }
      if pending.Some? {
        if Since(now, pending.value.sentAt) >= interval * PONG_TIMEOUT_MULTIPLIER {
          pending := None;
          return [KeepaliveTimedOut];
        }
        return [];
      }
      var due := false;
      match lastPing {
        case None => lastPing := Some(now);
        case Some(last) => due := Since(now, last) >= interval;
      }
      if !due {
        return [];
      }
      nextNonce := (nextNonce + 1) % U64;
      lastPing := Some(now);
      pending := Some(PendingPing(nonce, now));
      return [Send(Ping(nonce))];
    }
  }
}
