/// Runs in which things go well: a known device connects to a daemon at rest
/// and is served, and a new one is paired.
module Arrivals {
  import opened Protocol
  import opened Pairing
  import opened DaemonRun
  import opened Routing
  import opened Devices
  import Hex
  import D = Daemon
  import C = Connection
  import S = Session

  /** The session of remote `r` runs, is ready, and is known to be `id`. */
  predicate Serves(s: System, r: D.Remote, id: DeviceId) {
    && r in s.live && s.live[r].m.phase == C.Ready
    && SpotOf(s.core, r) == Talking(s.live[r].handle, id)
  }

  predicate AtRest(s: System) { s.waiting.Idle? && s.queue == [] }

  function Hello(id: DeviceId, name: Text, token: Option<TokenBytes>): S.Turn {
    S.Turn(S.Read(Handshake(Greeting(PROTOCOL_VERSION, id, name, [], token))), 0, 0, None)
  }

  function Local(id: DeviceId): C.Identity { C.Identity(id, [], []) }

  /** A connection is accepted, greets, and is announced to the tables: the
      greeting itself is still to be handled. `peer` is the identity on the
      certificate, `id` the one in the greeting. */
  function Entry(r: D.Remote, peer: DeviceId, id: DeviceId, name: Text, token: Option<TokenBytes>): seq<Step> {
    [Accept(r, peer, Local(id), SECOND, None)] + [Drive(r, Hello(id, name, token))] + [Handle]
  }

  /** A device already trusted, with no token. */
  function Arrival(r: D.Remote, peer: DeviceId, id: DeviceId): seq<Step> {
    Entry(r, peer, id, [], None) + [Handle]
  }

  lemma Accepts(s: System, r: D.Remote, peer: DeviceId, id: DeviceId)
    requires r !in s.live && s.queue == [] && Admits(Trust(s.core.paired, s.core.window), peer, s.now)
    ensures CanStep(s, Accept(r, peer, Local(id), SECOND, None))
    ensures Apply(s, Accept(r, peer, Local(id), SECOND, None))
         == s.(queue := [Arrived(D.Handle(r, s.nextSerial, peer))],
               live := s.live[r := Conn(D.Handle(r, s.nextSerial, peer), C.New(Local(id), SECOND, None))],
               nextSerial := s.nextSerial + 1)
  {
    S.PerformOne(C.New(Local(id), SECOND, None), C.Started, 0, s.now, None);
  }

  lemma Introduces(s: System, r: D.Remote, id: DeviceId, name: Text, token: Option<TokenBytes>)
    requires r in s.live && s.live[r].m.phase == C.AwaitingPeerHandshake
    ensures Apply(s, Drive(r, Hello(id, name, token)))
         == s.(queue := s.queue + [FromSession(r, S.PeerHandshake(id, name, [], token))],
               live := s.live[r := Conn(s.live[r].handle, s.live[r].m.(phase := C.Ready))])
  {
    S.PerformOne(s.live[r].m, C.Received(Hello(id, name, token).input.msg), 0, 0, None);
  }

  /** The greeting of a ready session is all there is to handle. */
  predicate Entered(s: System, s': System, r: D.Remote, peer: DeviceId, id: DeviceId, name: Text, token: Option<TokenBytes>) {
    && s'.waiting.Idle? && s'.queue == [FromSession(r, S.PeerHandshake(id, name, [], token))]
    && r in s'.live && s'.live == s.live[r := s'.live[r]] && s'.live[r].m.phase == C.Ready
    && s'.live[r].handle.remote == r && s'.live[r].handle.peer == peer
    && s'.core == s.core.(remoteHandles := s.core.remoteHandles[r := s'.live[r].handle])
    && s' == s.(core := s'.core, live := s'.live, queue := s'.queue, nextSerial := s'.nextSerial)
  }

  lemma EntryEnters(s: System, r: D.Remote, peer: DeviceId, id: DeviceId, name: Text, token: Option<TokenBytes>)
    returns (s': System)
    requires AtRest(s) && r !in s.live && Admits(Trust(s.core.paired, s.core.window), peer, s.now)
    ensures Leads(s, Entry(r, peer, id, name, token), s') && Entered(s, s', r, peer, id, name, token)
  {
    var none: seq<Step> := [];
    var accept := Accept(r, peer, Local(id), SECOND, None);
    var hello := Drive(r, Hello(id, name, token));
    Accepts(s, r, peer, id);
    var s1 := Apply(s, accept);
    Extend(s, none, s, accept);
    assert none + [accept] == [accept];
    Introduces(s1, r, id, name, token);
    var s2 := Apply(s1, hello);
    Extend(s, [accept], s1, hello);
    assert s2.queue == [Arrived(D.Handle(r, s.nextSerial, peer)), FromSession(r, S.PeerHandshake(id, name, [], token))];
    s' := Apply(s2, Handle);
    assert s'.queue == [FromSession(r, S.PeerHandshake(id, name, [], token))];
    Extend(s, [accept] + [hello], s2, Handle);
  }

  /** The daemon at rest again, serving `id` from `r` and otherwise unchanged. */
  predicate Settled(s: System, s': System, r: D.Remote, peer: DeviceId, id: DeviceId) {
    && AtRest(s') && Serves(s', r, id) && s'.core.paired == s.core.paired
    && s'.live[r].handle.remote == r && s'.live[r].handle.peer == peer
    && s'.core.connectedDevices == s.core.connectedDevices[id := s'.live[r].handle]
    && s'.core.remoteHandles == s.core.remoteHandles[r := s'.live[r].handle]
    && s'.core.remoteToDevice == s.core.remoteToDevice[r := id]
    && s'.live == s.live[r := s'.live[r]]
  }

  /** A peer that is let in and names a pinned device is served as that device. */
  lemma ArrivalServes(s: System, r: D.Remote, peer: DeviceId, id: DeviceId)
    requires AtRest(s) && r !in s.live && SpotOf(s.core, r) == Absent && r !in s.core.remoteToDevice
    requires id in s.core.paired && Admits(Trust(s.core.paired, s.core.window), peer, s.now)
    ensures Legal(s, Arrival(r, peer, id))
    ensures Settled(s, After(s, Arrival(r, peer, id)), r, peer, id)
  {
    var s1 := EntryEnters(s, r, peer, id, [], None);
    var s2 := Apply(s1, Handle);
    assert s2.queue == [];
    Extend(s, Entry(r, peer, id, [], None), s1, Handle);
  }

  // ---- Pairing a new device ----

  /** A pairing is started, a device connects and presents the token from the
      code, and the human says yes. */
  function PairingRun(r: D.Remote, peer: DeviceId, id: DeviceId, name: Text, random: TokenBytes): seq<Step> {
    [StartPairing(random)] + Entry(r, peer, id, name, Some(random)) + [Handle] + [ConfirmPairing(id, true)] + [Resume]
  }

  /** The device is trusted, on the list, registered and connected. */
  predicate Paired(s: System, r: D.Remote, id: DeviceId, name: Text) {
    && AtRest(s) && Serves(s, r, id)
    && id in s.core.paired && id in IdSet(s.core.devices) && PersistedDevice(Hex.ToHex(id), name) in s.core.devices
    && id in s.core.connectedDevices && s.core.connectedDevices[id] == s.live[r].handle
    && id in s.core.objects && s.core.objects[id] == D.Device1(name, true)
    && s.core.window.None? && s.core.token.Some? && s.core.token.value.redeemed
  }

  /** Pairing works: after any run that has come to rest, any device not trusted
      yet, on any certificate and from any free address, can be paired. */
  lemma PairingSucceeds(ds: seq<PersistedDevice>, now: Instant, steps: seq<Step>,
                        r: D.Remote, peer: DeviceId, id: DeviceId, name: Text, random: TokenBytes)
    requires Legal(Init(ds, now), steps)
    requires var s := After(Init(ds, now), steps);
             AtRest(s) && r !in s.live && id !in s.core.paired
    ensures Legal(Init(ds, now), steps + PairingRun(r, peer, id, name, random))
    ensures Paired(After(Init(ds, now), steps + PairingRun(r, peer, id, name, random)), r, id, name)
  {
    InitInv(ds, now);
    RunKeepsInv(Init(ds, now), steps);
    var s := After(Init(ds, now), steps);
    assert Fits(Walk(r, SpotOf(s.core, r), s.queue).value, s.live, r);
    var s' := PairsFrom(s, r, peer, id, name, random);
    RunsCompose(Init(ds, now), steps, PairingRun(r, peer, id, name, random));
  }

  lemma PairsFrom(s: System, r: D.Remote, peer: DeviceId, id: DeviceId, name: Text, random: TokenBytes) returns (s': System)
    requires AtRest(s) && r !in s.live && id !in s.core.paired && id !in s.core.objects
    ensures Leads(s, PairingRun(r, peer, id, name, random), s') && Paired(s', r, id, name)
  {
    var none: seq<Step> := [];
    var start := StartPairing(random);
    var s1 := Apply(s, start);
    Extend(s, none, s, start);
    assert none + [start] == [start];
    var entry := Entry(r, peer, id, name, Some(random));
    var s2 := EntryEnters(s1, r, peer, id, name, Some(random));
    RunsCompose(s, [start], entry);
    var s3 := AsksHuman(s2, r, id, name, random);
    Extend(s, [start] + entry, s2, Handle);
    var s4 := Apply(s3, ConfirmPairing(id, true));
    Extend(s, [start] + entry + [Handle], s3, ConfirmPairing(id, true));
    s' := Apply(s4, Resume);
    Extend(s, [start] + entry + [Handle] + [ConfirmPairing(id, true)], s4, Resume);
    UpsertAddsOne(s.core.devices, id, name);
  }

  lemma AsksHuman(s: System, r: D.Remote, id: DeviceId, name: Text, random: TokenBytes) returns (s': System)
    requires s.waiting.Idle? && s.queue == [FromSession(r, S.PeerHandshake(id, name, [], Some(random)))]
    requires id !in s.core.paired && s.core.token == Some(Token(random, s.now, false))
    ensures s' == Apply(s, Handle)
    ensures s'.core == s.core.(remoteToDevice := s.core.remoteToDevice[r := id], token := Some(Token(random, s.now, true)),
                               pending := s.core.pending[id := s.nextTicket])
    ensures s'.queue == [] && s'.live == s.live && s'.waiting.Awaiting? && s'.waiting.answer.None?
    ensures s'.waiting.remote == r && s'.waiting.id == id && s'.waiting.name == name && s'.waiting.ticket == s.nextTicket
  {
    s' := Apply(s, Handle);
  }
}
