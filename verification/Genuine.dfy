/// Whom the daemon serves a device's clips to. The connection machine leaves
/// it to its caller to compare the id in a greeting with the identity the
/// connection authenticated with (connection.rs); the orchestrator goes by
/// the greeting alone. Here is when the two agree for every connected device.
module Genuine {
  import opened Protocol
  import opened Pairing
  import opened DaemonRun
  import opened Routing
  import opened Devices
  import opened Arrivals
  import Hex
  import D = Daemon
  import S = Session

  /** Every connected device is reached over a connection authenticated as it. */
  predicate AllGenuine(c: D.Core) {
    forall id :: id in c.connectedDevices ==> c.connectedDevices[id].peer == id
  }

  /** The missing comparison fails in a step that makes a device connected: a
      pinned device is greeted over, or a new one confirmed over, a connection
      that authenticated as somebody else. */
  predicate Misnames(s: System, step: Step)
    requires CanStep(s, step)
  {
    match step
    case Handle =>
      && s.queue[0].FromSession? && s.queue[0].event.PeerHandshake?
      && s.queue[0].event.deviceId in s.core.paired
      && HeldForAnother(s.core, s.queue[0].remote, s.queue[0].event.deviceId)
    case Resume =>
      && s.waiting.answer.Some? && s.waiting.answer.value.accept
      && HeldForAnother(s.core, s.waiting.remote, s.waiting.id)
    case _ => false
  }

  predicate HeldForAnother(c: D.Core, r: D.Remote, id: DeviceId) {
    r in c.remoteHandles && c.remoteHandles[r].peer != id
  }

  lemma GreetedGenuine(c: D.Core, r: D.Remote, id: DeviceId, name: Text, token: Option<TokenBytes>, now: Instant, ticket: nat)
    requires AllGenuine(c) && r in c.remoteHandles
    ensures AllGenuine(D.Greeted(c, r, id, name, token, now, ticket).0)
       <==> !(id in c.paired && HeldForAnother(c, r, id))
  {
    if id in c.paired {
      var c' := D.Greeted(c, r, id, name, token, now, ticket).0;
      assert c'.connectedDevices == c.connectedDevices[id := c.remoteHandles[r]];
      assert id in c'.connectedDevices;
    }
  }

  lemma AnsweredGenuine(c: D.Core, r: D.Remote, id: DeviceId, name: Text, accepted: bool)
    requires AllGenuine(c) && r in c.remoteHandles
    ensures AllGenuine(D.Answered(c, r, id, name, accepted)) <==> !(accepted && HeldForAnother(c, r, id))
  {
    if accepted {
      var c' := D.Answered(c, r, id, name, accepted);
      assert c'.connectedDevices == c.connectedDevices[id := c.remoteHandles[r]];
      assert id in c'.connectedDevices;
    }
  }

  /** The comparison is exactly what one step needs. */
  lemma StepGenuineExactlyWhen(s: System, step: Step)
    requires Routing.Inv(s) && CanStep(s, step) && AllGenuine(s.core)
    ensures AllGenuine(Apply(s, step).core) <==> !Misnames(s, step)
  {
    match step {
      case Handle =>
        HeadExpected(s);
        if s.queue[0].FromSession? && s.queue[0].event.PeerHandshake? {
          var e := s.queue[0].event;
          GreetedGenuine(s.core, s.queue[0].remote, e.deviceId, e.name, e.pairingToken, s.now, s.nextTicket);
        }
      case Resume =>
        var w := s.waiting;
        AnsweredGenuine(s.core, w.remote, w.id, w.name, w.answer.Some? && w.answer.value.accept);
      case _ =>
    }
  }

  /** After every step of the run. */
  predicate StaysGenuine(s: System, steps: seq<Step>)
    requires Legal(s, steps)
    decreases |steps|
  {
    AllGenuine(s.core) && (steps == [] || StaysGenuine(Apply(s, steps[0]), steps[1..]))
  }

  predicate NeverMisnames(s: System, steps: seq<Step>)
    requires Legal(s, steps)
    decreases |steps|
  {
    steps == [] || (!Misnames(s, steps[0]) && NeverMisnames(Apply(s, steps[0]), steps[1..]))
  }

  lemma {:induction false} GenuineFrom(s: System, steps: seq<Step>)
    requires Routing.Inv(s) && AllGenuine(s.core) && Legal(s, steps)
    ensures StaysGenuine(s, steps) <==> NeverMisnames(s, steps)
    decreases |steps|
  {
    if steps != [] {
      StepKeepsInv(s, steps[0]);
      StepGenuineExactlyWhen(s, steps[0]);
      if !Misnames(s, steps[0]) {
        GenuineFrom(Apply(s, steps[0]), steps[1..]);
      }
    }
  }

  /** In every run, all connected devices are reached over connections
      authenticated as them, throughout, exactly when no step misnames one. */
  lemma GenuineExactlyWhen(ds: seq<PersistedDevice>, now: Instant, steps: seq<Step>)
    requires Legal(Init(ds, now), steps)
    ensures StaysGenuine(Init(ds, now), steps) <==> NeverMisnames(Init(ds, now), steps)
  {
    InitInv(ds, now);
    GenuineFrom(Init(ds, now), steps);
  }

  function WindowRun(random: TokenBytes, peer: DeviceId, id: DeviceId): seq<Step> {
    [StartPairing(random)] + Arrival(1, peer, id)
  }

  /** While a pairing window is open, a connection authenticated as anybody
      that names a pinned device becomes that device's entry, with no token
      presented and nobody asked. */
  lemma GreetingAloneConnects(id: DeviceId, peer: DeviceId, name: Text, now: Instant, random: TokenBytes)
    ensures var ds := [PersistedDevice(Hex.ToHex(id), name)];
            && Legal(Init(ds, now), WindowRun(random, peer, id))
            && var s := After(Init(ds, now), WindowRun(random, peer, id));
               && AtRest(s) && Serves(s, 1, id) && s.core.paired == {id}
               && id in s.core.connectedDevices && s.core.connectedDevices[id].peer == peer
  {
    var ds := [PersistedDevice(Hex.ToHex(id), name)];
    PairedAlone(id, name);
    var none: seq<Step> := [];
    var s0 := Init(ds, now);
    Extend(s0, none, s0, StartPairing(random));
    assert none + [StartPairing(random)] == [StartPairing(random)];
    var s1 := Apply(s0, StartPairing(random));
    ArrivalServes(s1, 1, peer, id);
    RunsCompose(s0, [StartPairing(random)], Arrival(1, peer, id));
  }

  lemma PairedAlone(id: DeviceId, name: Text)
    ensures IdSet([PersistedDevice(Hex.ToHex(id), name)]) == {id}
  {
    var d := PersistedDevice(Hex.ToHex(id), name);
    Rendering(id);
    var none: seq<PersistedDevice> := [];
    assert [d][1..] == none && Ids([d]) == [id];
  }
}
