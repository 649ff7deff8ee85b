/// The daemon's shared state and the handlers that update it: the
/// orchestrator's session events and the D-Bus calls. `Core` is the value of
/// that state; `Shared` is the object the handlers mutate.
module Daemon {
  import opened Protocol
  import opened Pairing
  import opened Devices
  import Hex
  import Qr

  type Remote = nat

  /** A connection's send handle: its remote address, which connection it is,
      and the id of the certificate its peer authenticated with. The handlers
      never read that id. */
  datatype Handle = Handle(remote: Remote, serial: nat, peer: DeviceId)

  /** The D-Bus object of a paired device. */
  datatype Device1 = Device1(name: Text, connected: bool)

  datatype Core = Core(
    remoteHandles: map<Remote, Handle>,
    remoteToDevice: map<Remote, DeviceId>,
    connectedDevices: map<DeviceId, Handle>,
    objects: map<DeviceId, Device1>,
    paired: set<DeviceId>,
    window: Option<Instant>,
    token: Option<Token>,
    pending: map<DeviceId, nat>,
    devices: seq<PersistedDevice>)

  // ---- The handlers as functions ----

  function WithObject(objects: map<DeviceId, Device1>, id: DeviceId, name: Text): map<DeviceId, Device1> {
    if id in objects then objects else objects[id := Device1(name, false)]
  }

  function WithConnected(objects: map<DeviceId, Device1>, id: DeviceId, connected: bool): map<DeviceId, Device1> {
    if id in objects then objects[id := objects[id].(connected := connected)] else objects
  }

  function Marked(c: Core, remote: Remote, id: DeviceId, name: Text): Core {
    c.(objects := WithConnected(WithObject(c.objects, id, name), id, true),
       connectedDevices := if remote in c.remoteHandles then c.connectedDevices[id := c.remoteHandles[remote]]
                           else c.connectedDevices)
  }

  function Connected(c: Core, remote: Remote, handle: Handle): Core {
    c.(remoteHandles := c.remoteHandles[remote := handle])
  }

  function Closed(c: Core, remote: Remote): Core {
    var c' := c.(remoteHandles := c.remoteHandles - {remote}, remoteToDevice := c.remoteToDevice - {remote});
    if remote in c.remoteToDevice then
      var id := c.remoteToDevice[remote];
      c'.(connectedDevices := c.connectedDevices - {id}, objects := WithConnected(c.objects, id, false))
    else c'
  }

  /** Up to the point where the human is asked: the second result says so. */
  function Greeted(c: Core, remote: Remote, id: DeviceId, name: Text, token: Option<TokenBytes>, now: Instant, ticket: nat)
    : (Core, bool)
  {
    var c' := c.(remoteToDevice := c.remoteToDevice[remote := id]);
    if id in c.paired then (Marked(c', remote, id, name), false)
    else if token.None? || c.token.None? then (c', false)
    else
      var (t, error) := Present(c.token.value, token.value, now);
      if error.Some? then (c', false)
      else (c'.(token := Some(t), pending := c.pending[id := ticket]), true)
  }

  /** The rest, once the human has answered or the wait has run out. */
  function Answered(c: Core, remote: Remote, id: DeviceId, name: Text, accepted: bool): Core {
    if !accepted then c
    else
      Marked(c.(paired := c.paired + {id}, window := None, devices := Upserted(c.devices, Hex.ToHex(id), name)),
             remote, id, name)
  }

  function PairingStarted(c: Core, random: TokenBytes, now: Instant): Core {
    c.(window := Some(now + TOKEN_TTL), token := Some(Token(random, now, false)))
  }

  /** The ticket of the confirmation channel the answer goes to, if any. */
  function Confirmed(c: Core, id: DeviceId): (Core, Option<nat>) {
    (c.(pending := c.pending - {id}), if id in c.pending then Some(c.pending[id]) else None)
  }

  function Unpaired(c: Core, id: DeviceId): Core {
    c.(paired := c.paired - {id}, devices := Removed(c.devices, Hex.ToHex(id)), objects := c.objects - {id})
  }

  /** The state a daemon starts in from its persisted list. */
  function Restored(ds: seq<PersistedDevice>): Core {
    Core(map[], map[], map[], RestoredObjects(ds), IdSet(ds), None, None, map[], ds)
  }

  function RestoredObjects(ds: seq<PersistedDevice>): map<DeviceId, Device1> {
    if ds == [] then map[]
    else
      var before := RestoredObjects(ds[..|ds| - 1]);
      var last := ds[|ds| - 1];
      var id := Hex.ParsedAs(last.deviceId, 32);
      if id.None? then before else WithObject(before, id.value, last.name)
  }

  // ---- The handlers as methods ----

  class Shared {
    const trust: TrustStore
    const state: PersistedState
    var remoteHandles: map<Remote, Handle>
    var remoteToDevice: map<Remote, DeviceId>
    var connectedDevices: map<DeviceId, Handle>
    var objects: map<DeviceId, Device1>
    var currentToken: PairingToken?
    var pendingConfirmations: map<DeviceId, nat>

    ghost function Footprint(): set<object>
      reads this
    {
      {this, trust, state} + if currentToken == null then {} else {currentToken}
    }

    ghost function View(): Core
      reads Footprint(), this
    {
      Core(remoteHandles, remoteToDevice, connectedDevices, objects, trust.paired, trust.pairingDeadline,
           if currentToken == null then None else Some(currentToken.View()), pendingConfirmations, state.devices)
    }

    constructor (loaded: seq<PersistedDevice>)
      ensures View() == Restored(loaded) && fresh(Footprint())
    {
      var list := new PersistedState(loaded);
      var ids := list.DeviceIds();
      trust := new TrustStore(ids);
      state := list;
      remoteHandles, remoteToDevice, connectedDevices := map[], map[], map[];
      objects, currentToken, pendingConfirmations := map[], null, map[];
      new;
      for i := 0 to |loaded|
        invariant objects == RestoredObjects(loaded[..i])
        invariant View() == Restored(loaded).(objects := objects) && fresh(Footprint())
      {
        assert loaded[..i + 1][..i] == loaded[..i];
        var id := Hex.FromHex(loaded[i].deviceId);
        if id.Some? {
          EnsureDeviceObject(id.value, loaded[i].name);
        }
      }
      assert loaded[..|loaded|] == loaded;
    }

    method EnsureDeviceObject(id: DeviceId, name: Text)
      modifies this`objects
      ensures objects == WithObject(old(objects), id, name)
    {
      if id in objects {
        return;
      }
      objects := objects[id := Device1(name, false)];
    }

    method SetConnected(id: DeviceId, connected: bool)
      modifies this`objects
      ensures objects == WithConnected(old(objects), id, connected)
    {
      if id !in objects {
        return;
      }
      var iface := objects[id];
      if iface.connected == connected {
        assert objects[id := objects[id].(connected := connected)] == objects;
        return;
      }
      objects := objects[id := iface.(connected := connected)];
    }

    method MarkConnected(remote: Remote, id: DeviceId, name: Text)
      modifies this`objects, this`connectedDevices
      ensures View() == Marked(old(View()), remote, id, name)
    {
      EnsureDeviceObject(id, name);
      SetConnected(id, true);
      if remote in remoteHandles {
        connectedDevices := connectedDevices[id := remoteHandles[remote]];
      }
    }

    method OnConnected(remote: Remote, handle: Handle)
      modifies this`remoteHandles
      ensures View() == Connected(old(View()), remote, handle)
    {
      remoteHandles := remoteHandles[remote := handle];
    }

    method OnClosed(remote: Remote)
      modifies this`remoteHandles, this`remoteToDevice, this`connectedDevices, this`objects
      ensures View() == Closed(old(View()), remote)
    {
      remoteHandles := remoteHandles - {remote};
      var known := remote in remoteToDevice;
      if known {
        var id := remoteToDevice[remote];
        remoteToDevice := remoteToDevice - {remote};
        connectedDevices := connectedDevices - {id};
        SetConnected(id, false);
      } else {
        assert remoteToDevice - {remote} == remoteToDevice;
      }
    }

    /** `awaiting` tells whether the handler goes on to wait for the human. */
    method OnPeerHandshake(remote: Remote, id: DeviceId, name: Text, token: Option<TokenBytes>, now: Instant, ticket: nat)
      returns (awaiting: bool)
      modifies Footprint()
      ensures (View(), awaiting) == Greeted(old(View()), remote, id, name, token, now, ticket)
      ensures currentToken == old(currentToken)
    {
      remoteToDevice := remoteToDevice[remote := id];
      if id in trust.paired {
        MarkConnected(remote, id, name);
        return false;
      }
      if token.None? {
        return false;
      }
      var redeemed := false;
      if currentToken != null {
        var error := currentToken.Redeem(token.value, now);
        redeemed := error.None?;
      }
      if !redeemed {
        return false;
      }
      pendingConfirmations := pendingConfirmations[id := ticket];
      return true;
    }

    method OnAnswer(remote: Remote, id: DeviceId, name: Text, accepted: bool)
      modifies Footprint()
      ensures View() == Answered(old(View()), remote, id, name, accepted)
      ensures currentToken == old(currentToken)
    {
      if !accepted {
        return;
      }
      trust.Pin(id);
      trust.ClosePairingWindow();
      state.Upsert(id, name);
      MarkConnected(remote, id, name);
    }

    method OpenPairing(random: TokenBytes, now: Instant)
      modifies Footprint()
      ensures View() == PairingStarted(old(View()), random, now)
      ensures fresh(Footprint() - old(Footprint()))
    {
      var token := new PairingToken(random, now);
      trust.OpenPairingWindow(now + TOKEN_TTL);
      currentToken := token;
    }

    /** Whoever scans the URI learns this daemon's identity, name and addresses
        and the very token now in the slot. */
    method StartPairing(random: TokenBytes, now: Instant, self: DeviceId, name: Text, addrs: seq<Qr.SocketAddr>)
      returns (uri: Text)
      modifies Footprint()
      ensures View() == PairingStarted(old(View()), random, now)
      ensures fresh(Footprint() - old(Footprint()))
      ensures Qr.Shows(uri, Qr.QrPayload(PROTOCOL_VERSION, self, name, addrs, random))
    {
      OpenPairing(random, now);
      uri := Qr.ShowQrUri(Qr.QrPayload(PROTOCOL_VERSION, self, name, addrs, random));
    }

    /** `malformed` for a string that is no device id; otherwise the channel
        the answer was sent on. */
    method ConfirmPairing(deviceId: string) returns (malformed: bool, sentTo: Option<nat>)
      modifies this`pendingConfirmations
      ensures malformed <==> Hex.ParsedAs(deviceId, 32).None?
      ensures malformed ==> View() == old(View()) && sentTo == None
      ensures !malformed ==>
                var id := Hex.ParsedAs(deviceId, 32).value;
                && (View(), sentTo) == Confirmed(old(View()), id)
                && id !in pendingConfirmations && (sentTo.Some? <==> id in old(pendingConfirmations))
    {
      var id := Hex.FromHex(deviceId);
      if id.None? {
        return true, None;
      }
      malformed, sentTo := false, None;
      if id.value in pendingConfirmations {
        sentTo := Some(pendingConfirmations[id.value]);
        pendingConfirmations := pendingConfirmations - {id.value};
      } else {
        assert pendingConfirmations - {id.value} == pendingConfirmations;
      }
    }

    method Unpair(deviceId: string) returns (malformed: bool)
      modifies Footprint()
      ensures malformed <==> Hex.ParsedAs(deviceId, 32).None?
      ensures malformed ==> View() == old(View())
      ensures !malformed ==> View() == Unpaired(old(View()), Hex.ParsedAs(deviceId, 32).value)
      ensures !malformed ==> Hex.ParsedAs(deviceId, 32).value !in trust.paired + objects.Keys
      ensures remoteHandles == old(remoteHandles) && remoteToDevice == old(remoteToDevice)
      ensures connectedDevices == old(connectedDevices) && pendingConfirmations == old(pendingConfirmations)
      ensures currentToken == old(currentToken)
    {
      var id := Hex.FromHex(deviceId);
      if id.None? {
        return true;
      }
      trust.Unpair(id.value);
      state.Remove(id.value);
      objects := objects - {id.value};
      return false;
    }
  }
}
