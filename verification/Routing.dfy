/// What every run of the daemon keeps about its three connection tables and
/// the D-Bus device objects.
module Routing {
  import opened Protocol
  import opened DaemonRun
  import opened Pairing
  import opened Devices
  import Hex
  import D = Daemon
  import C = Connection
  import S = Session

  /** What the tables say about one remote. */
  datatype Spot = Absent | Opening(handle: D.Handle) | Talking(handle: D.Handle, id: DeviceId)

  function SpotOf(c: D.Core, r: D.Remote): Spot {
    if r !in c.remoteHandles then Absent
    else if r in c.remoteToDevice then Talking(c.remoteHandles[r], c.remoteToDevice[r])
    else Opening(c.remoteHandles[r])
  }

  function RemoteOf(e: ListenerEvent): D.Remote {
    match e
    case Arrived(h) => h.remote
    case FromSession(r, _) => r
  }

  function Follow(spot: Spot, e: ListenerEvent): Option<Spot> {
    match (spot, e)
    case (Absent, Arrived(h)) => Some(Opening(h))
    case (Absent, _) => None
    case (_, Arrived(_)) => None
    case (_, FromSession(_, Closed(_))) => Some(Absent)
    case (Opening(h), FromSession(_, PeerHandshake(id, _, _, _))) => Some(Talking(h, id))
    case (Opening(_), _) => None
    case (Talking(_, _), FromSession(_, PeerHandshake(_, _, _, _))) => None
    case (Talking(_, _), _) => Some(spot)
  }

  /** Where the queued events of one remote lead. */
  function Walk(r: D.Remote, spot: Spot, q: seq<ListenerEvent>): Option<Spot>
    decreases |q|
  {
    if q == [] then Some(spot)
    else if RemoteOf(q[0]) != r then Walk(r, spot, q[1..])
    else
      var next := Follow(spot, q[0]);
      if next.None? then None else Walk(r, next.value, q[1..])
  }

  predicate Fits(spot: Spot, live: map<D.Remote, Conn>, r: D.Remote) {
    match spot
    case Absent => r !in live
    case Opening(h) => r in live && live[r].handle == h && live[r].m.phase == C.AwaitingPeerHandshake
    case Talking(h, _) => r in live && live[r].handle == h && live[r].m.phase == C.Ready
  }

  /** The queue leads from what the tables say to what is really running. */
  ghost predicate QueueLeads(s: System) {
    forall r :: Walk(r, SpotOf(s.core, r), s.queue).Some? && Fits(Walk(r, SpotOf(s.core, r), s.queue).value, s.live, r)
  }

  predicate TablesAgree(c: D.Core) {
    && c.remoteToDevice.Keys <= c.remoteHandles.Keys
    && (forall r :: r in c.remoteHandles ==> c.remoteHandles[r].remote == r)
    && (forall id :: id in c.connectedDevices ==> Backed(c, id))
  }

  /** A connected device's handle is the one its remote was accepted with, and
      that remote introduced itself as the device. */
  predicate Backed(c: D.Core, id: DeviceId)
    requires id in c.connectedDevices
  {
    var h := c.connectedDevices[id];
    && h.remote in c.remoteHandles && c.remoteHandles[h.remote] == h
    && h.remote in c.remoteToDevice && c.remoteToDevice[h.remote] == id
  }

  predicate WaitsForKnown(s: System) {
    s.waiting.Awaiting? ==>
      && s.waiting.remote in s.core.remoteHandles
      && s.waiting.remote in s.core.remoteToDevice && s.core.remoteToDevice[s.waiting.remote] == s.waiting.id
  }

  /** Connections are numbered in the order they are announced. */
  predicate Numbered(s: System) {
    && (forall r :: r in s.core.remoteHandles ==> s.core.remoteHandles[r].serial < s.nextSerial)
    && (forall i :: 0 <= i < |s.queue| && s.queue[i].Arrived? ==> s.queue[i].handle.serial < s.nextSerial)
    && (forall r, i :: r in s.core.remoteHandles && 0 <= i < |s.queue| && s.queue[i].Arrived? ==>
          s.core.remoteHandles[r].serial < s.queue[i].handle.serial)
    && (forall i, j :: 0 <= i < j < |s.queue| && s.queue[i].Arrived? && s.queue[j].Arrived? ==>
          s.queue[i].handle.serial < s.queue[j].handle.serial)
  }

  /** A registered object shows connected exactly when its device is. */
  predicate Mirrors(c: D.Core) {
    forall id :: id in c.objects ==> (c.objects[id].connected <==> id in c.connectedDevices)
  }

  /** The pins and the registered objects name the same devices. */
  predicate Registered(c: D.Core) {
    c.objects.Keys == c.paired
  }

  /** Everything the orchestrator keeps about the tables themselves. */
  predicate CoreInv(c: D.Core) {
    TablesAgree(c) && Mirrors(c) && Registered(c)
  }

  ghost predicate Inv(s: System) {
    QueueLeads(s) && CoreInv(s.core) && WaitsForKnown(s) && Numbered(s)
  }

  // ---- Queue lemmas ----

  lemma {:induction false} WalkAppend(r: D.Remote, spot: Spot, a: seq<ListenerEvent>, b: seq<ListenerEvent>)
    ensures Walk(r, spot, a + b) == if Walk(r, spot, a).Some? then Walk(r, Walk(r, spot, a).value, b) else None
    decreases |a|
  {
    if a == [] {
      assert a + b == b;
    } else {
      assert (a + b)[1..] == a[1..] + b;
      if RemoteOf(a[0]) != r {
        WalkAppend(r, spot, a[1..], b);
      } else if Follow(spot, a[0]).Some? {
        WalkAppend(r, Follow(spot, a[0]).value, a[1..], b);
      }
    }
  }

  lemma {:induction false} WalkPast(r: D.Remote, spot: Spot, q: seq<ListenerEvent>)
    requires forall i :: 0 <= i < |q| ==> RemoteOf(q[i]) != r
    ensures Walk(r, spot, q) == Some(spot)
    decreases |q|
  {
    if q != [] {
      WalkPast(r, spot, q[1..]);
    }
  }

  /** Appending events of one remote moves that remote only. */
  lemma QueueGrows(s: System, s': System, r0: D.Remote, more: seq<ListenerEvent>)
    requires QueueLeads(s) && s'.core == s.core && s'.queue == s.queue + more
    requires forall i :: 0 <= i < |more| ==> RemoteOf(more[i]) == r0
    requires forall r :: r != r0 ==> (r in s'.live <==> r in s.live) && (r in s.live ==> s'.live[r] == s.live[r])
    requires forall spot :: Fits(spot, s.live, r0) ==>
               Walk(r0, spot, more).Some? && Fits(Walk(r0, spot, more).value, s'.live, r0)
    ensures QueueLeads(s')
  {
    forall r
      ensures Walk(r, SpotOf(s'.core, r), s'.queue).Some? && Fits(Walk(r, SpotOf(s'.core, r), s'.queue).value, s'.live, r)
    {
      WalkAppend(r, SpotOf(s.core, r), s.queue, more);
      if r != r0 {
        WalkPast(r, Walk(r, SpotOf(s.core, r), s.queue).value, more);
      }
    }
  }

  /** What a running session's turn reports fits its place. */
  lemma TurnFits(s: System, r: D.Remote, turn: S.Turn, spot: Spot)
    requires r in s.live && Fits(spot, s.live, r)
    ensures var s' := Driven(s, r, turn);
            var events := S.DriveTurn(s.live[r].m, turn).1.events;
            Walk(r, spot, Tagged(r, events)).Some? && Fits(Walk(r, spot, Tagged(r, events)).value, s'.live, r)
  {
    var (m', o) := S.DriveTurn(s.live[r].m, turn);
    S.TurnFollowsGrammar(s.live[r].m, turn);
    if o.events == [] {
      assert Tagged(r, o.events) == [];
    } else {
      assert o.events == [o.events[0]];
      assert Tagged(r, o.events) == [FromSession(r, o.events[0])];
      assert Tagged(r, o.events)[1..] == [];
    }
  }

  /** A whole session's events, from its place on. */
  lemma {:induction false} SessionWalks(r: D.Remote, h: D.Handle, spot: Spot, stage: S.Stage, events: seq<S.SessionEvent>)
    requires (spot == Opening(h) && stage == S.Opening) || (spot.Talking? && stage == S.Talking)
    requires S.Walk(stage, events) == Some(S.Over)
    ensures Walk(r, spot, Tagged(r, events)) == Some(Absent)
    decreases |events|
  {
    var stage' := S.Follow(stage, events[0]).value;
    assert Tagged(r, events)[1..] == Tagged(r, events[1..]);
    if stage' == S.Over {
      assert events[1..] == [];
    } else {
      SessionWalks(r, h, Follow(spot, FromSession(r, events[0])).value, stage', events[1..]);
    }
  }

  /** One accepted connection: announced once, then drained. Whatever it meets,
      a connection whose driver exits leaves its remote as it found it. Nothing
      is sent if the control stream does not open or nobody listens. */
  method AcceptAndDrain(handle: D.Handle, hasStream: bool, listening: bool, local: C.Identity, interval: Duration,
                        startError: Option<string>, turns: seq<S.Turn>)
    returns (sent: seq<ListenerEvent>, live: bool)
    ensures !hasStream || !listening ==> sent == [] && !live
    ensures hasStream && listening ==>
              var o := S.Serve(C.New(local, interval, None), startError, turns).1;
              live == o.live && sent == [Arrived(handle)] + Tagged(handle.remote, o.events)
    ensures !live ==> Walk(handle.remote, Absent, sent) == Some(Absent)
  {
    if !hasStream || !listening {
      return [], false;
    }
    var machine := new C.ConnectionMachine(local, interval, None);
    var reason, passed;
    reason, passed, live := S.DriveThenDrain(machine, startError, turns);
    sent := [Arrived(handle)] + Tagged(handle.remote, passed);
    if !live {
      S.GrammarMeansComplete(passed);
      SessionWalks(handle.remote, handle, Opening(handle), S.Opening, passed);
      assert sent[1..] == Tagged(handle.remote, passed);
    }
  }

  lemma DriveKeepsQueue(s: System, r: D.Remote, turn: S.Turn)
    requires QueueLeads(s) && r in s.live
    ensures QueueLeads(Driven(s, r, turn))
  {
    var events := S.DriveTurn(s.live[r].m, turn).1.events;
    forall spot | Fits(spot, s.live, r)
      ensures Walk(r, spot, Tagged(r, events)).Some? && Fits(Walk(r, spot, Tagged(r, events)).value, Driven(s, r, turn).live, r)
    {
      TurnFits(s, r, turn, spot);
    }
    QueueGrows(s, Driven(s, r, turn), r, Tagged(r, events));
  }

  lemma AcceptFits(s: System, h: D.Handle, m: C.Machine, startError: Option<string>)
    requires h.remote !in s.live && m.phase == C.AwaitingPeerHandshake
    ensures var s' := Accepted(s, h, m, startError);
            var o := S.PerformAll(C.Next(m, C.Started, 0, s.now).1, startError);
            var more := [Arrived(h)] + Tagged(h.remote, o.events);
            && Walk(h.remote, Absent, more).Some? && Fits(Walk(h.remote, Absent, more).value, s'.live, h.remote)
  {
    S.PerformOne(m, C.Started, 0, s.now, startError);
    var o := S.PerformAll(C.Next(m, C.Started, 0, s.now).1, startError);
    var r := h.remote;
    var more := [Arrived(h)] + Tagged(r, o.events);
    assert more[1..] == Tagged(r, o.events);
    if startError.Some? {
      assert Tagged(r, o.events) == [FromSession(r, o.events[0])];
      assert Tagged(r, o.events)[1..] == [];
      assert Walk(r, Opening(h), Tagged(r, o.events)) == Some(Absent);
    } else {
      assert Tagged(r, o.events) == [];
    }
  }

  lemma AcceptKeepsQueue(s: System, h: D.Handle, m: C.Machine, startError: Option<string>)
    requires QueueLeads(s) && h.remote !in s.live && m.phase == C.AwaitingPeerHandshake
    ensures QueueLeads(Accepted(s, h, m, startError))
  {
    var o := S.PerformAll(C.Next(m, C.Started, 0, s.now).1, startError);
    var more := [Arrived(h)] + Tagged(h.remote, o.events);
    AcceptFits(s, h, m, startError);
    forall spot | Fits(spot, s.live, h.remote)
      ensures Walk(h.remote, spot, more).Some?
      ensures Fits(Walk(h.remote, spot, more).value, Accepted(s, h, m, startError).live, h.remote)
    {
      assert spot == Absent;
    }
    QueueGrows(s, Accepted(s, h, m, startError), h.remote, more);
  }

  // ---- The orchestrator's steps ----

  /** The event at the head of the queue is one the tables are ready for:
      arrivals find their remote unknown, a handshake finds it unnamed, round
      trips and clips find it named. */
  lemma HeadExpected(s: System)
    requires QueueLeads(s) && s.queue != []
    ensures Follow(SpotOf(s.core, RemoteOf(s.queue[0])), s.queue[0]).Some?
  {
    var r := RemoteOf(s.queue[0]);
    assert Walk(r, SpotOf(s.core, r), s.queue).Some?;
  }

  /** `c'` differs from `c` in what the tables say about one remote only. */
  ghost predicate Moves(c: D.Core, c': D.Core, r0: D.Remote, spot: Spot) {
    SpotOf(c', r0) == spot && forall r :: r != r0 ==> SpotOf(c', r) == SpotOf(c, r)
  }

  lemma ConnectedKeeps(c: D.Core, h: D.Handle)
    requires CoreInv(c) && SpotOf(c, h.remote) == Absent
    ensures CoreInv(D.Connected(c, h.remote, h)) && Moves(c, D.Connected(c, h.remote, h), h.remote, Opening(h))
  {
    var c' := D.Connected(c, h.remote, h);
    forall id | id in c'.connectedDevices
      ensures Backed(c', id)
    {
      assert Backed(c, id);
    }
  }

  lemma NamedKeeps(c: D.Core, r: D.Remote, id: DeviceId)
    requires CoreInv(c) && SpotOf(c, r).Opening?
    ensures var c' := c.(remoteToDevice := c.remoteToDevice[r := id]);
            CoreInv(c') && Moves(c, c', r, Talking(c.remoteHandles[r], id))
  {
    var c' := c.(remoteToDevice := c.remoteToDevice[r := id]);
    forall other | other in c'.connectedDevices
      ensures Backed(c', other)
    {
      assert Backed(c, other);
    }
  }

  lemma MarkedKeeps(c: D.Core, r: D.Remote, id: DeviceId, name: Text)
    requires TablesAgree(c) && Mirrors(c)
    requires r in c.remoteHandles && r in c.remoteToDevice && c.remoteToDevice[r] == id
    ensures var c' := D.Marked(c, r, id, name);
            && TablesAgree(c') && Mirrors(c')
            && c'.objects.Keys == c.objects.Keys + {id}
            && c' == c.(objects := c'.objects, connectedDevices := c'.connectedDevices)
  {
    var c' := D.Marked(c, r, id, name);
    forall other | other in c'.connectedDevices
      ensures Backed(c', other)
    {
      assert other in c.connectedDevices ==> Backed(c, other);
    }
  }

  lemma GreetedKeeps(c: D.Core, r: D.Remote, id: DeviceId, name: Text, token: Option<TokenBytes>, now: Instant, ticket: nat)
    requires CoreInv(c) && SpotOf(c, r).Opening?
    ensures var c' := D.Greeted(c, r, id, name, token, now, ticket).0;
            CoreInv(c') && Moves(c, c', r, Talking(c.remoteHandles[r], id))
  {
    NamedKeeps(c, r, id);
    var named := c.(remoteToDevice := c.remoteToDevice[r := id]);
    var c' := D.Greeted(c, r, id, name, token, now, ticket).0;
    if id in c.paired {
      MarkedKeeps(named, r, id, name);
    } else {
      SameRouting(named, c');
    }
  }

  lemma SameRouting(c: D.Core, c': D.Core)
    requires CoreInv(c)
    requires c' == c.(window := c'.window, token := c'.token, pending := c'.pending)
    ensures CoreInv(c') && forall r :: SpotOf(c', r) == SpotOf(c, r)
  {
    forall id | id in c'.connectedDevices
      ensures Backed(c', id)
    {
      assert Backed(c, id);
    }
  }

  lemma ClosedKeeps(c: D.Core, r: D.Remote)
    requires CoreInv(c) && SpotOf(c, r) != Absent
    ensures CoreInv(D.Closed(c, r)) && Moves(c, D.Closed(c, r), r, Absent)
  {
    var c' := D.Closed(c, r);
    forall id | id in c'.connectedDevices
      ensures Backed(c', id)
    {
      assert Backed(c, id);
    }
  }

  lemma HandledKeepsCore(s: System)
    requires QueueLeads(s) && CoreInv(s.core) && s.queue != []
    ensures CoreInv(Handled(s).core)
    ensures var r0 := RemoteOf(s.queue[0]);
            Moves(s.core, Handled(s).core, r0, Follow(SpotOf(s.core, r0), s.queue[0]).value)
  {
    HeadExpected(s);
    match s.queue[0] {
      case Arrived(h) => ConnectedKeeps(s.core, h);
      case FromSession(r, PeerHandshake(id, name, _, token)) =>
        GreetedKeeps(s.core, r, id, name, token, s.now, s.nextTicket);
      case FromSession(r, Closed(_)) => ClosedKeeps(s.core, r);
      case _ =>
    }
  }

  lemma HandledKeepsQueue(s: System)
    requires QueueLeads(s) && CoreInv(s.core) && s.queue != []
    ensures QueueLeads(Handled(s))
  {
    HeadExpected(s);
    HandledKeepsCore(s);
    var s' := Handled(s);
    forall r
      ensures Walk(r, SpotOf(s'.core, r), s'.queue).Some? && Fits(Walk(r, SpotOf(s'.core, r), s'.queue).value, s'.live, r)
    {
      assert Walk(r, SpotOf(s.core, r), s.queue).Some?;
    }
  }

  lemma GreetedKeepsHandles(c: D.Core, r: D.Remote, id: DeviceId, name: Text, token: Option<TokenBytes>, now: Instant, ticket: nat)
    ensures D.Greeted(c, r, id, name, token, now, ticket).0.remoteHandles == c.remoteHandles
  {
  }

  /** A handled event leaves no handle that was not held or announced before. */
  lemma HandledHandles(s: System, r: D.Remote)
    requires s.queue != [] && r in Handled(s).core.remoteHandles
    ensures var h := Handled(s).core.remoteHandles[r];
            (r in s.core.remoteHandles && s.core.remoteHandles[r] == h) || s.queue[0] == Arrived(h)
  {
    match s.queue[0] {
      case FromSession(remote, PeerHandshake(id, name, _, token)) =>
        GreetedKeepsHandles(s.core, remote, id, name, token, s.now, s.nextTicket);
      case _ =>
    }
  }

  lemma HandledKeepsNumbers(s: System)
    requires QueueLeads(s) && Numbered(s) && s.queue != []
    ensures Numbered(Handled(s))
  {
    forall r | r in Handled(s).core.remoteHandles
      ensures (r in s.core.remoteHandles && s.core.remoteHandles[r] == Handled(s).core.remoteHandles[r])
              || s.queue[0] == Arrived(Handled(s).core.remoteHandles[r])
    {
      HandledHandles(s, r);
    }
    NumbersShrink(s, Handled(s));
  }

  lemma NumbersShrink(s: System, s': System)
    requires Numbered(s) && s.queue != [] && s'.queue == s.queue[1..] && s'.nextSerial == s.nextSerial
    requires forall r :: r in s'.core.remoteHandles ==>
               (r in s.core.remoteHandles && s.core.remoteHandles[r] == s'.core.remoteHandles[r])
               || s.queue[0] == Arrived(s'.core.remoteHandles[r])
    ensures Numbered(s')
  {
    assert forall i :: 0 <= i < |s'.queue| ==> s'.queue[i] == s.queue[i + 1];
  }

  lemma HandledWaits(s: System)
    requires QueueLeads(s) && TablesAgree(s.core) && s.waiting.Idle? && s.queue != []
    ensures WaitsForKnown(Handled(s))
  {
    HeadExpected(s);
  }

  lemma AnsweredKeeps(c: D.Core, r: D.Remote, id: DeviceId, name: Text, accepted: bool)
    requires CoreInv(c)
    requires r in c.remoteHandles && r in c.remoteToDevice && c.remoteToDevice[r] == id
    ensures var c' := D.Answered(c, r, id, name, accepted);
            && CoreInv(c')
            && c'.remoteHandles == c.remoteHandles && c'.remoteToDevice == c.remoteToDevice
  {
    if accepted {
      var pinned := c.(paired := c.paired + {id}, window := None, devices := Upserted(c.devices, Hex.ToHex(id), name));
      forall other | other in pinned.connectedDevices
        ensures Backed(pinned, other)
      {
        assert Backed(c, other);
      }
      MarkedKeeps(pinned, r, id, name);
    }
  }

  lemma UnpairedKeeps(c: D.Core, id: DeviceId)
    requires CoreInv(c)
    ensures var c' := D.Unpaired(c, id);
            && CoreInv(c')
            && c'.remoteHandles == c.remoteHandles && c'.remoteToDevice == c.remoteToDevice
  {
    forall other | other in c.connectedDevices
      ensures Backed(D.Unpaired(c, id), other)
    {
      assert Backed(c, other);
    }
  }

  lemma NumbersGrow(s: System, s': System, more: seq<ListenerEvent>)
    requires Numbered(s) && s'.core == s.core && s'.queue == s.queue + more
    requires ((forall i :: 0 <= i < |more| ==> !more[i].Arrived?) && s'.nextSerial == s.nextSerial)
             || (more != [] && more[0].Arrived? && more[0].handle.serial == s.nextSerial && s'.nextSerial == s.nextSerial + 1
                 && forall i :: 1 <= i < |more| ==> !more[i].Arrived?)
    ensures Numbered(s')
  {
  }

  /** Steps that leave the four tables and the queue alone. */
  lemma SameTables(s: System, s': System)
    requires Inv(s)
    requires s'.queue == s.queue && s'.live == s.live && s'.nextSerial == s.nextSerial
    requires s'.core.remoteHandles == s.core.remoteHandles && s'.core.remoteToDevice == s.core.remoteToDevice
    ensures QueueLeads(s') && Numbered(s')
  {
    forall r
      ensures Walk(r, SpotOf(s'.core, r), s'.queue).Some? && Fits(Walk(r, SpotOf(s'.core, r), s'.queue).value, s'.live, r)
    {
      assert SpotOf(s'.core, r) == SpotOf(s.core, r);
    }
  }

  lemma StepKeepsInv(s: System, step: Step)
    requires Inv(s) && CanStep(s, step)
    ensures Inv(Apply(s, step))
  {
    var s' := Apply(s, step);
    match step {
      case Accept(remote, tlsId, local, interval, startError) =>
        var (h, m) := (D.Handle(remote, s.nextSerial, tlsId), C.New(local, interval, None));
        AcceptKeepsQueue(s, h, m, startError);
        var o := S.PerformAll(C.Next(m, C.Started, 0, s.now).1, startError);
        NumbersGrow(s, s', [Arrived(h)] + Tagged(remote, o.events));
      case Drive(remote, turn) =>
        DriveKeepsQueue(s, remote, turn);
        NumbersGrow(s, s', Tagged(remote, S.DriveTurn(s.live[remote].m, turn).1.events));
      case Handle =>
        HandledKeepsQueue(s);
        HandledKeepsCore(s);
        HandledKeepsNumbers(s);
        HandledWaits(s);
      case Resume =>
        var w := s.waiting;
        AnsweredKeeps(s.core, w.remote, w.id, w.name, w.answer.Some? && w.answer.value.accept);
        SameTables(s, s');
      case Unpair(id) =>
        UnpairedKeeps(s.core, id);
        SameTables(s, s');
      case StartPairing(random) =>
        PairingCallKeeps(s, s');
      case ConfirmPairing(id, accept) =>
        PairingCallKeeps(s, s');
      case Advance(to) =>
        PairingCallKeeps(s, s');
    }
  }

  lemma PairingCallKeeps(s: System, s': System)
    requires Inv(s)
    requires s'.queue == s.queue && s'.live == s.live && s'.nextSerial == s.nextSerial
    requires s'.core == s.core.(window := s'.core.window, token := s'.core.token, pending := s'.core.pending)
    requires s'.waiting.Awaiting? ==> s.waiting.Awaiting? && s'.waiting.remote == s.waiting.remote && s'.waiting.id == s.waiting.id
    ensures Inv(s')
  {
    SameTables(s, s');
    SameRouting(s.core, s'.core);
  }

  // ---- Whole runs ----

  lemma {:induction false} RestoredObjectsMatch(ds: seq<PersistedDevice>)
    ensures D.RestoredObjects(ds).Keys == IdSet(ds)
    ensures forall id :: id in D.RestoredObjects(ds) ==> !D.RestoredObjects(ds)[id].connected
  {
    if ds != [] {
      var init, last := ds[..|ds| - 1], ds[|ds| - 1];
      RestoredObjectsMatch(init);
      IdsSnoc(init, last);
      assert ds == init + [last];
    }
  }

  lemma {:induction false} IdsSnoc(ds: seq<PersistedDevice>, d: PersistedDevice)
    ensures var id := Hex.ParsedAs(d.deviceId, 32);
            IdSet(ds + [d]) == IdSet(ds) + if id.None? then {} else {id.value}
  {
    if ds == [] {
      assert [d][1..] == [];
    } else {
      assert (ds + [d])[1..] == ds[1..] + [d];
      IdsSnoc(ds[1..], d);
      var id := Hex.ParsedAs(ds[0].deviceId, 32);
      assert IdSet(ds) == IdSet(ds[1..]) + if id.None? then {} else {id.value};
      assert IdSet(ds + [d]) == IdSet(ds[1..] + [d]) + if id.None? then {} else {id.value};
    }
  }

  lemma InitInv(ds: seq<PersistedDevice>, now: Instant)
    ensures Inv(Init(ds, now))
  {
    RestoredObjectsMatch(ds);
  }

  lemma {:induction false} RunKeepsInv(s: System, steps: seq<Step>)
    requires Inv(s) && Legal(s, steps)
    ensures Inv(After(s, steps))
    decreases |steps|
  {
    if steps != [] {
      StepKeepsInv(s, steps[0]);
      RunKeepsInv(Apply(s, steps[0]), steps[1..]);
    }
  }

  /** In every run, whatever the interleaving of sessions, D-Bus calls and the
      clock: a connected device's handle is the one held for its remote, whose
      handshake named that device; and while that session runs it is Ready, so
      a clip queued on the handle is written, never dropped by the phase gate. */
  lemma HandlesAreLiveAndReady(ds: seq<PersistedDevice>, now: Instant, steps: seq<Step>, id: DeviceId, clip: Clip)
    requires Legal(Init(ds, now), steps)
    requires id in After(Init(ds, now), steps).core.connectedDevices
    ensures var s := After(Init(ds, now), steps);
            var h := s.core.connectedDevices[id];
            && h.remote in s.core.remoteHandles && s.core.remoteHandles[h.remote] == h
            && h.remote in s.core.remoteToDevice && s.core.remoteToDevice[h.remote] == id
            && (h.remote in s.live && s.live[h.remote].handle == h ==>
                  C.Next(s.live[h.remote].m, C.SendClipboard(clip), 0, 0).1 == [C.Send(Clipboard(clip))])
  {
    InitInv(ds, now);
    RunKeepsInv(Init(ds, now), steps);
    var s := After(Init(ds, now), steps);
    var h := s.core.connectedDevices[id];
    assert Backed(s.core, id);
    if h.remote in s.live && s.live[h.remote].handle == h {
      StillTalking(h.remote, SpotOf(s.core, h.remote), s.queue, h);
    }
  }

  /** From `Talking(h, _)` a remote's queue leads back to `h` only by staying
      in that session: later arrivals carry later numbers. */
  lemma {:induction false} StillTalking(r: D.Remote, spot: Spot, q: seq<ListenerEvent>, h: D.Handle)
    requires Walk(r, spot, q).Some?
    requires forall i :: 0 <= i < |q| && q[i].Arrived? ==> h.serial < q[i].handle.serial
    requires spot.Opening? ==> spot.handle != h
    ensures Walk(r, spot, q).value.Opening? ==> Walk(r, spot, q).value.handle != h
    decreases |q|
  {
    if q != [] {
      if RemoteOf(q[0]) != r {
        StillTalking(r, spot, q[1..], h);
      } else {
        assert q[0].Arrived? ==> q[0].handle != h;
        StillTalking(r, Follow(spot, q[0]).value, q[1..], h);
      }
    }
  }

  /** Once a session's `Closed` has been handled, no table holds its handle:
      not the remote's entry, and not the device's. */
  lemma ClosedHandleIsGone(ds: seq<PersistedDevice>, now: Instant, steps: seq<Step>)
    requires Legal(Init(ds, now), steps)
    requires var s := After(Init(ds, now), steps);
             CanStep(s, Handle) && s.queue[0].FromSession? && s.queue[0].event.Closed?
    ensures var s := After(Init(ds, now), steps);
            var r := s.queue[0].remote;
            var c := Apply(s, Handle).core;
            && r in s.core.remoteHandles
            && r !in c.remoteHandles && r !in c.remoteToDevice
            && forall id :: id in c.connectedDevices ==> c.connectedDevices[id].remote != r
  {
    InitInv(ds, now);
    RunKeepsInv(Init(ds, now), steps);
    var s := After(Init(ds, now), steps);
    HeadExpected(s);
    HandledKeepsCore(s);
    var c := Apply(s, Handle).core;
    forall id | id in c.connectedDevices
      ensures c.connectedDevices[id].remote != s.queue[0].remote
    {
      assert Backed(c, id);
    }
  }

  /** A clip handed to the orchestrator always has a known sender and goes on to
      the clipboard handler with it: the arm that drops one from an unnamed
      remote is never taken. */
  lemma ClipHasSender(ds: seq<PersistedDevice>, now: Instant, steps: seq<Step>)
    requires Legal(Init(ds, now), steps)
    requires var s := After(Init(ds, now), steps);
             CanStep(s, Handle) && s.queue[0].FromSession? && s.queue[0].event.ClipboardReceived?
    ensures var s := After(Init(ds, now), steps);
            && s.queue[0].remote in s.core.remoteToDevice
            && ClipsFor(s) == [(s.core.remoteToDevice[s.queue[0].remote], s.queue[0].event.clip)]
  {
    InitInv(ds, now);
    RunKeepsInv(Init(ds, now), steps);
    HeadExpected(After(Init(ds, now), steps));
  }

  /** Nothing leaks: when no session runs and every event is handled, all
      three tables are empty; and at every moment a registered device object
      shows connected exactly when its device is in the table. */
  lemma NoLeakAndMirror(ds: seq<PersistedDevice>, now: Instant, steps: seq<Step>)
    requires Legal(Init(ds, now), steps)
    ensures var s := After(Init(ds, now), steps);
            && (s.live == map[] && s.queue == [] ==>
                  s.core.remoteHandles == map[] && s.core.remoteToDevice == map[] && s.core.connectedDevices == map[])
            && forall id :: id in s.core.objects ==> (s.core.objects[id].connected <==> id in s.core.connectedDevices)
  {
    InitInv(ds, now);
    RunKeepsInv(Init(ds, now), steps);
    var s := After(Init(ds, now), steps);
    if s.live == map[] && s.queue == [] {
      forall r ensures r !in s.core.remoteHandles {
        assert Fits(Walk(r, SpotOf(s.core, r), s.queue).value, s.live, r);
      }
      forall id ensures id !in s.core.connectedDevices {
        assert id in s.core.connectedDevices ==> Backed(s.core, id);
      }
    }
  }

  // ---- The persisted list ----

  lemma StepKeepsList(s: System, step: Step)
    requires CanStep(s, step)
    ensures var (c, c') := (s.core, Apply(s, step).core);
            && (c.paired <= IdSet(c.devices) ==> c'.paired <= IdSet(c'.devices))
            && (Plain(c.devices) ==> Plain(c'.devices))
            && (Plain(c.devices) && IdSet(c.devices) == c.paired ==> IdSet(c'.devices) == c'.paired)
            && (Canonical(c.devices) ==> Canonical(c'.devices))
  {
    match step {
      case Resume => UpsertAddsOne(s.core.devices, s.waiting.id, s.waiting.name);
      case Unpair(id) => RemoveDropsOne(s.core.devices, id);
      case _ => assert Apply(s, step).core.devices == s.core.devices && Apply(s, step).core.paired == s.core.paired;
    }
  }

  lemma {:induction false} RunKeepsList(s: System, steps: seq<Step>)
    requires Legal(s, steps)
    ensures var (c, c') := (s.core, After(s, steps).core);
            && (c.paired <= IdSet(c.devices) ==> c'.paired <= IdSet(c'.devices))
            && (Plain(c.devices) && IdSet(c.devices) == c.paired ==> IdSet(c'.devices) == c'.paired)
            && (Canonical(c.devices) ==> Canonical(c'.devices))
    decreases |steps|
  {
    if steps != [] {
      StepKeepsList(s, steps[0]);
      RunKeepsList(Apply(s, steps[0]), steps[1..]);
    }
  }

  /** A daemon restarted from the list registers exactly the devices it pins
      and loses no trusted one; it keeps the list free of repeated keys; and if
      the list it first loaded was plain, it makes the same admission decision
      on every certificate once the pairing window is shut. */
  lemma RestartRefines(ds: seq<PersistedDevice>, now: Instant, steps: seq<Step>, id: DeviceId, later: Instant)
    requires Legal(Init(ds, now), steps)
    ensures var c := After(Init(ds, now), steps).core;
            var restarted := D.Restored(c.devices);
            && c.objects.Keys == c.paired && restarted.objects.Keys == restarted.paired
            && c.paired <= restarted.paired
            && (Canonical(ds) ==> Canonical(c.devices))
            && (Plain(ds) && !WindowOpen(c.window, later) ==>
                  (Admits(Trust(restarted.paired, restarted.window), id, later)
                   <==> Admits(Trust(c.paired, c.window), id, later)))
  {
    InitInv(ds, now);
    RunKeepsInv(Init(ds, now), steps);
    RunKeepsList(Init(ds, now), steps);
    RestoredObjectsMatch(After(Init(ds, now), steps).core.devices);
  }

  /** Each registered object shows a name the list holds for its device. */
  predicate NamesStored(s: System) {
    && (forall id :: id in s.core.objects ==> Stored(s.core, id))
    && (s.waiting.Awaiting? ==> s.waiting.id !in s.core.paired)
  }

  predicate Stored(c: D.Core, id: DeviceId)
    requires id in c.objects
  {
    PersistedDevice(Hex.ToHex(id), c.objects[id].name) in c.devices
  }

  lemma StepKeepsNames(s: System, step: Step)
    requires Inv(s) && NamesStored(s) && CanStep(s, step)
    ensures NamesStored(Apply(s, step))
  {
    match step {
      case Resume => AnsweredKeepsNames(s);
      case Unpair(id) => UnpairedKeepsNames(s, id);
      case Handle => HandledKeepsNames(s);
      case _ =>
        var c' := Apply(s, step).core;
        assert c'.objects == s.core.objects && c'.devices == s.core.devices && c'.paired == s.core.paired;
        assert forall id :: id in c'.objects ==> Stored(s.core, id);
    }
  }

  lemma AnsweredKeepsNames(s: System)
    requires Inv(s) && NamesStored(s) && CanStep(s, Resume)
    ensures NamesStored(Resumed(s))
  {
    var (c, c', w) := (s.core, Resumed(s).core, s.waiting);
    if w.answer.Some? && w.answer.value.accept {
      UpsertAddsOne(c.devices, w.id, w.name);
      RemovedEntries(c.devices, Hex.ToHex(w.id));
      RemovedEntries(c'.devices, Hex.ToHex(w.id));
      forall id | id in c'.objects ensures Stored(c', id) {
        Hex.ToHexInjective(id, w.id);
        assert id != w.id ==> Stored(c, id);
      }
    } else {
      assert forall id :: id in c'.objects ==> Stored(c, id);
    }
  }

  lemma UnpairedKeepsNames(s: System, id: DeviceId)
    requires Inv(s) && NamesStored(s)
    ensures NamesStored(Apply(s, Unpair(id)))
  {
    var c' := Apply(s, Unpair(id)).core;
    RemovedEntries(s.core.devices, Hex.ToHex(id));
    forall other | other in c'.objects ensures Stored(c', other) {
      Hex.ToHexInjective(other, id);
      assert Stored(s.core, other);
    }
  }

  lemma HandledKeepsNames(s: System)
    requires Inv(s) && NamesStored(s) && CanStep(s, Handle)
    ensures NamesStored(Handled(s))
  {
    var (c, c') := (s.core, Handled(s).core);
    forall id | id in c'.objects ensures Stored(c', id) {
      HandledObject(s, id);
      assert Stored(c, id);
    }
  }

  /** Handling an event flips at most the connected flag of an object. */
  lemma HandledObject(s: System, id: DeviceId)
    requires Registered(s.core) && s.queue != [] && id in Handled(s).core.objects
    ensures id in s.core.objects && Handled(s).core.objects[id].name == s.core.objects[id].name
    ensures Handled(s).core.devices == s.core.devices && Handled(s).core.paired == s.core.paired
  {
    match s.queue[0] {
      case FromSession(r, PeerHandshake(greeted, name, _, token)) =>
        GreetedObject(s.core, r, greeted, name, token, s.now, s.nextTicket, id);
      case _ =>
    }
  }

  lemma GreetedObject(c: D.Core, r: D.Remote, greeted: DeviceId, name: Text, token: Option<TokenBytes>, now: Instant,
                      ticket: nat, id: DeviceId)
    requires Registered(c) && id in D.Greeted(c, r, greeted, name, token, now, ticket).0.objects
    ensures var c' := D.Greeted(c, r, greeted, name, token, now, ticket).0;
            id in c.objects && c'.objects[id].name == c.objects[id].name && c'.devices == c.devices && c'.paired == c.paired
  {
  }

  lemma {:induction false} RestoredNames(ds: seq<PersistedDevice>, id: DeviceId)
    requires Plain(ds) && id in D.RestoredObjects(ds)
    ensures PersistedDevice(Hex.ToHex(id), D.RestoredObjects(ds)[id].name) in ds
  {
    var init, last := ds[..|ds| - 1], ds[|ds| - 1];
    assert ds == init + [last];
    KeysSnoc(init, last);
    if id in D.RestoredObjects(init) {
      RestoredNames(init, id);
    } else {
      assert last.deviceId in Keys(ds);
      PlainKey(last.deviceId, id);
    }
  }

  lemma {:induction false} KeysSnoc(ds: seq<PersistedDevice>, d: PersistedDevice)
    ensures Keys(ds + [d]) == Keys(ds) + [d.deviceId]
  {
    var none: seq<PersistedDevice> := [];
    if ds == [] {
      assert ds + [d] == [d] && [d][1..] == none;
    } else {
      assert (ds + [d])[0] == ds[0] && (ds + [d])[1..] == ds[1..] + [d];
      KeysSnoc(ds[1..], d);
    }
  }

  lemma {:induction false} RunKeepsNames(s: System, steps: seq<Step>)
    requires Inv(s) && NamesStored(s) && Legal(s, steps)
    ensures NamesStored(After(s, steps))
    decreases |steps|
  {
    if steps != [] {
      StepKeepsInv(s, steps[0]);
      StepKeepsNames(s, steps[0]);
      RunKeepsNames(Apply(s, steps[0]), steps[1..]);
    }
  }

  /** In every run from a plain list, what a device's object shows on the bus is
      a name the list holds for that very device. */
  lemma ObjectsShowStoredNames(ds: seq<PersistedDevice>, now: Instant, steps: seq<Step>, id: DeviceId)
    requires Plain(ds) && Legal(Init(ds, now), steps) && id in After(Init(ds, now), steps).core.objects
    ensures var c := After(Init(ds, now), steps).core;
            PersistedDevice(Hex.ToHex(id), c.objects[id].name) in c.devices
  {
    InitInv(ds, now);
    forall other | other in Init(ds, now).core.objects ensures Stored(Init(ds, now).core, other) {
      RestoredNames(ds, other);
    }
    RunKeepsNames(Init(ds, now), steps);
    assert Stored(After(Init(ds, now), steps).core, id);
  }

  ghost predicate AlwaysRestartsSame(ds: seq<PersistedDevice>, now: Instant) {
    forall steps :: Legal(Init(ds, now), steps) ==>
      D.Restored(After(Init(ds, now), steps).core.devices).paired == After(Init(ds, now), steps).core.paired
  }

  /** Restarting never changes whom the daemon trusts exactly when the loaded
      list is plain: otherwise unpairing the oddly spelt device is undone by
      the next start. */
  lemma RestartsSameExactlyWhen(ds: seq<PersistedDevice>, now: Instant)
    ensures AlwaysRestartsSame(ds, now) <==> Plain(ds)
  {
    if Plain(ds) {
      forall steps | Legal(Init(ds, now), steps)
        ensures IdSet(After(Init(ds, now), steps).core.devices) == After(Init(ds, now), steps).core.paired
      {
        RunKeepsList(Init(ds, now), steps);
      }
    } else {
      var key :| key in Keys(ds) && Hex.ParsedAs(key, 32).Some? && !Hex.Lowercase(key);
      OddSpellingComesBack(ds, now, key, Hex.ParsedAs(key, 32).value);
    }
  }

  lemma OddSpellingComesBack(ds: seq<PersistedDevice>, now: Instant, key: string, id: DeviceId)
    requires key in Keys(ds) && Means(key, id) && !Hex.Lowercase(key)
    ensures !AlwaysRestartsSame(ds, now)
  {
    RemoveForgetsExactlyWhen(ds, id);
    var steps := [Unpair(id)];
    var none: seq<Step> := [];
    assert steps[1..] == none;
    assert Legal(Init(ds, now), steps);
    assert After(Init(ds, now), steps) == Apply(Init(ds, now), Unpair(id));
  }
}
