/// When the table of connected devices holds every connected, paired device,
/// as it is documented to. It does for as long as no two remotes bear the name
/// of one pinned device; once two do, closing either one takes the device's
/// entry away while the other is still served.
module Overtaken {
  import opened Protocol
  import opened DaemonRun
  import opened Routing
  import opened Devices
  import opened Arrivals
  import Hex
  import D = Daemon
  import C = Connection
  import S = Session

  /** Every remote that introduced itself as a pinned device has that device in
      the table. */
  predicate Complete(c: D.Core) {
    forall r :: r in c.remoteToDevice && c.remoteToDevice[r] in c.paired ==> c.remoteToDevice[r] in c.connectedDevices
  }

  /** Two remotes with the name of one pinned device. */
  predicate Twins(c: D.Core, r1: D.Remote, r2: D.Remote) {
    && r1 != r2 && r1 in c.remoteToDevice && r2 in c.remoteToDevice
    && c.remoteToDevice[r1] == c.remoteToDevice[r2] && c.remoteToDevice[r1] in c.paired
  }

  ghost predicate Twinned(c: D.Core) {
    exists r1, r2 :: Twins(c, r1, r2)
  }

  /** What a handler could check before it acts: a handshake names a pinned
      device that a remote already goes by, or a device is about to be pinned
      that another remote goes by. */
  predicate MakesTwins(s: System, step: Step)
    requires CanStep(s, step)
  {
    match step
    case Handle => s.queue[0].FromSession? && s.queue[0].event.PeerHandshake? && NamesPinnedAgain(s.core, s.queue[0].event.deviceId)
    case Resume =>
      && s.waiting.answer.Some? && s.waiting.answer.value.accept
      && exists r :: r in s.core.remoteToDevice && r != s.waiting.remote && s.core.remoteToDevice[r] == s.waiting.id
    case _ => false
  }

  predicate NamesPinnedAgain(c: D.Core, id: DeviceId) {
    id in c.paired && id in c.remoteToDevice.Values
  }

  // ---- One step ----

  /** The check is exact. */
  lemma TwinsExactlyWhen(s: System, step: Step)
    requires Inv(s) && CanStep(s, step) && !Twinned(s.core)
    ensures Twinned(Apply(s, step).core) <==> MakesTwins(s, step)
  {
    var c, c' := s.core, Apply(s, step).core;
    match step {
      case Handle => HandleTwins(s);
      case Resume => ResumeTwins(s);
      case _ => assert forall r1, r2 :: Twins(c', r1, r2) ==> Twins(c, r1, r2);
    }
  }

  lemma ResumeTwins(s: System)
    requires Inv(s) && CanStep(s, Resume) && !Twinned(s.core)
    ensures Twinned(Resumed(s).core) <==> MakesTwins(s, Resume)
  {
    var (w, c, c') := (s.waiting, s.core, Resumed(s).core);
    if w.answer.Some? && w.answer.value.accept {
      assert c'.remoteToDevice == c.remoteToDevice && c'.paired == c.paired + {w.id};
      if r :| r in c.remoteToDevice && r != w.remote && c.remoteToDevice[r] == w.id {
        assert Twins(c', r, w.remote);
      }
      if r1, r2 :| Twins(c', r1, r2) {
        assert !Twins(c, r1, r2);
        assert c.remoteToDevice[r1] == w.id && c.remoteToDevice[r2] == w.id;
      }
    } else {
      assert c' == c;
    }
  }

  lemma GreetTwins(c: D.Core, r: D.Remote, id: DeviceId, name: Text, token: Option<TokenBytes>, now: Instant, ticket: nat)
    requires !Twinned(c) && r !in c.remoteToDevice
    ensures Twinned(D.Greeted(c, r, id, name, token, now, ticket).0) <==> NamesPinnedAgain(c, id)
  {
    var c' := D.Greeted(c, r, id, name, token, now, ticket).0;
    GreetedNames(c, r, id, name, token, now, ticket);
    if NamesPinnedAgain(c, id) {
      var r' :| r' in c.remoteToDevice && c.remoteToDevice[r'] == id;
      assert Twins(c', r, r');
    }
    if r1, r2 :| Twins(c', r1, r2) {
      assert !Twins(c, r1, r2);
    }
  }

  lemma HandleTwins(s: System)
    requires Inv(s) && CanStep(s, Handle) && !Twinned(s.core)
    ensures Twinned(Handled(s).core) <==> MakesTwins(s, Handle)
  {
    var (c, c') := (s.core, Handled(s).core);
    HeadExpected(s);
    match s.queue[0] {
      case FromSession(r, PeerHandshake(id, name, _, token)) =>
        GreetTwins(c, r, id, name, token, s.now, s.nextTicket);
      case _ =>
        assert forall r1, r2 :: Twins(c', r1, r2) ==> Twins(c, r1, r2);
    }
  }

  lemma GreetedNames(c: D.Core, r: D.Remote, id: DeviceId, name: Text, token: Option<TokenBytes>, now: Instant, ticket: nat)
    ensures var c' := D.Greeted(c, r, id, name, token, now, ticket).0;
            && c'.remoteToDevice == c.remoteToDevice[r := id] && c'.paired == c.paired
            && c'.connectedDevices.Keys >= c.connectedDevices.Keys
            && (id in c.paired && r in c.remoteHandles ==> id in c'.connectedDevices)
  {
  }

  lemma StepKeepsComplete(s: System, step: Step)
    requires Inv(s) && CanStep(s, step) && Complete(s.core) && !Twinned(s.core)
    ensures Complete(Apply(s, step).core)
  {
    match step {
      case Handle => HandleKeepsComplete(s);
      case Resume => assert s.waiting.remote in s.core.remoteHandles;
      case _ =>
    }
  }

  lemma HandleKeepsComplete(s: System)
    requires Inv(s) && CanStep(s, Handle) && Complete(s.core) && !Twinned(s.core)
    ensures Complete(Handled(s).core)
  {
    var (c, c') := (s.core, Handled(s).core);
    HeadExpected(s);
    match s.queue[0] {
      case FromSession(r, PeerHandshake(id, name, _, token)) =>
        GreetedNames(c, r, id, name, token, s.now, s.nextTicket);
      case FromSession(r, Closed(_)) =>
        forall other | other in c'.remoteToDevice && c'.remoteToDevice[other] in c'.paired
          ensures c'.remoteToDevice[other] in c'.connectedDevices
        {
          assert !Twins(c, other, r);
        }
      case _ =>
    }
  }

  // ---- Whole runs ----

  /** No step of the run takes the daemon from no twins to twins. */
  ghost predicate NeverTwins(s: System, steps: seq<Step>)
    requires Legal(s, steps)
    decreases |steps|
  {
    steps == [] || ((Twinned(s.core) || !MakesTwins(s, steps[0])) && NeverTwins(Apply(s, steps[0]), steps[1..]))
  }

  lemma {:induction false} RunKeepsComplete(s: System, steps: seq<Step>)
    requires Inv(s) && Complete(s.core) && !Twinned(s.core)
    requires Legal(s, steps) && NeverTwins(s, steps)
    ensures Complete(After(s, steps).core) && !Twinned(After(s, steps).core)
    decreases |steps|
  {
    if steps != [] {
      StepKeepsInv(s, steps[0]);
      StepKeepsComplete(s, steps[0]);
      TwinsExactlyWhen(s, steps[0]);
      RunKeepsComplete(Apply(s, steps[0]), steps[1..]);
    }
  }

  /** In every run without twins, every named remote of a pinned device has it
      in the table; and when the daemon is at rest, every ready session is
      named, and a pinned device's entry is the handle of that very session. */
  lemma TableHoldsEveryDevice(ds: seq<PersistedDevice>, now: Instant, steps: seq<Step>, r: D.Remote)
    requires Legal(Init(ds, now), steps) && NeverTwins(Init(ds, now), steps)
    ensures var s := After(Init(ds, now), steps);
            && Complete(s.core)
            && (AtRest(s) && r in s.live && s.live[r].m.phase == C.Ready ==>
                  && r in s.core.remoteToDevice
                  && var id := s.core.remoteToDevice[r];
                     id in s.core.paired ==> id in s.core.connectedDevices && s.core.connectedDevices[id] == s.live[r].handle)
  {
    InitInv(ds, now);
    RunKeepsInv(Init(ds, now), steps);
    RunKeepsComplete(Init(ds, now), steps);
    var s := After(Init(ds, now), steps);
    if AtRest(s) && r in s.live && s.live[r].m.phase == C.Ready {
      assert Fits(Walk(r, SpotOf(s.core, r), s.queue).value, s.live, r);
      var id := s.core.remoteToDevice[r];
      if id in s.core.paired {
        assert Backed(s.core, id);
        assert !Twins(s.core, r, s.core.connectedDevices[id].remote);
      }
    }
  }

  /** A handshake names a device that some remote already goes by, pinned or not. */
  predicate TakesName(s: System, step: Step)
    requires CanStep(s, step)
  {
    step.Handle? && s.queue[0].FromSession? && s.queue[0].event.PeerHandshake?
    && s.queue[0].event.deviceId in s.core.remoteToDevice.Values
  }

  predicate FreshNames(s: System, steps: seq<Step>)
    requires Legal(s, steps)
    decreases |steps|
  {
    steps == [] || (!TakesName(s, steps[0]) && FreshNames(Apply(s, steps[0]), steps[1..]))
  }

  predicate Distinct(c: D.Core) {
    forall r1, r2 :: r1 in c.remoteToDevice && r2 in c.remoteToDevice && r1 != r2 ==>
      c.remoteToDevice[r1] != c.remoteToDevice[r2]
  }

  /** Handshakes checked against the names in use are enough. */
  lemma {:induction false} FreshNamesNeverTwin(s: System, steps: seq<Step>)
    requires Inv(s) && Distinct(s.core) && Legal(s, steps) && FreshNames(s, steps)
    ensures NeverTwins(s, steps)
    decreases |steps|
  {
    if steps != [] {
      StepKeepsInv(s, steps[0]);
      StepKeepsDistinct(s, steps[0]);
      FreshNamesNeverTwin(Apply(s, steps[0]), steps[1..]);
    }
  }

  lemma StepKeepsDistinct(s: System, step: Step)
    requires Inv(s) && CanStep(s, step) && Distinct(s.core) && !TakesName(s, step)
    ensures Distinct(Apply(s, step).core) && !MakesTwins(s, step)
  {
    if step.Handle? && s.queue[0].FromSession? && s.queue[0].event.PeerHandshake? {
      var e := s.queue[0].event;
      GreetedNames(s.core, s.queue[0].remote, e.deviceId, e.name, e.pairingToken, s.now, s.nextTicket);
    }
  }

  // ---- And without ----

  ghost predicate Breakable(s: System) {
    exists more :: Legal(s, more) && NeverTwins(s, more) && !Complete(After(s, more).core)
  }

  lemma BreaksAfter(s: System, step: Step)
    requires CanStep(s, step) && Twinned(s.core) && Breakable(Apply(s, step))
    ensures Breakable(s)
  {
    var more :| Legal(Apply(s, step), more) && NeverTwins(Apply(s, step), more)
                && !Complete(After(Apply(s, step), more).core);
    var all := [step] + more;
    assert all[0] == step && all[1..] == more;
    assert Legal(s, all) && NeverTwins(s, all) && After(s, all) == After(Apply(s, step), more);
  }

  lemma BreaksNow(s: System)
    requires !Complete(s.core)
    ensures Breakable(s)
  {
    var none: seq<Step> := [];
    assert Legal(s, none) && NeverTwins(s, none) && After(s, none) == s;
  }

  /** From any state with twins on, working off the queue and then losing one
      of them takes the device out of the table while the other is named. */
  lemma {:induction false} TwinsBreak(s: System, r1: D.Remote, r2: D.Remote)
    requires Inv(s) && Twins(s.core, r1, r2)
    ensures Breakable(s)
    decreases |s.queue|, if s.waiting.Awaiting? then if s.now < s.waiting.deadline then 2 else 1 else 0
  {
    if s.waiting.Awaiting? {
      var step := if s.now < s.waiting.deadline then Advance(s.waiting.deadline) else Resume;
      StepKeepsInv(s, step);
      TwinsBreak(Apply(s, step), r1, r2);
      BreaksAfter(s, step);
    } else if s.queue != [] {
      StepKeepsInv(s, Handle);
      HandleKeepsTwins(s, r1, r2);
      if Complete(Handled(s).core) {
        TwinsBreak(Handled(s), r1, r2);
      } else {
        BreaksNow(Handled(s));
      }
      BreaksAfter(s, Handle);
    } else {
      LosingTwinBreaks(s, r1, r2);
    }
  }

  /** Handling an event closes a twin, and the table is incomplete, or keeps both. */
  lemma HandleKeepsTwins(s: System, r1: D.Remote, r2: D.Remote)
    requires Inv(s) && CanStep(s, Handle) && Twins(s.core, r1, r2)
    ensures Twins(Handled(s).core, r1, r2) || !Complete(Handled(s).core)
  {
    var (c, c') := (s.core, Handled(s).core);
    HeadExpected(s);
    match s.queue[0] {
      case FromSession(r, PeerHandshake(id, name, _, token)) =>
        GreetedNames(c, r, id, name, token, s.now, s.nextTicket);
      case FromSession(r, Closed(_)) =>
        if r == r1 || r == r2 {
          var other := if r == r1 then r2 else r1;
          assert other in c'.remoteToDevice && c'.remoteToDevice[other] in c'.paired;
        }
      case _ =>
    }
  }

  function Lost(r: D.Remote): Step { Drive(r, S.Turn(S.ConnectionClosed(""), 0, 0, None)) }

  lemma LosingTwinBreaks(s: System, r1: D.Remote, r2: D.Remote)
    requires Inv(s) && AtRest(s) && Twins(s.core, r1, r2)
    ensures Breakable(s)
  {
    assert Fits(Walk(r1, SpotOf(s.core, r1), s.queue).value, s.live, r1);
    var s1 := Apply(s, Lost(r1));
    assert s1.queue == [FromSession(r1, S.Closed(S.ConnectionLost("")))];
    var s2 := Apply(s1, Handle);
    assert r2 in s2.core.remoteToDevice && s2.core.remoteToDevice[r2] !in s2.core.connectedDevices;
    BreaksNow(s2);
    assert Twins(s1.core, r1, r2);
    BreaksAfter(s1, Handle);
    BreaksAfter(s, Lost(r1));
  }

  /** After any run without twins, one more step opens the way to an incomplete
      table (without any further twins) exactly when that step makes twins. */
  lemma BreaksExactlyWhen(ds: seq<PersistedDevice>, now: Instant, steps: seq<Step>, step: Step)
    requires Legal(Init(ds, now), steps) && NeverTwins(Init(ds, now), steps)
    requires CanStep(After(Init(ds, now), steps), step)
    ensures var s := After(Init(ds, now), steps);
            Breakable(Apply(s, step)) <==> MakesTwins(s, step)
  {
    InitInv(ds, now);
    RunKeepsInv(Init(ds, now), steps);
    RunKeepsComplete(Init(ds, now), steps);
    var s := After(Init(ds, now), steps);
    var s' := Apply(s, step);
    StepKeepsInv(s, step);
    TwinsExactlyWhen(s, step);
    if MakesTwins(s, step) {
      var r1, r2 :| Twins(s'.core, r1, r2);
      TwinsBreak(s', r1, r2);
    } else {
      StepKeepsComplete(s, step);
      forall more | Legal(s', more) && NeverTwins(s', more)
        ensures Complete(After(s', more).core)
      {
        RunKeepsComplete(s', more);
      }
    }
  }

  // ---- Two such runs ----

  function OvertakingRun(id: DeviceId, lost: D.Remote): seq<Step> {
    Arrival(1, id, id) + Arrival(2, id, id) + [Lost(lost)] + [Handle]
  }

  /** A device connects twice and either connection is lost. Afterwards the
      other session runs, is ready and named, the device is pinned, every event
      is handled, and still the table is empty: no clip will be sent to it. */
  lemma ReconnectedDeviceIsForgotten(id: DeviceId, name: Text, now: Instant, lost: D.Remote)
    requires lost == 1 || lost == 2
    ensures var ds := [PersistedDevice(Hex.ToHex(id), name)];
            && Canonical(ds) && Legal(Init(ds, now), OvertakingRun(id, lost))
            && var s := After(Init(ds, now), OvertakingRun(id, lost));
               && AtRest(s) && Serves(s, 3 - lost, id) && id in s.core.paired
               && s.core.connectedDevices == map[]
  {
    var ds := [PersistedDevice(Hex.ToHex(id), name)];
    Rendering(id);
    InIdSet(ds, id);
    var none: seq<PersistedDevice> := [];
    assert ds[1..] == none && Keys(ds) == [Hex.ToHex(id)];
    var s2 := ServedTwice(Init(ds, now), id);
    CloseForgets(Init(ds, now), Arrival(1, id, id) + Arrival(2, id, id), s2, id, lost, 3 - lost);
  }

  lemma ServedTwice(s0: System, id: DeviceId) returns (s2: System)
    requires AtRest(s0) && s0.live == map[] && s0.core.remoteHandles == map[] && s0.core.remoteToDevice == map[]
    requires s0.core.connectedDevices == map[] && id in s0.core.paired
    ensures Leads(s0, Arrival(1, id, id) + Arrival(2, id, id), s2) && AtRest(s2)
    ensures Serves(s2, 1, id) && Serves(s2, 2, id) && id in s2.core.paired
    ensures s2.core.connectedDevices.Keys == {id}
  {
    ArrivalServes(s0, 1, id, id);
    var s1 := After(s0, Arrival(1, id, id));
    ArrivalServes(s1, 2, id, id);
    RunsCompose(s0, Arrival(1, id, id), Arrival(2, id, id));
    s2 := After(s1, Arrival(2, id, id));
  }

  lemma CloseForgets(s0: System, both: seq<Step>, s2: System, id: DeviceId, lost: D.Remote, kept: D.Remote)
    requires Leads(s0, both, s2) && AtRest(s2) && lost != kept
    requires Serves(s2, lost, id) && Serves(s2, kept, id) && id in s2.core.paired
    requires s2.core.connectedDevices.Keys == {id}
    ensures var steps := both + [Lost(lost)] + [Handle];
            && Legal(s0, steps)
            && var s := After(s0, steps);
               AtRest(s) && Serves(s, kept, id) && id in s.core.paired && s.core.connectedDevices == map[]
  {
    Extend(s0, both, s2, Lost(lost));
    var s3 := Apply(s2, Lost(lost));
    assert s3.queue == [FromSession(lost, S.Closed(S.ConnectionLost("")))];
    Extend(s0, both + [Lost(lost)], s3, Handle);
    var s4 := Apply(s3, Handle);
    assert s4.queue == [];
  }
}
