/// Two drivers joined by two ordered streams, with one clock. A packet is
/// delivered at most `delay` after it was written for as long as its receiver
/// runs; ticks, clipboard pushes, losses and write failures come at any time.
/// Every definition is written for the `near` end; `Flip` swaps the ends.
module Link {
  import opened Protocol
  import C = Connection
  import S = Session

  datatype Packet = Packet(msg: Message, at: Instant)

  datatype Status = Fresh | Open | Shut(reason: S.CloseReason)

  /** One end: its machine and task, the peers it has been introduced to, the
      clips it has written and surfaced, and the round trips it has measured. */
  datatype Side = Side(m: C.Machine, status: Status, met: seq<S.SessionEvent>,
                       written: seq<Clip>, surfaced: seq<Clip>, rtts: seq<Duration>)

  datatype Link = Link(now: Instant, near: Side, far: Side, out: seq<Packet>, back: seq<Packet>)

  datatype Act =
    | Start(writeError: Option<string>)
    | Take(nonce: nat, writeError: Option<string>)
    | Beat(nonce: nat, writeError: Option<string>)
    | Push(clip: Clip, writeError: Option<string>)
    | Lose(detail: string)

  datatype Step = Advance(to: Instant) | Near(act: Act) | Far(act: Act)

  function Flip(s: Link): Link { Link(s.now, s.far, s.near, s.back, s.out) }

  function Init(a: C.Machine, b: C.Machine): Link {
    Link(0, Side(a, Fresh, [], [], [], []), Side(b, Fresh, [], [], [], []), [], [])
  }

  // ---- One act of the near end ----

  predicate CanAct(s: Link, act: Act) {
    match act
    case Start(_) => s.near.status.Fresh?
    case Take(_, _) => s.near.status.Open? && s.back != []
    case _ => s.near.status.Open?
  }

  function React(s: Link, act: Act): (C.Machine, S.Outcome)
    requires CanAct(s, act)
  {
    match act
    case Start(w) => (s.near.m, S.PerformAll(C.Next(s.near.m, C.Started, 0, s.now).1, w))
    case Take(n, w) => S.DriveTurn(s.near.m, S.Turn(S.Read(s.back[0].msg), n, s.now, w))
    case Beat(n, w) => S.DriveTurn(s.near.m, S.Turn(S.Ticked(s.now), n, s.now, w))
    case Push(c, w) => S.DriveTurn(s.near.m, S.Turn(S.Command(c), 0, s.now, w))
    case Lose(d) => S.DriveTurn(s.near.m, S.Turn(S.ConnectionClosed(d), 0, s.now, None))
  }

  function ClipsWritten(sent: seq<Message>): seq<Clip> {
    if sent == [] then []
    else (if sent[0].Clipboard? then [sent[0].clip] else []) + ClipsWritten(sent[1..])
  }

  function ClipsSurfaced(events: seq<S.SessionEvent>): seq<Clip> {
    if events == [] then []
    else (if events[0].ClipboardReceived? then [events[0].clip] else []) + ClipsSurfaced(events[1..])
  }

  function RoundTrips(events: seq<S.SessionEvent>): seq<Duration> {
    if events == [] then []
    else (if events[0].Ponged? then [events[0].rtt] else []) + RoundTrips(events[1..])
  }

  function Introductions(events: seq<S.SessionEvent>): seq<S.SessionEvent> {
    if events == [] then []
    else (if events[0].PeerHandshake? then [events[0]] else []) + Introductions(events[1..])
  }

  /** What the peer of `m` is to be told: its identity and its token, if any. */
  function Card(m: C.Machine): S.SessionEvent {
    S.PeerHandshake(m.local.deviceId, m.local.name, m.local.capabilities, m.outgoingToken)
  }

  function StatusAfter(o: S.Outcome): Status {
    if o.live || o.events == [] || !o.events[|o.events| - 1].Closed? then Open
    else Shut(o.events[|o.events| - 1].reason)
  }

  function Stamped(sent: seq<Message>, at: Instant): seq<Packet> {
    seq(|sent|, i requires 0 <= i < |sent| => Packet(sent[i], at))
  }

  function NearStep(s: Link, act: Act): Link
    requires CanAct(s, act)
  {
    var (m', o) := React(s, act);
    s.(near := Side(m', StatusAfter(o), s.near.met + Introductions(o.events), s.near.written + ClipsWritten(o.sent),
                    s.near.surfaced + ClipsSurfaced(o.events), s.near.rtts + RoundTrips(o.events)),
       out := s.out + Stamped(o.sent, s.now),
       back := if act.Take? then s.back[1..] else s.back)
  }

  // ---- Runs ----

  /** Nothing in flight to a running receiver is older than `delay` at `to`. */
  predicate Timely(receiver: Side, q: seq<Packet>, to: Instant, delay: Duration) {
    !receiver.status.Shut? ==> forall i :: 0 <= i < |q| ==> to <= q[i].at + delay
  }

  predicate CanStep(s: Link, step: Step, delay: Duration) {
    match step
    case Advance(to) => s.now <= to && Timely(s.far, s.out, to, delay) && Timely(s.near, s.back, to, delay)
    case Near(act) => CanAct(s, act)
    case Far(act) => CanAct(Flip(s), act)
  }

  function Apply(s: Link, step: Step, delay: Duration): Link
    requires CanStep(s, step, delay)
  {
    match step
    case Advance(to) => s.(now := to)
    case Near(act) => NearStep(s, act)
    case Far(act) => Flip(NearStep(Flip(s), act))
  }

  predicate Legal(s: Link, steps: seq<Step>, delay: Duration)
    decreases |steps|
  {
    steps == [] || (CanStep(s, steps[0], delay) && Legal(Apply(s, steps[0], delay), steps[1..], delay))
  }

  function After(s: Link, steps: seq<Step>, delay: Duration): Link
    requires Legal(s, steps, delay)
    decreases |steps|
  {
    if steps == [] then s else After(Apply(s, steps[0], delay), steps[1..], delay)
  }

  // ---- Packets by kind ----

  datatype Kind = Hello | Query | Answer | Content

  function KindOf(msg: Message): Kind {
    match msg
    case Handshake(_) => Hello
    case Ping(_) => Query
    case Pong(_) => Answer
    case Clipboard(_) => Content
  }

  function Only(k: Kind, q: seq<Packet>): seq<Packet> {
    if q == [] then []
    else (if KindOf(q[0].msg) == k then [q[0]] else []) + Only(k, q[1..])
  }

  function ClipsIn(q: seq<Packet>): seq<Clip> {
    if q == [] then []
    else (if q[0].msg.Clipboard? then [q[0].msg.clip] else []) + ClipsIn(q[1..])
  }

  lemma {:induction false} OnlyAppend(k: Kind, q: seq<Packet>, p: Packet)
    ensures Only(k, q + [p]) == Only(k, q) + (if KindOf(p.msg) == k then [p] else [])
  {
    if q == [] {
      assert [p][1..] == [] && q + [p] == [p];
    } else {
      var q' := q + [p];
      assert q'[0] == q[0] && q'[1..] == q[1..] + [p];
      OnlyAppend(k, q[1..], p);
      var first, last := if KindOf(q[0].msg) == k then [q[0]] else [], if KindOf(p.msg) == k then [p] else [];
      assert Only(k, q') == first + (Only(k, q[1..]) + last);
    }
  }

  lemma {:induction false} ClipsInAppend(q: seq<Packet>, p: Packet)
    ensures ClipsIn(q + [p]) == ClipsIn(q) + (if p.msg.Clipboard? then [p.msg.clip] else [])
  {
    if q == [] {
      assert [p][1..] == [] && q + [p] == [p];
    } else {
      var q' := q + [p];
      assert q'[0] == q[0] && q'[1..] == q[1..] + [p];
      ClipsInAppend(q[1..], p);
      var first, last := if q[0].msg.Clipboard? then [q[0].msg.clip] else [], if p.msg.Clipboard? then [p.msg.clip] else [];
      assert ClipsIn(q') == first + (ClipsIn(q[1..]) + last);
    }
  }

  lemma Appended(q: seq<Packet>, p: Packet)
    ensures forall k :: Only(k, q + [p]) == Only(k, q) + (if KindOf(p.msg) == k then [p] else [])
    ensures ClipsIn(q + [p]) == ClipsIn(q) + (if p.msg.Clipboard? then [p.msg.clip] else [])
  {
    forall k ensures Only(k, q + [p]) == Only(k, q) + (if KindOf(p.msg) == k then [p] else []) {
      OnlyAppend(k, q, p);
    }
    ClipsInAppend(q, p);
  }

  // ---- The invariant, for the stream near -> far and near's pings ----

  /** The greeting is first on the stream and the only one; the receiver is
      ready exactly once it has taken it, and then knows what it said. */
  predicate Greeted(s: Link) {
    && (s.near.status.Fresh? ==> s.out == [])
    && (s.far.m.phase == C.AwaitingPeerHandshake ==>
          && (s.near.status.Open? ==> s.out != [])
          && s.far.met == []
          && (s.out != [] ==> s.out[0].msg == S.HelloOf(s.near.m) && Only(Hello, s.out[1..]) == []))
    && (s.far.m.phase == C.Ready ==>
          !s.near.status.Fresh? && !s.far.status.Fresh? && s.far.met == [Card(s.near.m)] && Only(Hello, s.out) == [])
  }

  /** Every clip written has been surfaced or is still in flight, in order. */
  predicate ClipsConserved(s: Link) {
    s.near.written == s.far.surfaced + ClipsIn(s.out)
  }

  predicate Clocked(s: Link, delay: Duration) {
    && (forall i :: 0 <= i < |s.out| ==> s.out[i].at <= s.now)
    && Timely(s.far, s.out, s.now, delay)
  }

  /** The packets that belong to near's outstanding ping: the ping itself on
      the way out, or its answer on the way back. */
  predicate PingTracked(s: Link, delay: Duration) {
    var queries, answers := Only(Query, s.out), Only(Answer, s.back);
    && (s.near.m.pending.Some? ==> s.near.m.phase == C.Ready && s.near.m.pending.value.sentAt <= s.now)
    && (!s.near.status.Shut? && s.near.m.pending.None? ==> queries == [] && answers == [])
    && (!s.near.status.Shut? && s.near.m.pending.Some? ==>
          var p := s.near.m.pending.value;
          && |queries| + |answers| <= 1
          && (!s.far.status.Shut? ==> |queries| + |answers| == 1)
          && (queries != [] ==> queries[0] == Packet(Ping(p.nonce), p.sentAt))
          && (answers != [] ==> answers[0].msg == Pong(p.nonce) && p.sentAt <= answers[0].at <= p.sentAt + delay))
  }

  predicate RoundTripsBounded(s: Link, delay: Duration) {
    forall i :: 0 <= i < |s.near.rtts| ==> s.near.rtts[i] <= 2 * delay
  }

  /** The near end is never first to close by a timeout or a version reject. */
  predicate NoFalseClose(s: Link, delay: Duration) {
    && (s.near.status.Shut? ==> !s.near.status.reason.VersionMismatch?)
    && (2 * delay < 3 * s.near.m.interval && s.near.status == Shut(S.KeepaliveTimedOut) ==> s.far.status.Shut?)
  }

  predicate Half(s: Link, delay: Duration) {
    && Greeted(s) && ClipsConserved(s) && Clocked(s, delay) && PingTracked(s, delay)
    && RoundTripsBounded(s, delay) && NoFalseClose(s, delay)
  }

  predicate Inv(s: Link, delay: Duration) {
    Half(s, delay) && Half(Flip(s), delay)
  }

  // ---- Every step keeps it ----

  function Rest(s: Link, act: Act): seq<Packet>
    requires CanAct(s, act)
  {
    if act.Take? then s.back[1..] else s.back
  }

  // A turn does nothing outside, writes one message, reports one event, or ends the session.

  lemma Quiet(s: Link, act: Act, m': C.Machine)
    requires CanAct(s, act) && React(s, act) == (m', S.NOTHING)
    ensures NearStep(s, act) == s.(near := s.near.(m := m', status := Open), back := Rest(s, act))
  {
    assert s.out + Stamped([], s.now) == s.out;
  }

  lemma Writing(s: Link, act: Act, m': C.Machine, msg: Message)
    requires CanAct(s, act) && React(s, act) == (m', S.Outcome([msg], [], true))
    ensures NearStep(s, act) == s.(near := s.near.(m := m', status := Open,
                                                   written := s.near.written + if msg.Clipboard? then [msg.clip] else []),
                                   out := s.out + [Packet(msg, s.now)], back := Rest(s, act))
  {
    assert [msg][1..] == [];
    assert ClipsWritten([msg]) == if msg.Clipboard? then [msg.clip] else [];
    assert Stamped([msg], s.now) == [Packet(msg, s.now)];
  }

  lemma OneEvent(event: S.SessionEvent)
    ensures Introductions([event]) == if event.PeerHandshake? then [event] else []
    ensures ClipsSurfaced([event]) == if event.ClipboardReceived? then [event.clip] else []
    ensures RoundTrips([event]) == if event.Ponged? then [event.rtt] else []
  {
    var none: seq<S.SessionEvent> := [];
    assert [event][1..] == none;
    assert Introductions(none) == [] && |ClipsSurfaced(none)| == 0 && |RoundTrips(none)| == 0;
  }

  lemma Reporting(s: Link, act: Act, m': C.Machine, event: S.SessionEvent)
    requires CanAct(s, act) && React(s, act) == (m', S.Outcome([], [event], true))
    ensures NearStep(s, act) == s.(near := Side(m', Open,
                                                s.near.met + if event.PeerHandshake? then [event] else [],
                                                s.near.written,
                                                s.near.surfaced + if event.ClipboardReceived? then [event.clip] else [],
                                                s.near.rtts + if event.Ponged? then [event.rtt] else []),
                                   back := Rest(s, act))
  {
    OneEvent(event);
    assert s.out + Stamped([], s.now) == s.out;
  }

  lemma Ending(s: Link, act: Act, m': C.Machine, reason: S.CloseReason)
    requires CanAct(s, act) && React(s, act) == (m', S.Outcome([], [S.Closed(reason)], false))
    ensures NearStep(s, act) == s.(near := s.near.(m := m', status := Shut(reason)), back := Rest(s, act))
  {
    OneEvent(S.Closed(reason));
    assert s.out + Stamped([], s.now) == s.out;
  }

  /** What an act of the near end amounts to on the link. */
  datatype Effect =
    | Idle(lastPing: Option<Instant>)
    | Greets
    | Meets
    | Answers
    | Completes
    | Queries(nonce: nat)
    | Surfaces
    | Writes(clip: Clip)
    | Ends(reason: S.CloseReason)

  /** `s'` is `s` after that effect, field by field. */
  predicate Amounts(s: Link, s': Link, e: Effect) {
    match e
    case Idle(t) =>
      s.near.status.Open? && s' == s.(near := s.near.(m := s.near.m.(lastPing := t)))
    case Greets =>
      s.near.status.Fresh?
      && s' == s.(near := s.near.(status := Open), out := s.out + [Packet(S.HelloOf(s.near.m), s.now)])
    case Meets =>
      Takes(s, Hello) && s.near.m.phase == C.AwaitingPeerHandshake
      && s' == s.(near := s.near.(m := s.near.m.(phase := C.Ready), met := s.near.met + [Told(s.back[0].msg.greeting)]),
                  back := s.back[1..])
    case Answers =>
      Takes(s, Query) && s.near.m.phase == C.Ready
      && s' == s.(out := s.out + [Packet(Pong(s.back[0].msg.nonce), s.now)], back := s.back[1..])
    case Completes =>
      Takes(s, Answer) && s.near.m.phase == C.Ready
      && s.near.m.pending.Some? && s.near.m.pending.value.nonce == s.back[0].msg.nonce
      && s' == s.(near := s.near.(m := s.near.m.(pending := None),
                                  rtts := s.near.rtts + [Since(s.now, s.near.m.pending.value.sentAt)]),
                  back := s.back[1..])
    case Queries(n) =>
      s.near.status.Open? && s.near.m.phase == C.Ready && s.near.m.pending.None?
      && s' == s.(near := s.near.(m := s.near.m.(pending := Some(C.PendingPing(n, s.now)), lastPing := Some(s.now),
                                                 nextNonce := (s.near.m.nextNonce + 1) % C.U64)),
                  out := s.out + [Packet(Ping(n), s.now)])
    case Surfaces =>
      Takes(s, Content) && s.near.m.phase == C.Ready
      && s' == s.(near := s.near.(surfaced := s.near.surfaced + [s.back[0].msg.clip]), back := s.back[1..])
    case Writes(c) =>
      s.near.status.Open? && s.near.m.phase == C.Ready
      && s' == s.(near := s.near.(written := s.near.written + [c]), out := s.out + [Packet(Clipboard(c), s.now)])
    case Ends(r) =>
      && !s.near.status.Shut? && !r.VersionMismatch?
      && s' == s.(near := s'.near, back := s'.back)
      && s'.near == s.near.(m := s'.near.m, status := Shut(r))
      && (s'.back == s.back || (Takes(s, Query) && s.near.m.phase == C.Ready && s'.back == s.back[1..]))
      && s'.near.m.phase == s.near.m.phase && s'.near.m.interval == s.near.m.interval
      && s'.near.m.local == s.near.m.local && s'.near.m.outgoingToken == s.near.m.outgoingToken
      && (s'.near.m.pending.None? || s'.near.m.pending == s.near.m.pending
          || (s.near.m.phase == C.Ready && s'.near.m.pending.value.sentAt == s.now))
      && (r.KeepaliveTimedOut? ==>
            s.near.m.pending.Some? && Since(s.now, s.near.m.pending.value.sentAt) >= 3 * s.near.m.interval)
  }

  function Told(g: Greeting): S.SessionEvent {
    S.PeerHandshake(g.deviceId, g.name, g.capabilities, g.pairingToken)
  }

  predicate Takes(s: Link, k: Kind) {
    s.near.status.Open? && s.back != [] && KindOf(s.back[0].msg) == k
  }

  /** The invariant fixes what may be taken: a stray greeting, an early
      message or an unmatched pong never arrives. */
  lemma NothingIgnored(s: Link, delay: Duration)
    requires Inv(s, delay) && s.near.status.Open? && s.back != []
    ensures !C.Ignored(s.near.m, s.back[0].msg)
    ensures s.back[0].msg.Handshake? ==> s.back[0].msg.greeting.version == PROTOCOL_VERSION
  {
    assert Greeted(Flip(s)) && PingTracked(s, delay);
    if s.back[0].msg.Pong? {
      assert Only(Answer, s.back)[0] == s.back[0];
    }
  }

  lemma Classify(s: Link, act: Act, delay: Duration) returns (e: Effect)
    requires Inv(s, delay) && CanAct(s, act)
    ensures Amounts(s, NearStep(s, act), e)
  {
    match act {
      case Start(w) => e := ClassifyStart(s, w);
      case Take(n, w) => e := ClassifyTake(s, n, w, delay);
      case Beat(n, w) => e := ClassifyBeat(s, n, w);
      case Push(c, w) => e := ClassifyPush(s, c, w);
      case Lose(d) => e := ClassifyLose(s, d);
    }
  }

  lemma ClassifyLose(s: Link, d: string) returns (e: Effect)
    requires CanAct(s, Lose(d))
    ensures Amounts(s, NearStep(s, Lose(d)), e)
  {
    Ending(s, Lose(d), s.near.m, S.ConnectionLost(d));
    e := Ends(S.ConnectionLost(d));
  }

  lemma ClassifyStart(s: Link, w: Option<string>) returns (e: Effect)
    requires CanAct(s, Start(w))
    ensures Amounts(s, NearStep(s, Start(w)), e)
  {
    S.PerformOne(s.near.m, C.Started, 0, s.now, w);
    if w.Some? {
      Ending(s, Start(w), s.near.m, S.FramingError(w.value));
      e := Ends(S.FramingError(w.value));
    } else {
      Writing(s, Start(w), s.near.m, S.HelloOf(s.near.m));
      e := Greets;
    }
  }

  lemma ClassifyPush(s: Link, c: Clip, w: Option<string>) returns (e: Effect)
    requires CanAct(s, Push(c, w))
    ensures Amounts(s, NearStep(s, Push(c, w)), e)
  {
    S.PerformOne(s.near.m, C.SendClipboard(c), 0, s.now, w);
    if s.near.m.phase != C.Ready {
      Quiet(s, Push(c, w), s.near.m);
      e := Idle(s.near.m.lastPing);
    } else if w.Some? {
      Ending(s, Push(c, w), s.near.m, S.FramingError(w.value));
      e := Ends(S.FramingError(w.value));
    } else {
      Writing(s, Push(c, w), s.near.m, Clipboard(c));
      e := Writes(c);
    }
  }

  lemma ClassifyTake(s: Link, n: nat, w: Option<string>, delay: Duration) returns (e: Effect)
    requires Inv(s, delay) && CanAct(s, Take(n, w))
    ensures Amounts(s, NearStep(s, Take(n, w)), e)
  {
    NothingIgnored(s, delay);
    match s.back[0].msg {
      case Handshake(_) =>
        ClassifyTakeGreeting(s, n, w);
        e := Meets;
      case Ping(_) =>
        e := ClassifyTakePing(s, n, w);
      case Pong(_) =>
        ClassifyTakePong(s, n, w);
        e := Completes;
      case Clipboard(_) =>
        ClassifyTakeClip(s, n, w);
        e := Surfaces;
    }
  }

  lemma ClassifyTakePing(s: Link, n: nat, w: Option<string>) returns (e: Effect)
    requires CanAct(s, Take(n, w)) && s.back[0].msg.Ping? && !C.Ignored(s.near.m, s.back[0].msg)
    ensures Amounts(s, NearStep(s, Take(n, w)), e)
  {
    S.PerformOne(s.near.m, C.Received(s.back[0].msg), n, s.now, w);
    if w.Some? {
      Ending(s, Take(n, w), s.near.m, S.FramingError(w.value));
      e := Ends(S.FramingError(w.value));
    } else {
      Writing(s, Take(n, w), s.near.m, Pong(s.back[0].msg.nonce));
      e := Answers;
    }
  }

  lemma ClassifyTakeGreeting(s: Link, n: nat, w: Option<string>)
    requires CanAct(s, Take(n, w)) && s.back[0].msg.Handshake? && !C.Ignored(s.near.m, s.back[0].msg)
    requires s.back[0].msg.greeting.version == PROTOCOL_VERSION
    ensures Amounts(s, NearStep(s, Take(n, w)), Meets)
  {
    S.PerformOne(s.near.m, C.Received(s.back[0].msg), n, s.now, w);
    Reporting(s, Take(n, w), s.near.m.(phase := C.Ready), Told(s.back[0].msg.greeting));
  }

  lemma ClassifyTakePong(s: Link, n: nat, w: Option<string>)
    requires CanAct(s, Take(n, w)) && s.back[0].msg.Pong? && !C.Ignored(s.near.m, s.back[0].msg)
    ensures Amounts(s, NearStep(s, Take(n, w)), Completes)
  {
    S.PerformOne(s.near.m, C.Received(s.back[0].msg), n, s.now, w);
    Reporting(s, Take(n, w), s.near.m.(pending := None), S.Ponged(Since(s.now, s.near.m.pending.value.sentAt)));
  }

  lemma ClassifyTakeClip(s: Link, n: nat, w: Option<string>)
    requires CanAct(s, Take(n, w)) && s.back[0].msg.Clipboard? && !C.Ignored(s.near.m, s.back[0].msg)
    ensures Amounts(s, NearStep(s, Take(n, w)), Surfaces)
  {
    S.PerformOne(s.near.m, C.Received(s.back[0].msg), n, s.now, w);
    Reporting(s, Take(n, w), s.near.m, S.ClipboardReceived(s.back[0].msg.clip));
  }

  lemma ClassifyBeat(s: Link, n: nat, w: Option<string>) returns (e: Effect)
    requires CanAct(s, Beat(n, w))
    ensures Amounts(s, NearStep(s, Beat(n, w)), e)
  {
    S.PerformOne(s.near.m, C.Tick(s.now), n, s.now, w);
    var (m', actions) := C.Next(s.near.m, C.Tick(s.now), n, s.now);
    if actions == [] {
      Quiet(s, Beat(n, w), m');
      e := Idle(m'.lastPing);
    } else if actions[0].KeepaliveTimedOut? {
      Ending(s, Beat(n, w), m', S.KeepaliveTimedOut);
      e := Ends(S.KeepaliveTimedOut);
    } else if w.Some? {
      Ending(s, Beat(n, w), m', S.FramingError(w.value));
      e := Ends(S.FramingError(w.value));
    } else {
      Writing(s, Beat(n, w), m', Ping(n));
      e := Queries(n);
    }
  }

  /** A packet appended behind the first leaves the rest of the stream's tail. */
  lemma Behind(q: seq<Packet>, p: Packet)
    ensures q != [] ==> (q + [p])[1..] == q[1..] + [p]
    ensures q != [] ==> forall k :: Only(k, q[1..] + [p]) == Only(k, q[1..]) + (if KindOf(p.msg) == k then [p] else [])
  {
    if q != [] {
      Appended(q[1..], p);
    }
  }

  lemma KeepsGreeted(s: Link, s': Link, e: Effect, delay: Duration)
    requires Greeted(s) && Greeted(Flip(s))
    requires Amounts(s, s', e)
    ensures Greeted(s') && Greeted(Flip(s'))
  {
    if s'.out != s.out {
      var p := s'.out[|s.out|];
      Appended(s.out, p);
      Behind(s.out, p);
    }
  }

  lemma KeepsClips(s: Link, s': Link, e: Effect, delay: Duration)
    requires ClipsConserved(s) && ClipsConserved(Flip(s))
    requires Amounts(s, s', e)
    ensures ClipsConserved(s') && ClipsConserved(Flip(s'))
  {
    if s'.out != s.out {
      Appended(s.out, s'.out[|s.out|]);
    }
  }

  lemma KeepsClock(s: Link, s': Link, e: Effect, delay: Duration)
    requires Clocked(s, delay) && Clocked(Flip(s), delay)
    requires Amounts(s, s', e)
    ensures Clocked(s', delay) && Clocked(Flip(s'), delay)
  {
  }

  /** Only a new ping and its matching pong touch the packets of near's ping. */
  lemma OtherEffectsLeavePing(s: Link, s': Link, e: Effect)
    requires Amounts(s, s', e) && !e.Queries? && !e.Completes? && !e.Ends?
    ensures Only(Query, s'.out) == Only(Query, s.out) && Only(Answer, s'.back) == Only(Answer, s.back)
    ensures s'.near.m.pending == s.near.m.pending
    ensures !s'.near.status.Shut? && !s.near.status.Shut? && s'.far == s.far && s'.now == s.now
    ensures s.near.m.phase == C.Ready ==> s'.near.m.phase == C.Ready
  {
    if s'.out != s.out {
      OnlyAppend(Query, s.out, s'.out[|s.out|]);
    }
  }

  lemma QueryKeepsOwnPing(s: Link, s': Link, nonce: nat, delay: Duration)
    requires PingTracked(s, delay) && Amounts(s, s', Queries(nonce))
    ensures PingTracked(s', delay)
  {
    OnlyAppend(Query, s.out, s'.out[|s.out|]);
  }

  lemma KeepsOwnPing(s: Link, s': Link, e: Effect, delay: Duration)
    requires PingTracked(s, delay)
    requires Amounts(s, s', e)
    ensures PingTracked(s', delay)
  {
    if e.Queries? {
      QueryKeepsOwnPing(s, s', e.nonce, delay);
    } else if !e.Completes? && !e.Ends? {
      OtherEffectsLeavePing(s, s', e);
    }
  }

  /** Only taking and answering a ping touches the packets of the peer's ping. */
  lemma OtherEffectsLeavePeersPing(s: Link, s': Link, e: Effect)
    requires Amounts(s, s', e) && !e.Answers? && !e.Ends?
    ensures Only(Query, s'.back) == Only(Query, s.back) && Only(Answer, s'.out) == Only(Answer, s.out)
    ensures s'.far == s.far && s'.now == s.now && !s'.near.status.Shut? && !s.near.status.Shut?
  {
    if s'.out != s.out {
      OnlyAppend(Answer, s.out, s'.out[|s.out|]);
    }
  }

  lemma AnswerKeepsPeersPing(s: Link, s': Link, delay: Duration)
    requires PingTracked(Flip(s), delay) && Timely(s.near, s.back, s.now, delay)
    requires Amounts(s, s', Answers)
    ensures PingTracked(Flip(s'), delay)
  {
    OnlyAppend(Answer, s.out, s'.out[|s.out|]);
  }

  lemma EndKeepsPeersPing(s: Link, s': Link, reason: S.CloseReason, delay: Duration)
    requires PingTracked(Flip(s), delay) && Amounts(s, s', Ends(reason))
    ensures PingTracked(Flip(s'), delay)
  {
  }

  lemma KeepsPeersPing(s: Link, s': Link, e: Effect, delay: Duration)
    requires PingTracked(Flip(s), delay) && Clocked(Flip(s), delay)
    requires Amounts(s, s', e)
    ensures PingTracked(Flip(s'), delay)
  {
    if e.Answers? {
      AnswerKeepsPeersPing(s, s', delay);
    } else if e.Ends? {
      EndKeepsPeersPing(s, s', e.reason, delay);
    } else {
      OtherEffectsLeavePeersPing(s, s', e);
    }
  }

  lemma KeepsTiming(s: Link, s': Link, e: Effect, delay: Duration)
    requires PingTracked(s, delay) && Clocked(s, delay) && Clocked(Flip(s), delay)
    requires RoundTripsBounded(s, delay) && NoFalseClose(s, delay)
    requires RoundTripsBounded(Flip(s), delay) && NoFalseClose(Flip(s), delay)
    requires Amounts(s, s', e)
    ensures RoundTripsBounded(s', delay) && NoFalseClose(s', delay)
    ensures RoundTripsBounded(Flip(s'), delay) && NoFalseClose(Flip(s'), delay)
  {
    if e.Ends? && e.reason.KeepaliveTimedOut? && !s.far.status.Shut? {
      OnlyFrom(Query, s.out);
      OnlyFrom(Answer, s.back);
      var queries, answers := Only(Query, s.out), Only(Answer, s.back);
      if queries != [] {
        assert queries[0] in s.out;
      } else {
        assert answers[0] in s.back;
      }
      assert s.now <= s.near.m.pending.value.sentAt + 2 * delay;
    }
  }

  lemma {:induction false} OnlyFrom(k: Kind, q: seq<Packet>)
    ensures forall p :: p in Only(k, q) ==> p in q
  {
    if q != [] {
      OnlyFrom(k, q[1..]);
    }
  }

  lemma StepKeepsInv(s: Link, step: Step, delay: Duration)
    requires Inv(s, delay) && CanStep(s, step, delay)
    ensures Inv(Apply(s, step, delay), delay)
  {
    match step {
      case Advance(to) => AdvanceKeepsInv(s, to, delay);
      case Near(act) => NearKeepsInv(s, act, delay);
      case Far(act) => NearKeepsInv(Flip(s), act, delay);
    }
  }

  lemma AdvanceKeepsHalf(s: Link, to: Instant, delay: Duration)
    requires Half(s, delay) && s.now <= to && Timely(s.far, s.out, to, delay)
    ensures Half(s.(now := to), delay)
  {
  }

  lemma AdvanceKeepsInv(s: Link, to: Instant, delay: Duration)
    requires Inv(s, delay) && CanStep(s, Advance(to), delay)
    ensures Inv(s.(now := to), delay)
  {
    AdvanceKeepsHalf(s, to, delay);
    AdvanceKeepsHalf(Flip(s), to, delay);
    assert Flip(s.(now := to)) == Flip(s).(now := to);
  }

  lemma NearKeepsInv(s: Link, act: Act, delay: Duration)
    requires Inv(s, delay) && CanAct(s, act)
    ensures Inv(NearStep(s, act), delay)
  {
    var s' := NearStep(s, act);
    var e := Classify(s, act, delay);
    KeepsGreeted(s, s', e, delay);
    KeepsClips(s, s', e, delay);
    KeepsClock(s, s', e, delay);
    KeepsOwnPing(s, s', e, delay);
    KeepsPeersPing(s, s', e, delay);
    KeepsTiming(s, s', e, delay);
  }

  /** A machine as its constructor leaves it. */
  predicate New(m: C.Machine) {
    m == C.New(m.local, m.interval, m.outgoingToken)
  }

  lemma {:induction false} RunKeepsInv(s: Link, steps: seq<Step>, delay: Duration)
    requires Inv(s, delay) && Legal(s, steps, delay)
    ensures Inv(After(s, steps, delay), delay)
    decreases |steps|
  {
    if steps != [] {
      StepKeepsInv(s, steps[0], delay);
      RunKeepsInv(Apply(s, steps[0], delay), steps[1..], delay);
    }
  }

  // ---- What that means over whole runs ----

  /** Clips arrive exactly once, in order, and only clips that were written:
      what the far end has surfaced, followed by what is still in flight, is
      what the near end wrote; and the same the other way. */
  lemma ClipsDeliveredInOrder(a: C.Machine, b: C.Machine, steps: seq<Step>, delay: Duration)
    requires New(a) && New(b) && Legal(Init(a, b), steps, delay)
    ensures var s := After(Init(a, b), steps, delay);
            && s.near.written == s.far.surfaced + ClipsIn(s.out)
            && s.far.written == s.near.surfaced + ClipsIn(s.back)
  {
    RunKeepsInv(Init(a, b), steps, delay);
  }

  /** Each end is introduced at most once, and to the machine at the other end:
      its identity and the token it presents arrive unaltered. */
  lemma IntroducedOnce(a: C.Machine, b: C.Machine, steps: seq<Step>, delay: Duration)
    requires New(a) && New(b) && Legal(Init(a, b), steps, delay)
    ensures var s := After(Init(a, b), steps, delay);
            && s.near.met == (if s.near.m.phase == C.Ready then [Card(b)] else [])
            && s.far.met == (if s.far.m.phase == C.Ready then [Card(a)] else [])
  {
    RunKeepsInv(Init(a, b), steps, delay);
    KeepsMachines(Init(a, b), steps, delay);
  }

  /** While the near end runs, its pings on the way out and its answers on the
      way back number one if it has a ping outstanding (and the peer still
      runs) and none otherwise, and carry the outstanding nonce. */
  predicate OnePacketPerPing(s: Link) {
    var inFlight := Only(Query, s.out) + Only(Answer, s.back);
    !s.near.status.Shut? ==>
      && (s.near.m.pending.None? ==> inFlight == [])
      && (s.near.m.pending.Some? && !s.far.status.Shut? ==> |inFlight| == 1)
      && (s.near.m.pending.Some? ==> |inFlight| <= 1)
      && (inFlight != [] ==>
            var n := s.near.m.pending.value.nonce;
            inFlight[0].msg == Ping(n) || inFlight[0].msg == Pong(n))
  }

  /** A ping in flight is one packet, at both ends, however nonces repeat. */
  lemma PingsConserved(a: C.Machine, b: C.Machine, steps: seq<Step>, delay: Duration)
    requires New(a) && New(b) && Legal(Init(a, b), steps, delay)
    ensures var s := After(Init(a, b), steps, delay);
            OnePacketPerPing(s) && OnePacketPerPing(Flip(s))
  {
    RunKeepsInv(Init(a, b), steps, delay);
    var s := After(Init(a, b), steps, delay);
    TrackedIsOnePacket(s, delay);
    TrackedIsOnePacket(Flip(s), delay);
  }

  lemma TrackedIsOnePacket(s: Link, delay: Duration)
    requires PingTracked(s, delay)
    ensures OnePacketPerPing(s)
  {
  }

  /** The near end's next message is neither ignored nor refused. */
  ghost predicate NextIsTaken(s: Link) {
    s.near.status.Open? && s.back != [] ==>
      && !C.Ignored(s.near.m, s.back[0].msg)
      && forall o, t :: C.Reject(o, t) !in C.NextReceived(s.near.m, s.back[0].msg, s.now).1
  }

  /** Between two such machines no delivered message is ever dropped by the
      ignore arm, and no greeting is ever refused, at either end. */
  lemma NothingDropped(a: C.Machine, b: C.Machine, steps: seq<Step>, delay: Duration)
    requires New(a) && New(b) && Legal(Init(a, b), steps, delay)
    ensures NextIsTaken(After(Init(a, b), steps, delay)) && NextIsTaken(Flip(After(Init(a, b), steps, delay)))
  {
    RunKeepsInv(Init(a, b), steps, delay);
    NextTaken(After(Init(a, b), steps, delay), delay);
    NextTaken(Flip(After(Init(a, b), steps, delay)), delay);
  }

  lemma NextTaken(s: Link, delay: Duration)
    requires Inv(s, delay)
    ensures NextIsTaken(s)
  {
    if s.near.status.Open? && s.back != [] {
      NothingIgnored(s, delay);
    }
  }

  /** Every round trip measured at either end is at most two delivery delays. */
  lemma RoundTripsWithinTwoDelays(a: C.Machine, b: C.Machine, steps: seq<Step>, delay: Duration)
    requires New(a) && New(b) && Legal(Init(a, b), steps, delay)
    ensures forall r :: r in After(Init(a, b), steps, delay).near.rtts ==> r <= 2 * delay
    ensures forall r :: r in After(Init(a, b), steps, delay).far.rtts ==> r <= 2 * delay
  {
    RunKeepsInv(Init(a, b), steps, delay);
    var s := After(Init(a, b), steps, delay);
    assert RoundTripsBounded(s, delay) && RoundTripsBounded(Flip(s), delay);
  }

  /** An end has closed on a timeout although its peer is still running. */
  predicate FalseTimeout(s: Link) {
    || (s.near.status == Shut(S.KeepaliveTimedOut) && !s.far.status.Shut?)
    || (s.far.status == Shut(S.KeepaliveTimedOut) && !s.near.status.Shut?)
  }

  ghost predicate NeverFalse(a: C.Machine, b: C.Machine, delay: Duration) {
    forall steps :: Legal(Init(a, b), steps, delay) ==> !FalseTimeout(After(Init(a, b), steps, delay))
  }

  /** No run reports a timeout against a running peer exactly when a round
      trip of two delays is shorter than three keepalive intervals on both ends. */
  lemma NoFalseTimeoutExactlyWhen(a: C.Machine, b: C.Machine, delay: Duration)
    requires New(a) && New(b)
    ensures NeverFalse(a, b, delay) <==> 2 * delay < 3 * a.interval && 2 * delay < 3 * b.interval
  {
    if 2 * delay < 3 * a.interval && 2 * delay < 3 * b.interval {
      forall steps | Legal(Init(a, b), steps, delay)
        ensures !FalseTimeout(After(Init(a, b), steps, delay))
      {
        RunKeepsInv(Init(a, b), steps, delay);
        KeepsMachines(Init(a, b), steps, delay);
      }
    } else if 2 * delay >= 3 * a.interval {
      SlowLinkTimesOut(a, b, delay);
    } else {
      SlowLinkTimesOut(b, a, delay);
      Mirrored(Init(b, a), SlowRun(b, delay), delay);
      assert Flip(Init(b, a)) == Init(a, b);
      assert FalseTimeout(After(Init(a, b), Mirror(SlowRun(b, delay)), delay));
    }
  }

  lemma {:induction false} KeepsMachines(s: Link, steps: seq<Step>, delay: Duration)
    requires Inv(s, delay) && Legal(s, steps, delay)
    ensures var s' := After(s, steps, delay);
            && s'.near.m.interval == s.near.m.interval && s'.far.m.interval == s.far.m.interval
            && Card(s'.near.m) == Card(s.near.m) && Card(s'.far.m) == Card(s.far.m)
    decreases |steps|
  {
    if steps != [] {
      match steps[0] {
        case Advance(to) =>
        case Near(act) => var e := Classify(s, act, delay);
        case Far(act) => var e := Classify(Flip(s), act, delay);
      }
      StepKeepsInv(s, steps[0], delay);
      KeepsMachines(Apply(s, steps[0], delay), steps[1..], delay);
    }
  }

  /** Greetings at once and a baseline tick. */
  const OPENING_RUN: seq<Step> :=
    [Near(Start(None))] + [Far(Start(None))] + [Near(Take(0, None))] + [Far(Take(0, None))] + [Near(Beat(0, None))]

  /** A ping one interval later, the ping and its answer each a full delay
      under way, and a tick just before the answer is taken. */
  function SlowPing(k: Duration, delay: Duration): seq<Step> {
    [Advance(k)] + [Near(Beat(0, None))] + [Advance(k + delay)] + [Far(Take(0, None))]
    + [Advance(k + 2 * delay)] + [Near(Beat(0, None))]
  }

  function SlowRun(a: C.Machine, delay: Duration): seq<Step> {
    OPENING_RUN + SlowPing(a.interval, delay)
  }

  /** The state the slow run's first five steps reach. */
  function BothReady(a: C.Machine, b: C.Machine): Link {
    Link(0, Side(a.(phase := C.Ready, lastPing := Some(0)), Open, [Card(b)], [], [], []),
         Side(b.(phase := C.Ready), Open, [Card(a)], [], [], []), [], [])
  }

  function Hi(m: C.Machine): Packet { Packet(S.HelloOf(m), 0) }

  lemma Starts(s: Link)
    requires s.near.status.Fresh? && s.now == 0
    ensures NearStep(s, Start(None)) == s.(near := s.near.(status := Open), out := s.out + [Hi(s.near.m)])
  {
    S.PerformOne(s.near.m, C.Started, 0, s.now, None);
    Writing(s, Start(None), s.near.m, S.HelloOf(s.near.m));
  }

  lemma TakesGreeting(s: Link)
    requires Takes(s, Hello) && s.near.m.phase == C.AwaitingPeerHandshake
    requires s.back[0].msg.greeting.version == PROTOCOL_VERSION
    ensures NearStep(s, Take(0, None))
         == s.(near := s.near.(m := s.near.m.(phase := C.Ready), met := s.near.met + [Told(s.back[0].msg.greeting)]),
               back := s.back[1..])
  {
    S.PerformOne(s.near.m, C.Received(s.back[0].msg), 0, s.now, None);
    Reporting(s, Take(0, None), s.near.m.(phase := C.Ready), Told(s.back[0].msg.greeting));
  }

  lemma TakesPing(s: Link)
    requires Takes(s, Query) && s.near.m.phase == C.Ready
    ensures NearStep(s, Take(0, None))
         == s.(out := s.out + [Packet(Pong(s.back[0].msg.nonce), s.now)], back := s.back[1..])
  {
    S.PerformOne(s.near.m, C.Received(s.back[0].msg), 0, s.now, None);
    Writing(s, Take(0, None), s.near.m, Pong(s.back[0].msg.nonce));
  }

  lemma Beats(s: Link)
    requires s.near.status.Open?
    ensures var (m', actions) := C.Next(s.near.m, C.Tick(s.now), 0, s.now);
            && (actions == [] ==> NearStep(s, Beat(0, None)) == s.(near := s.near.(m := m')))
            && (actions == [C.Send(Ping(0))] ==>
                  NearStep(s, Beat(0, None)) == s.(near := s.near.(m := m'), out := s.out + [Packet(Ping(0), s.now)]))
            && (actions == [C.KeepaliveTimedOut] ==>
                  NearStep(s, Beat(0, None)) == s.(near := s.near.(m := m', status := Shut(S.KeepaliveTimedOut))))
  {
    var (m', actions) := C.Next(s.near.m, C.Tick(s.now), 0, s.now);
    S.PerformOne(s.near.m, C.Tick(s.now), 0, s.now, None);
    if actions == [] {
      Quiet(s, Beat(0, None), m');
    } else if actions == [C.KeepaliveTimedOut] {
      Ending(s, Beat(0, None), m', S.KeepaliveTimedOut);
    } else {
      Writing(s, Beat(0, None), m', Ping(0));
    }
  }

  /** `steps` leads from `s` to `s'`. */
  predicate Leads(s: Link, steps: seq<Step>, s': Link, delay: Duration) {
    Legal(s, steps, delay) && After(s, steps, delay) == s'
  }

  /** One more step at the end of a run. */
  lemma Extend(s: Link, steps: seq<Step>, s': Link, last: Step, delay: Duration)
    requires Leads(s, steps, s', delay) && CanStep(s', last, delay)
    ensures Leads(s, steps + [last], Apply(s', last, delay), delay)
  {
    assert [last][1..] == [];
    RunsCompose(s, steps, [last], delay);
  }

  lemma SlowRunOpens(a: C.Machine, b: C.Machine, delay: Duration)
    requires New(a) && New(b)
    ensures Leads(Init(a, b), OPENING_RUN, BothReady(a, b), delay)
  {
    var s0 := Init(a, b);
    Starts(s0);
    var s1 := s0.(near := Side(a, Open, [], [], [], []), out := [Hi(a)]);
    var r1 := [Near(Start(None))];
    assert [] + r1 == r1;
    Extend(s0, [], s0, Near(Start(None)), delay);
    var s2 := s1.(far := Side(b, Open, [], [], [], []), back := [Hi(b)]);
    Starts(Flip(s1));
    Extend(s0, r1, s1, Far(Start(None)), delay);
    var r2 := r1 + [Far(Start(None))];
    SlowRunGreets(a, b, delay, s2, r2);
  }

  lemma SlowRunGreets(a: C.Machine, b: C.Machine, delay: Duration, s2: Link, r2: seq<Step>)
    requires New(a) && New(b)
    requires s2 == Link(0, Side(a, Open, [], [], [], []), Side(b, Open, [], [], [], []), [Hi(a)], [Hi(b)])
    requires Leads(Init(a, b), r2, s2, delay)
    ensures Leads(Init(a, b), r2 + [Near(Take(0, None))] + [Far(Take(0, None))] + [Near(Beat(0, None))],
                  BothReady(a, b), delay)
  {
    var s0 := Init(a, b);
    TakesGreeting(s2);
    var s3 := s2.(near := Side(a.(phase := C.Ready), Open, [Card(b)], [], [], []), back := []);
    Extend(s0, r2, s2, Near(Take(0, None)), delay);
    var r3 := r2 + [Near(Take(0, None))];
    TakesGreeting(Flip(s3));
    var s4 := s3.(far := Side(b.(phase := C.Ready), Open, [Card(a)], [], [], []), out := []);
    Extend(s0, r3, s3, Far(Take(0, None)), delay);
    Beats(s4);
    Extend(s0, r3 + [Far(Take(0, None))], s4, Near(Beat(0, None)), delay);
  }

  lemma SlowRunExpires(a: C.Machine, b: C.Machine, delay: Duration, s6: Link)
    requires New(a) && New(b) && 2 * delay >= 3 * a.interval
    requires var pinging := a.(phase := C.Ready, lastPing := Some(a.interval),
                               pending := Some(C.PendingPing(0, a.interval)), nextNonce := 1);
             s6 == Link(a.interval + 2 * delay, Side(pinging.(pending := None), Shut(S.KeepaliveTimedOut), [Card(b)], [], [], []),
                        BothReady(a, b).far, [], [Packet(Pong(0), a.interval + delay)])
    ensures Leads(BothReady(a, b), SlowPing(a.interval, delay), s6, delay)
  {
    var k := a.interval;
    var s0 := BothReady(a, b);
    var s1 := s0.(now := k);
    var r1 := [Advance(k)];
    assert [] + r1 == r1;
    Extend(s0, [], s0, Advance(k), delay);
    Beats(s1);
    var s2 := s1.(near := s1.near.(m := C.Next(s1.near.m, C.Tick(k), 0, k).0), out := [Packet(Ping(0), k)]);
    Extend(s0, r1, s1, Near(Beat(0, None)), delay);
    var r2 := r1 + [Near(Beat(0, None))];
    Extend(s0, r2, s2, Advance(k + delay), delay);
    var s3 := s2.(now := k + delay);
    SlowAnswer(s0, s3, r2 + [Advance(k + delay)], k, delay, s6);
  }

  lemma SlowAnswer(s0: Link, s3: Link, r3: seq<Step>, k: Duration, delay: Duration, s6: Link)
    requires Leads(s0, r3, s3, delay)
    requires s3.now == k + delay && s3.near.status.Open? && s3.far.status.Open? && s3.back == []
    requires s3.near.m.phase == C.Ready && s3.far.m.phase == C.Ready
    requires s3.near.m.interval == k && 2 * delay >= 3 * k && s3.near.m.pending == Some(C.PendingPing(0, k))
    requires s3.out == [Packet(Ping(0), k)]
    requires s6 == s3.(now := k + 2 * delay, out := [], back := [Packet(Pong(0), k + delay)],
                       near := s3.near.(m := s3.near.m.(pending := None), status := Shut(S.KeepaliveTimedOut)))
    ensures Leads(s0, r3 + [Far(Take(0, None))] + [Advance(k + 2 * delay)] + [Near(Beat(0, None))], s6, delay)
  {
    TakesPing(Flip(s3));
    var s4 := s3.(out := [], back := [Packet(Pong(0), k + delay)]);
    Extend(s0, r3, s3, Far(Take(0, None)), delay);
    var r4 := r3 + [Far(Take(0, None))];
    var s5 := s4.(now := k + 2 * delay);
    Extend(s0, r4, s4, Advance(k + 2 * delay), delay);
    Beats(s5);
    Extend(s0, r4 + [Advance(k + 2 * delay)], s5, Near(Beat(0, None)), delay);
  }

  lemma {:induction false} RunsCompose(s: Link, first: seq<Step>, second: seq<Step>, delay: Duration)
    requires Legal(s, first, delay) && Legal(After(s, first, delay), second, delay)
    ensures Legal(s, first + second, delay)
    ensures After(s, first + second, delay) == After(After(s, first, delay), second, delay)
    decreases |first|
  {
    if first == [] {
      assert first + second == second;
    } else {
      assert (first + second)[1..] == first[1..] + second;
      RunsCompose(Apply(s, first[0], delay), first[1..], second, delay);
    }
  }

  lemma SlowLinkTimesOut(a: C.Machine, b: C.Machine, delay: Duration)
    requires New(a) && New(b) && 2 * delay >= 3 * a.interval
    ensures Legal(Init(a, b), SlowRun(a, delay), delay)
    ensures FalseTimeout(After(Init(a, b), SlowRun(a, delay), delay))
  {
    var expired := a.(phase := C.Ready, lastPing := Some(a.interval), nextNonce := 1);
    var s6 := Link(a.interval + 2 * delay, Side(expired, Shut(S.KeepaliveTimedOut), [Card(b)], [], [], []),
                   BothReady(a, b).far, [], [Packet(Pong(0), a.interval + delay)]);
    SlowRunOpens(a, b, delay);
    SlowRunExpires(a, b, delay, s6);
    RunsCompose(Init(a, b), OPENING_RUN, SlowPing(a.interval, delay), delay);
  }

  function MirrorStep(step: Step): Step {
    match step
    case Advance(to) => Advance(to)
    case Near(act) => Far(act)
    case Far(act) => Near(act)
  }

  function Mirror(steps: seq<Step>): seq<Step> {
    if steps == [] then [] else [MirrorStep(steps[0])] + Mirror(steps[1..])
  }

  /** The link has no preferred end. */
  lemma {:induction false} Mirrored(s: Link, steps: seq<Step>, delay: Duration)
    requires Legal(s, steps, delay)
    ensures Legal(Flip(s), Mirror(steps), delay)
    ensures After(Flip(s), Mirror(steps), delay) == Flip(After(s, steps, delay))
    decreases |steps|
  {
    if steps != [] {
      Mirrored(Apply(s, steps[0], delay), steps[1..], delay);
      assert Mirror(steps)[1..] == Mirror(steps[1..]);
      assert Apply(Flip(s), MirrorStep(steps[0]), delay) == Flip(Apply(s, steps[0], delay));
    }
  }
}
