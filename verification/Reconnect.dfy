/// The dialer: connect, drain the session, back off, retry, for as long as
/// somebody listens to its events.
module Reconnect {
  import opened Protocol
  import opened Backoff
  import C = Connection
  import S = Session

  datatype DialerEvent =
    | Connected(handle: nat)
    | FromSession(event: S.SessionEvent)
    | Reconnecting(attempt: nat, delay: Duration)

  /** How one connect attempt goes: it fails, or a session comes up under a
      handle and its driver meets this schedule. */
  datatype Dial =
    | Fails
    | Up(handle: nat, startError: Option<string>, turns: seq<S.Turn>)

  /** One round of the loop. `heard` is how many of the round's events still
      have a receiver; `None` means all of them. */
  datatype Round = Round(dial: Dial, heard: Option<nat>)

  function Heard(events: seq<DialerEvent>, heard: Option<nat>): seq<DialerEvent> {
    if heard.Some? && heard.value < |events| then events[..heard.value] else events
  }

  predicate Gone(sent: nat, heard: Option<nat>) {
    heard.Some? && heard.value <= sent
  }

  function Wrap(events: seq<S.SessionEvent>): seq<DialerEvent> {
    seq(|events|, i requires 0 <= i < |events| => FromSession(events[i]))
  }

  function SaturatingInc(n: nat): nat { if n < U32_MAX then n + 1 else U32_MAX }

  function Dialed(local: C.Identity, interval: Duration, token: Option<TokenBytes>, dial: Dial): S.Outcome
    requires dial.Up?
  {
    S.Serve(C.New(local, interval, token), dial.startError, dial.turns).1
  }

  /** The events that reach the receiver, and the token offered to each
      connect attempt. The loop stops when the receiver is gone, or inside a
      session that is still up when its schedule ends. */
  function Trace(local: C.Identity, interval: Duration, token: Option<TokenBytes>, attempt: nat, rounds: seq<Round>)
    : (seq<DialerEvent>, seq<Option<TokenBytes>>)
    decreases |rounds|
  {
    if rounds == [] then ([], [])
    else
      var r := rounds[0];
      var up := r.dial.Up?;
      var session := if up then [Connected(r.dial.handle)] + Wrap(Dialed(local, interval, token, r.dial).events) else [];
      var attempt' := if up then 0 else attempt;
      if Gone(|session|, r.heard) || (up && Dialed(local, interval, token, r.dial).live)
      then (Heard(session, r.heard), [token])
      else
        var (later, tokens) := Trace(local, interval, None, SaturatingInc(attempt'), rounds[1..]);
        (session + [Reconnecting(attempt', Delay(attempt'))] + later, [token] + tokens)
  }

  method Run(local: C.Identity, interval: Duration, token: Option<TokenBytes>, rounds: seq<Round>)
    returns (trace: seq<DialerEvent>, offered: seq<Option<TokenBytes>>)
    ensures (trace, offered) == Trace(local, interval, token, 0, rounds)
  {
    var attempt := 0;
    var pairingToken := token;
    trace, offered := [], [];
    assert rounds[0..] == rounds;
    Regroup([], [], [], [], Trace(local, interval, token, 0, rounds));
    for i := 0 to |rounds|
      invariant Trace(local, interval, token, 0, rounds)
             == After(trace, offered, Trace(local, interval, pairingToken, attempt, rounds[i..]))
    {
      var r := rounds[i];
      assert rounds[i..][0] == r && rounds[i..][1..] == rounds[i + 1..];
      var taken := pairingToken;
      pairingToken := None;
      var session: seq<DialerEvent> := [];
      if r.dial.Up? {
        attempt := 0;
        if Gone(0, r.heard) {
          assert trace + [] == trace;
          offered := offered + [taken];
          return;
        }
        var machine := new C.ConnectionMachine(local, interval, taken);
        var reason, passed, live := S.DriveThenDrain(machine, r.dial.startError, r.dial.turns);
        session := [Connected(r.dial.handle)] + Wrap(passed);
        if live {
          trace, offered := trace + Heard(session, r.heard), offered + [taken];
          return;
        }
      }
      if Gone(|session|, r.heard) {
        trace, offered := trace + Heard(session, r.heard), offered + [taken];
        return;
      }
      var retry := Reconnecting(attempt, Delay(attempt));
      Regroup(trace, offered, session + [retry], [taken],
              Trace(local, interval, None, SaturatingInc(attempt), rounds[i + 1..]));
      trace, offered := trace + (session + [retry]), offered + [taken];
      attempt := SaturatingInc(attempt);
    }
    Regroup(trace, offered, [], [], ([], []));
  }

  function After(events: seq<DialerEvent>, tokens: seq<Option<TokenBytes>>,
                 later: (seq<DialerEvent>, seq<Option<TokenBytes>>)): (seq<DialerEvent>, seq<Option<TokenBytes>>) {
    (events + later.0, tokens + later.1)
  }

  lemma Regroup(e1: seq<DialerEvent>, t1: seq<Option<TokenBytes>>, e2: seq<DialerEvent>, t2: seq<Option<TokenBytes>>,
                later: (seq<DialerEvent>, seq<Option<TokenBytes>>))
    ensures After(e1 + e2, t1 + t2, later) == After(e1, t1, After(e2, t2, later))
    ensures After([], [], later) == later
    ensures After(e1, t1, ([], [])) == (e1, t1)
  {
    assert e1 + e2 + later.0 == e1 + (e2 + later.0);
    assert t1 + t2 + later.1 == t1 + (t2 + later.1);
    assert [] + later.0 == later.0 && [] + later.1 == later.1;
    assert e1 + [] == e1 && t1 + [] == t1;
  }

  // ---- The dialer keeps dialing ----

  function TokenAt(token: Option<TokenBytes>, i: nat): Option<TokenBytes> { if i == 0 then token else None }

  /** The round's session outlives its schedule. */
  predicate StaysUp(local: C.Identity, interval: Duration, token: Option<TokenBytes>, r: Round) {
    r.dial.Up? && Dialed(local, interval, token, r.dial).live
  }

  /** The receiver is gone by the end of the round's session, or by the end of a
      failed attempt. */
  predicate Unheard(local: C.Identity, interval: Duration, token: Option<TokenBytes>, r: Round) {
    r.heard.Some?
    && r.heard.value <= if r.dial.Up? then 1 + |Dialed(local, interval, token, r.dial).events| else 0
  }

  /** After each round that was dialed there is another exactly when the
      receiver still listens and the session, if any, is over: failures and
      ended sessions alike are retried, and nothing else stops the dialer. */
  lemma {:induction false} DialsAgainExactlyWhen(
    local: C.Identity, interval: Duration, token: Option<TokenBytes>, attempt: nat, rounds: seq<Round>, i: nat)
    requires i + 1 < |rounds| && i < |Trace(local, interval, token, attempt, rounds).1|
    ensures i + 1 < |Trace(local, interval, token, attempt, rounds).1| <==>
            !StaysUp(local, interval, TokenAt(token, i), rounds[i]) && !Unheard(local, interval, TokenAt(token, i), rounds[i])
    decreases |rounds|
  {
    var attempt' := if rounds[0].dial.Up? then 0 else attempt;
    TokenOfferedOnce(local, interval, None, SaturatingInc(attempt'), rounds[1..]);
    if i > 0 {
      DialsAgainExactlyWhen(local, interval, None, SaturatingInc(attempt'), rounds[1..], i - 1);
    }
  }

  function Handles(trace: seq<DialerEvent>): seq<nat> {
    if trace == [] then []
    else (if trace[0].Connected? then [trace[0].handle] else []) + Handles(trace[1..])
  }

  function UpHandles(rounds: seq<Round>): seq<nat> {
    if rounds == [] then []
    else (if rounds[0].dial.Up? then [rounds[0].dial.handle] else []) + UpHandles(rounds[1..])
  }

  function Reconnects(trace: seq<DialerEvent>): nat {
    if trace == [] then 0 else Reconnects(trace[1..]) + if trace[0].Reconnecting? then 1 else 0
  }

  function Surfaced(trace: seq<DialerEvent>): seq<S.SessionEvent> {
    if trace == [] then []
    else (if trace[0].FromSession? then [trace[0].event] else []) + Surfaced(trace[1..])
  }

  /** What the drivers of the rounds report, one after the other. */
  function AllReported(local: C.Identity, interval: Duration, token: Option<TokenBytes>, rounds: seq<Round>): seq<S.SessionEvent>
    decreases |rounds|
  {
    if rounds == [] then []
    else
      (if rounds[0].dial.Up? then Dialed(local, interval, token, rounds[0].dial).events else [])
      + AllReported(local, interval, None, rounds[1..])
  }

  lemma {:induction false} TraceAppends(a: seq<DialerEvent>, b: seq<DialerEvent>)
    ensures Handles(a + b) == Handles(a) + Handles(b) && Reconnects(a + b) == Reconnects(a) + Reconnects(b)
    decreases |a|
  {
    if a == [] {
      assert a + b == b;
    } else {
      assert (a + b)[0] == a[0] && (a + b)[1..] == a[1..] + b;
      TraceAppends(a[1..], b);
      var first := if a[0].Connected? then [a[0].handle] else [];
      assert Handles(a + b) == first + (Handles(a[1..]) + Handles(b));
    }
  }

  lemma {:induction false} SurfacedAppends(a: seq<DialerEvent>, b: seq<DialerEvent>)
    ensures Surfaced(a + b) == Surfaced(a) + Surfaced(b)
    decreases |a|
  {
    if a == [] {
      assert a + b == b;
    } else {
      assert (a + b)[0] == a[0] && (a + b)[1..] == a[1..] + b;
      SurfacedAppends(a[1..], b);
      var first := if a[0].FromSession? then [a[0].event] else [];
      assert Surfaced(a + b) == first + (Surfaced(a[1..]) + Surfaced(b));
    }
  }

  lemma {:induction false} WrapSurfaces(events: seq<S.SessionEvent>)
    ensures Handles(Wrap(events)) == [] && Reconnects(Wrap(events)) == 0 && Surfaced(Wrap(events)) == events
    decreases |events|
  {
    if events != [] {
      assert Wrap(events)[1..] == Wrap(events[1..]);
      WrapSurfaces(events[1..]);
    }
  }

  lemma RoundCounts(handle: nat, events: seq<S.SessionEvent>, up: bool, back: DialerEvent, later: seq<DialerEvent>)
    requires back.Reconnecting?
    ensures var trace := (if up then [Connected(handle)] + Wrap(events) else []) + [back] + later;
            && Handles(trace) == (if up then [handle] else []) + Handles(later)
            && Reconnects(trace) == 1 + Reconnects(later)
            && Surfaced(trace) == (if up then events else []) + Surfaced(later)
  {
    var session := if up then [Connected(handle)] + Wrap(events) else [];
    var none: seq<DialerEvent> := [];
    assert [back][1..] == none;
    TraceAppends(session + [back], later);
    TraceAppends(session, [back]);
    SurfacedAppends(session + [back], later);
    SurfacedAppends(session, [back]);
    WrapSurfaces(events);
    assert ([Connected(handle)] + Wrap(events))[1..] == Wrap(events);
  }

  /** With a listener throughout and no session outliving its schedule, every
      round is dialed and followed by a back-off, every connection that comes up
      is announced, in order, and every event of its session is passed on. */
  lemma {:induction false} EveryRoundIsDialed(
    local: C.Identity, interval: Duration, token: Option<TokenBytes>, attempt: nat, rounds: seq<Round>)
    requires forall i :: 0 <= i < |rounds| ==>
               rounds[i].heard.None? && !StaysUp(local, interval, TokenAt(token, i), rounds[i])
    ensures var (trace, offered) := Trace(local, interval, token, attempt, rounds);
            && |offered| == |rounds| && Reconnects(trace) == |rounds| && Handles(trace) == UpHandles(rounds)
            && Surfaced(trace) == AllReported(local, interval, token, rounds)
    decreases |rounds|
  {
    if rounds != [] {
      var r := rounds[0];
      var attempt' := if r.dial.Up? then 0 else attempt;
      assert forall i :: 0 <= i < |rounds[1..]| ==> rounds[1..][i] == rounds[i + 1] && TokenAt(None, i) == TokenAt(token, i + 1);
      EveryRoundIsDialed(local, interval, None, SaturatingInc(attempt'), rounds[1..]);
      assert !StaysUp(local, interval, TokenAt(token, 0), r);
      var later := Trace(local, interval, None, SaturatingInc(attempt'), rounds[1..]).0;
      var events := if r.dial.Up? then Dialed(local, interval, token, r.dial).events else [];
      RoundCounts(if r.dial.Up? then r.dial.handle else 0, events, r.dial.Up?, Reconnecting(attempt', Delay(attempt')), later);
    }
  }

  // ---- The grammar of dialer events ----

  /** Where a trace stands: about to dial after `retries` back-offs since the
      last connection, in a session, or just closed. */
  datatype Stage = Dialing(retries: nat) | Within(handle: nat, session: S.Stage) | JustClosed

  function Follow(s: Stage, e: DialerEvent): Option<Stage> {
    match (s, e)
    case (Dialing(n), Connected(h)) => Some(Within(h, S.Opening))
    case (Dialing(n), Reconnecting(a, d)) =>
      if a == Min(n, U32_MAX) && d == Delay(a) then Some(Dialing(n + 1)) else None
    case (Within(h, t), FromSession(ev)) =>
      var t' := S.Follow(t, ev);
      if t'.None? then None else if t' == Some(S.Over) then Some(JustClosed) else Some(Within(h, t'.value))
    case (JustClosed, Reconnecting(a, d)) => if a == 0 && d == Delay(0) then Some(Dialing(1)) else None
    case _ => None
  }

  function Walk(s: Stage, trace: seq<DialerEvent>): Option<Stage>
    decreases |trace|
  {
    if trace == [] then Some(s)
    else
      var next := Follow(s, trace[0]);
      if next.None? then None else Walk(next.value, trace[1..])
  }

  lemma {:induction false} WalkAppend(s: Stage, a: seq<DialerEvent>, b: seq<DialerEvent>)
    ensures Walk(s, a + b) == if Walk(s, a).Some? then Walk(Walk(s, a).value, b) else None
    decreases |a|
  {
    if a == [] {
      assert a + b == b;
    } else {
      assert (a + b)[1..] == a[1..] + b;
      if Follow(s, a[0]).Some? {
        WalkAppend(Follow(s, a[0]).value, a[1..], b);
      }
    }
  }

  /** Within a session the dialer's grammar is the session's. */
  lemma {:induction false} SessionWithin(h: nat, t: S.Stage, events: seq<S.SessionEvent>)
    requires t != S.Over && S.Walk(t, events).Some?
    ensures Walk(Within(h, t), Wrap(events))
         == Some(if S.Walk(t, events) == Some(S.Over) then JustClosed else Within(h, S.Walk(t, events).value))
    decreases |events|
  {
    if events != [] {
      assert Wrap(events)[1..] == Wrap(events[1..]);
      var t' := S.Follow(t, events[0]).value;
      if t' == S.Over {
        assert events[1..] == [];
      } else {
        SessionWithin(h, t', events[1..]);
      }
    }
  }

  lemma DialedObeysGrammar(local: C.Identity, interval: Duration, token: Option<TokenBytes>, dial: Dial, n: nat)
    requires dial.Up?
    ensures var o := Dialed(local, interval, token, dial);
            var session := [Connected(dial.handle)] + Wrap(o.events);
            && Walk(Dialing(n), session).Some?
            && (!o.live ==> Walk(Dialing(n), session) == Some(JustClosed))
            && (o.live ==> Walk(Dialing(n), session).value.Within?)
  {
    var m := C.New(local, interval, token);
    var o := Dialed(local, interval, token, dial);
    S.DriverObeysGrammar(m, dial.startError, dial.turns);
    if o.live {
      var closed := S.Closed(S.KeepaliveTimedOut);
      S.GrammarMeansComplete(o.events + [closed]);
      S.WalkAppend(S.Opening, o.events, [closed]);
    } else {
      S.GrammarMeansComplete(o.events);
    }
    SessionWithin(dial.handle, S.Opening, o.events);
    assert ([Connected(dial.handle)] + Wrap(o.events))[1..] == Wrap(o.events);
  }

  /** Every run of the dialer, whatever its connections meet and whenever its
      receiver goes away, yields a trace of the grammar. */
  lemma {:induction false} DialerObeysGrammar(
    local: C.Identity, interval: Duration, token: Option<TokenBytes>, retries: nat, rounds: seq<Round>)
    ensures Walk(Dialing(retries), Trace(local, interval, token, Min(retries, U32_MAX), rounds).0).Some?
    decreases |rounds|
  {
    if rounds != [] {
      var r := rounds[0];
      var up := r.dial.Up?;
      var attempt := Min(retries, U32_MAX);
      var session := if up then [Connected(r.dial.handle)] + Wrap(Dialed(local, interval, token, r.dial).events) else [];
      if up {
        DialedObeysGrammar(local, interval, token, r.dial, retries);
      }
      var k := |Heard(session, r.heard)|;
      assert session == session[..k] + session[k..];
      WalkAppend(Dialing(retries), session[..k], session[k..]);
      if !(Gone(|session|, r.heard) || (up && Dialed(local, interval, token, r.dial).live)) {
        var retries' := if up then 1 else retries + 1;
        DialerObeysGrammar(local, interval, None, retries', rounds[1..]);
        var attempt' := if up then 0 else attempt;
        var back := Reconnecting(attempt', Delay(attempt'));
        var later := Trace(local, interval, None, Min(retries', U32_MAX), rounds[1..]).0;
        assert [back][1..] == [];
        WalkAppend(Dialing(retries), session, [back]);
        WalkAppend(Dialing(retries), session + [back], later);
      }
    }
  }

  // ---- What the grammar means ----

  function Connects(trace: seq<DialerEvent>): nat {
    if trace == [] then 0 else Connects(trace[1..]) + if trace[0].Connected? then 1 else 0
  }

  predicate IsClose(e: DialerEvent) { e.FromSession? && e.event.Closed? }

  function Closes(trace: seq<DialerEvent>): nat {
    if trace == [] then 0 else Closes(trace[1..]) + if IsClose(trace[0]) then 1 else 0
  }

  /** Back-offs since the last connection, `before` of them ahead of the trace. */
  function Retries(before: nat, trace: seq<DialerEvent>): nat
    decreases |trace|
  {
    if trace == [] then before
    else Retries(if trace[0].Connected? then 0 else if trace[0].Reconnecting? then before + 1 else before, trace[1..])
  }

  function RetriesOf(s: Stage): nat { if s.Dialing? then s.retries else 0 }

  lemma {:induction false} StageCounts(s: Stage, trace: seq<DialerEvent>)
    requires Walk(s, trace).Some?
    ensures Connects(trace) + (if s.Within? then 1 else 0) == Closes(trace) + (if Walk(s, trace).value.Within? then 1 else 0)
    ensures Retries(RetriesOf(s), trace) == RetriesOf(Walk(s, trace).value)
    decreases |trace|
  {
    if trace != [] {
      StageCounts(Follow(s, trace[0]).value, trace[1..]);
    }
  }

  /** Sessions never overlap and each back-off is numbered and timed from the
      last connection: at every position of every dialer trace, a `Connected`
      comes only when all earlier sessions have closed, a session event only
      when exactly one has not, and a `Reconnecting` carries the (saturating)
      count of back-offs since the last connection and min(2^attempt, 60) s. */
  lemma DialerTrace(local: C.Identity, interval: Duration, token: Option<TokenBytes>, rounds: seq<Round>, i: nat)
    requires i < |Trace(local, interval, token, 0, rounds).0|
    ensures var trace := Trace(local, interval, token, 0, rounds).0;
            var before := trace[..i];
            match trace[i]
            case Connected(_) => Connects(before) == Closes(before)
            case FromSession(_) => Connects(before) == Closes(before) + 1
            case Reconnecting(attempt, delay) =>
              && Connects(before) == Closes(before)
              && attempt == Min(Retries(0, before), U32_MAX)
              && delay == Min(Pow2(attempt) * SECOND, 60 * SECOND)
  {
    var trace := Trace(local, interval, token, 0, rounds).0;
    DialerObeysGrammar(local, interval, token, 0, rounds);
    var before, rest := trace[..i], trace[i..];
    assert trace == before + rest && rest[0] == trace[i];
    WalkAppend(Dialing(0), before, rest);
    StageCounts(Dialing(0), before);
    if trace[i].Reconnecting? {
      DelayDoublesUpToCap(trace[i].attempt);
    }
  }

  /** The token reaches the first connect attempt, whether or not it
      succeeds, and no later one. */
  lemma {:induction false} TokenOfferedOnce(
    local: C.Identity, interval: Duration, token: Option<TokenBytes>, attempt: nat, rounds: seq<Round>)
    ensures var offered := Trace(local, interval, token, attempt, rounds).1;
            && |offered| <= |rounds| && (rounds != [] ==> offered != [] && offered[0] == token)
            && forall i :: 1 <= i < |offered| ==> offered[i] == None
    decreases |rounds|
  {
    if rounds != [] {
      var attempt' := if rounds[0].dial.Up? then 0 else attempt;
      TokenOfferedOnce(local, interval, None, SaturatingInc(attempt'), rounds[1..]);
    }
  }

  /** The first connection that comes up is presented the token exactly when no
      attempt failed before it (or there is no token). */
  lemma FirstConnectionGetsTokenExactlyWhen(
    local: C.Identity, interval: Duration, token: Option<TokenBytes>, rounds: seq<Round>, i: nat)
    requires i < |rounds| && rounds[i].dial.Up? && (forall k :: 0 <= k < i ==> rounds[k].dial.Fails?)
    requires i < |Trace(local, interval, token, 0, rounds).1|
    ensures Trace(local, interval, token, 0, rounds).1[i] == token <==> i == 0 || token.None?
  {
    TokenOfferedOnce(local, interval, token, 0, rounds);
  }

  /** One failed attempt is enough: the connection that follows is up, heard
      of, and greets its peer without the token. */
  lemma FailedAttemptLosesToken(local: C.Identity, interval: Duration, token: TokenBytes, handle: nat, turns: seq<S.Turn>)
    ensures var up := Up(handle, None, turns);
            var (trace, offered) := Trace(local, interval, Some(token), 0, [Round(Fails, None), Round(up, None)]);
            && offered == [Some(token), None]
            && |trace| >= 2 && trace[0] == Reconnecting(0, Delay(0)) && trace[1] == Connected(handle)
            && var sent := Dialed(local, interval, None, up).sent;
               sent != [] && sent[0].Handshake? && sent[0].greeting.pairingToken == None
  {
    var up := Up(handle, None, turns);
    var second := [Round(up, None)];
    var both := [Round(Fails, None)] + second;
    var none: seq<Round> := [];
    assert both == [Round(Fails, None), Round(up, None)] && both[1..] == second && second[1..] == none;
    var later := Trace(local, interval, None, 1, second);
    assert Trace(local, interval, None, 1, none) == ([], []);
    var noToken: Option<TokenBytes> := None;
    assert [noToken] + [] == [noToken];
    assert later.1 == [None] && later.0 != [] && later.0[0] == Connected(handle);
    S.PerformOne(C.New(local, interval, None), C.Started, 0, 0, None);
  }

  lemma {:induction false} RetriesWait(trace: seq<DialerEvent>, from: nat)
    requires Walk(Dialing(from), trace).Some?
    requires forall i :: 0 <= i < |trace| ==> trace[i].Reconnecting?
    ensures Waited(trace) == TotalDelay(from + |trace|) - TotalDelay(from)
    decreases |trace|
  {
    if trace != [] {
      RetriesWait(trace[1..], from + 1);
      DelayDoublesUpToCap(from);
      DelayDoublesUpToCap(U32_MAX);
      Pow2Values();
      if from > U32_MAX {
        Pow2Grows(6, U32_MAX);
        Pow2Grows(6, from);
      }
    }
  }

  /** The first back-off of a row comes at the very start or right after a
      close; either way the count starts from zero. */
  lemma RowStart(trace: seq<DialerEvent>, i: nat)
    requires Walk(Dialing(0), trace).Some?
    requires i < |trace| && trace[i].Reconnecting? && (i > 0 ==> !trace[i - 1].Reconnecting?)
    ensures Walk(Dialing(0), trace[i..]).Some?
  {
    var before, rest := trace[..i], trace[i..];
    assert trace == before + rest && rest[0] == trace[i];
    WalkAppend(Dialing(0), before, rest);
    if i > 0 {
      var first, last := trace[..i - 1], [trace[i - 1]];
      assert before == first + last && last[1..] == [];
      WalkAppend(Dialing(0), first, last);
    }
  }

  lemma RowWaits(trace: seq<DialerEvent>, i: nat, n: nat)
    requires Walk(Dialing(0), trace).Some?
    requires 0 < n && i + n <= |trace| && (i > 0 ==> !trace[i - 1].Reconnecting?)
    requires forall k :: i <= k < i + n ==> trace[k].Reconnecting?
    ensures Waited(trace[i..i + n]) == TotalDelay(n)
  {
    RowStart(trace, i);
    var row := trace[i..i + n];
    assert trace[i..] == row + trace[i + n..];
    WalkAppend(Dialing(0), row, trace[i + n..]);
    RetriesWait(row, 0);
  }

  /** Any `n` back-offs in a row, from the first of a row on, wait 2^n - 1
      seconds in all for n up to six and a minute more for each one after. */
  lemma BackoffsInARow(local: C.Identity, interval: Duration, token: Option<TokenBytes>, rounds: seq<Round>, i: nat, n: nat)
    requires var trace := Trace(local, interval, token, 0, rounds).0;
             && i + n <= |trace|
             && (i > 0 ==> !trace[i - 1].Reconnecting?)
             && forall k :: i <= k < i + n ==> trace[k].Reconnecting?
    ensures var trace := Trace(local, interval, token, 0, rounds).0;
            Waited(trace[i..i + n]) == if n <= 6 then (Pow2(n) - 1) * SECOND else (63 + 60 * (n - 6)) * SECOND
  {
    var trace := Trace(local, interval, token, 0, rounds).0;
    TotalDelayClosedForm(n);
    if n > 0 {
      DialerObeysGrammar(local, interval, token, 0, rounds);
      RowWaits(trace, i, n);
    } else {
      assert trace[i..i + n] == [];
    }
  }

  function Waited(trace: seq<DialerEvent>): Duration {
    if trace == [] then 0 else (if trace[0].Reconnecting? then trace[0].delay else 0) + Waited(trace[1..])
  }
}
