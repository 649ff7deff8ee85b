/// What one machine's keepalive guarantees over any sequence of inputs, with
/// no assumption about the peer: how soon silence is detected, and how often
/// a ping can be sent.
module Keepalive {
  import opened Protocol
  import opened Connection

  /** An event together with the nonce and clock reading it would use. */
  datatype Input = Input(event: Event, nonce: nat, clock: Instant)

  function Step(m: Machine, i: Input): (Machine, seq<Action>) {
    Next(m, i.event, i.nonce, i.clock)
  }

  /** Ticks carry non-decreasing times at most `gap` apart, counted from `from`. */
  predicate TickedWithin(from: Instant, gap: Duration, inputs: seq<Input>)
    decreases |inputs|
  {
    inputs == [] ||
    match inputs[0].event
    case Tick(now) => from <= now <= from + gap && TickedWithin(now, gap, inputs[1..])
    case _ => TickedWithin(from, gap, inputs[1..])
  }

  predicate TicksInOrder(from: Instant, inputs: seq<Input>)
    decreases |inputs|
  {
    inputs == [] ||
    match inputs[0].event
    case Tick(now) => from <= now && TicksInOrder(now, inputs[1..])
    case _ => TicksInOrder(from, inputs[1..])
  }

  function LastTick(from: Instant, inputs: seq<Input>): Instant
    decreases |inputs|
  {
    if inputs == [] then from
    else LastTick(if inputs[0].event.Tick? then inputs[0].event.now else from, inputs[1..])
  }

  /** No input is a pong answering the ping outstanding when it arrives. */
  predicate Unanswered(m: Machine, inputs: seq<Input>)
    decreases |inputs|
  {
    inputs == [] ||
    (&& !(inputs[0].event.Received? && inputs[0].event.msg.Pong? && !Ignored(m, inputs[0].event.msg))
     && Unanswered(Step(m, inputs[0]).0, inputs[1..]))
  }

  /** Time of the tick that first reports a timeout. */
  function FirstTimeout(m: Machine, inputs: seq<Input>): Option<Instant>
    decreases |inputs|
  {
    if inputs == [] then None
    else if KeepaliveTimedOut in Step(m, inputs[0]).1 && inputs[0].event.Tick? then Some(inputs[0].event.now)
    else FirstTimeout(Step(m, inputs[0]).0, inputs[1..])
  }

  predicate SendsPing(actions: seq<Action>) {
    exists i :: 0 <= i < |actions| && actions[i].Send? && actions[i].msg.Ping?
  }

  function PingsSent(m: Machine, inputs: seq<Input>): nat
    decreases |inputs|
  {
    if inputs == [] then 0
    else
      (if SendsPing(Step(m, inputs[0]).1) then 1 else 0)
      + PingsSent(Step(m, inputs[0]).0, inputs[1..])
  }

  function Later(a: nat, b: nat): nat { if a >= b then a else b }

  /** Latest moment a silent, ready machine last ticked at `t` can still time out. */
  function Deadline(m: Machine, t: Instant, gap: Duration): Instant {
    if m.pending.Some? then Later(m.pending.value.sentAt + 3 * m.interval, t) + gap
    else if m.lastPing.Some? then Later(m.lastPing.value + m.interval, t) + gap + 3 * m.interval + gap
    else t + gap + m.interval + gap + 3 * m.interval + gap
  }

  lemma {:induction false} SilenceMeetsDeadline(m: Machine, t: Instant, gap: Duration, inputs: seq<Input>)
    requires m.phase == Ready
    requires m.pending.Some? ==> m.pending.value.sentAt <= t
    requires m.lastPing.Some? ==> m.lastPing.value <= t
    requires TickedWithin(t, gap, inputs) && Unanswered(m, inputs)
    ensures match FirstTimeout(m, inputs)
            case Some(at) => at <= Deadline(m, t, gap)
            case None => LastTick(t, inputs) <= Deadline(m, t, gap)
    decreases |inputs|
  {
    if inputs != [] {
      var e := inputs[0].event;
      var m' := Step(m, inputs[0]).0;
      var t' := if e.Tick? then e.now else t;
      if e.Tick? && KeepaliveTimedOut in Step(m, inputs[0]).1 {
      } else {
        assert KeepaliveTimedOut !in Step(m, inputs[0]).1;
        assert Deadline(m', t', gap) <= Deadline(m, t, gap);
        SilenceMeetsDeadline(m', t', gap, inputs[1..]);
      }
    }
  }

  /** A ready machine that is ticked with gaps of at most `gap` and gets no
      matching pong after `t0` reports the timeout by `t0` + 4 intervals + 3
      gaps: one baseline tick, one ping, one expiry. Once ticks have passed
      that moment the report has been made. */
  lemma BoundedDetection(m: Machine, t0: Instant, gap: Duration, inputs: seq<Input>)
    requires m.phase == Ready
    requires m.pending.Some? ==> m.pending.value.sentAt <= t0
    requires m.lastPing.Some? ==> m.lastPing.value <= t0
    requires TickedWithin(t0, gap, inputs) && Unanswered(m, inputs)
    ensures match FirstTimeout(m, inputs)
            case Some(at) => at <= t0 + 4 * m.interval + 3 * gap
            case None => LastTick(t0, inputs) <= t0 + 4 * m.interval + 3 * gap
  {
    SilenceMeetsDeadline(m, t0, gap, inputs);
  }

  lemma OneMore(n: nat, k: nat)
    ensures (1 + n) * k == k + n * k
  {
  }

  lemma {:induction false} PingsSpacedFrom(m: Machine, t: Instant, inputs: seq<Input>)
    requires m.lastPing.Some? && m.lastPing.value <= t
    requires TicksInOrder(t, inputs)
    ensures PingsSent(m, inputs) * m.interval <= LastTick(t, inputs) - m.lastPing.value
    decreases |inputs|
  {
    if inputs != [] {
      var e := inputs[0].event;
      var m' := Step(m, inputs[0]).0;
      PingsSpacedFrom(m', if e.Tick? then e.now else t, inputs[1..]);
      OneMore(PingsSent(m', inputs[1..]), m.interval);
    }
  }

  /** Over ticks spanning time L a machine sends at most 1 + L / interval pings. */
  lemma {:induction false} PingRate(m: Machine, t: Instant, inputs: seq<Input>)
    requires TicksInOrder(t, inputs)
    ensures PingsSent(m, inputs) > 0 ==>
              (PingsSent(m, inputs) - 1) * m.interval <= LastTick(t, inputs) - t
    decreases |inputs|
  {
    if inputs != [] {
      var e := inputs[0].event;
      var m' := Step(m, inputs[0]).0;
      var t' := if e.Tick? then e.now else t;
      PingRate(m', t', inputs[1..]);
      LastTickInOrder(t', inputs[1..]);
      if SendsPing(Step(m, inputs[0]).1) {
        PingsSpacedFrom(m', t', inputs[1..]);
      }
    }
  }

  lemma LastTickInOrder(t: Instant, inputs: seq<Input>)
    requires TicksInOrder(t, inputs)
    ensures LastTick(t, inputs) >= t
    decreases |inputs|
  {
  }
}
