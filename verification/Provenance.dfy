/// Where trust comes from: every pin of every run of the daemon, traced back
/// to the token, the redemption and the human answer behind it.
module Provenance {
  import opened Protocol
  import opened DaemonRun
  import opened Pairing
  import opened Devices
  import D = Daemon
  import S = Session

  /** The open window belongs to the current token and ends when it expires. */
  predicate WindowMatches(s: System) {
    s.core.window.Some? ==>
      s.core.token.Some? && s.core.window.value == s.core.token.value.issuedAt + TOKEN_TTL
  }

  /** The token in the slot is the one issued last, and unless it is marked
      redeemed nobody has redeemed it. */
  predicate TokenLogged(s: System) {
    s.core.token.Some? ==>
      && s.issue < |s.log|
      && s.log[s.issue] == Issued(s.core.token.value.bytes, s.core.token.value.issuedAt)
      && s.core.token.value.issuedAt <= s.now
      && (!s.core.token.value.redeemed ==>
            forall k :: 0 <= k < |s.log| && s.log[k].Redeemed? ==> s.log[k].issue != s.issue)
  }

  /** Redemption `k` presented the bytes of an earlier issue within its lifetime. */
  predicate RedemptionJustified(log: seq<Fact>, k: nat)
    requires k < |log| && log[k].Redeemed?
  {
    var j := log[k].issue;
    && j < k && log[j].Issued?
    && log[j].bytes == log[k].presented
    && log[j].at <= log[k].when < log[j].at + TOKEN_TTL
  }

  predicate RedemptionsJustified(log: seq<Fact>) {
    && (forall k :: 0 <= k < |log| && log[k].Redeemed? ==> RedemptionJustified(log, k))
    && (forall k, l :: 0 <= k < l < |log| && log[k].Redeemed? && log[l].Redeemed? ==> log[k].issue != log[l].issue)
  }

  predicate Quiet(f: Fact) { !f.Redeemed? && !f.Pinned? }

  /** Pin `i` follows a redemption by the same device and a human's yes given
      while that device, and no other, was waiting. */
  predicate PinJustified(log: seq<Fact>, i: nat)
    requires i < |log| && log[i].Pinned?
  {
    var (k, l) := (log[i].redeem, log[i].answer);
    && k < l < i
    && log[k].Redeemed? && log[k].id == log[i].id
    && log[l] == Answered(log[i].id, true)
    && forall x :: k < x < i ==> Quiet(log[x])
  }

  predicate PinsJustified(log: seq<Fact>) {
    forall i :: 0 <= i < |log| && log[i].Pinned? ==> PinJustified(log, i)
  }

  /** The waiting handler's own redemption is the last event that matters. */
  predicate WaitJustified(s: System) {
    s.waiting.Awaiting? ==>
      var w := s.waiting;
      && w.redeem < |s.log| && s.log[w.redeem].Redeemed? && s.log[w.redeem].id == w.id
      && w.deadline == s.log[w.redeem].when + CONFIRMATION_WAIT
      && (forall x :: w.redeem < x < |s.log| ==> Quiet(s.log[x]))
      && (w.answer.Some? ==>
            w.redeem < w.answer.value.at < |s.log| && s.log[w.answer.value.at] == Answered(w.id, w.answer.value.accept))
  }

  /** Only the waiting device's own entry carries the waiting handler's ticket. */
  predicate TicketsUnique(s: System) {
    && (forall id :: id in s.core.pending ==> s.core.pending[id] < s.nextTicket)
    && (s.waiting.Awaiting? ==>
          && s.waiting.ticket < s.nextTicket
          && (forall id :: id in s.core.pending && s.core.pending[id] == s.waiting.ticket ==> id == s.waiting.id)
          && (s.waiting.answer.None? ==>
                s.waiting.id in s.core.pending && s.core.pending[s.waiting.id] == s.waiting.ticket))
  }

  function Retrusted(trust: set<DeviceId>, f: Fact): set<DeviceId> {
    match f
    case Pinned(id, _, _) => trust + {id}
    case Unpaired(id) => trust - {id}
    case _ => trust
  }

  /** The pins a history leaves behind. */
  function TrustOf(startup: set<DeviceId>, log: seq<Fact>): set<DeviceId> {
    if log == [] then startup else Retrusted(TrustOf(startup, log[..|log| - 1]), log[|log| - 1])
  }

  datatype Kind = Issue | Redemption | Pin

  predicate Is(f: Fact, k: Kind) {
    match k
    case Issue => f.Issued?
    case Redemption => f.Redeemed?
    case Pin => f.Pinned?
  }

  function Count(log: seq<Fact>, k: Kind): nat {
    if log == [] then 0 else Count(log[..|log| - 1], k) + if Is(log[|log| - 1], k) then 1 else 0
  }

  /** Every redemption used up an issue, every pin a redemption. */
  predicate Budgeted(s: System) {
    && Count(s.log, Pin) + (if s.waiting.Awaiting? then 1 else 0) <= Count(s.log, Redemption)
    && Count(s.log, Redemption) + (if s.core.token.Some? && !s.core.token.value.redeemed then 1 else 0) <= Count(s.log, Issue)
  }

  predicate Inv(s: System, startup: set<DeviceId>) {
    && WindowMatches(s) && TokenLogged(s) && RedemptionsJustified(s.log) && PinsJustified(s.log)
    && WaitJustified(s) && TicketsUnique(s) && Budgeted(s) && s.core.paired == TrustOf(startup, s.log)
  }

  /** One more fact leaves the older ones as justified as they were. */
  lemma Grown(log: seq<Fact>, f: Fact, startup: set<DeviceId>)
    ensures var log' := log + [f];
            && (forall k :: Count(log', k) == Count(log, k) + if Is(f, k) then 1 else 0)
            && (RedemptionsJustified(log) && !f.Redeemed? ==> RedemptionsJustified(log'))
            && (PinsJustified(log) && !f.Pinned? ==> PinsJustified(log'))
            && TrustOf(startup, log') == Retrusted(TrustOf(startup, log), f)
  {
    var log' := log + [f];
    assert log'[..|log|] == log;
    if PinsJustified(log) && !f.Pinned? {
      forall i | 0 <= i < |log'| && log'[i].Pinned?
        ensures PinJustified(log', i)
      {
        assert PinJustified(log, i);
      }
    }
    if RedemptionsJustified(log) && !f.Redeemed? {
      forall k | 0 <= k < |log'| && log'[k].Redeemed?
        ensures RedemptionJustified(log', k)
      {
        assert RedemptionJustified(log, k);
      }
    }
  }

  lemma StartKeeps(s: System, startup: set<DeviceId>, random: TokenBytes)
    requires Inv(s, startup)
    ensures Inv(Apply(s, StartPairing(random)), startup)
  {
    var s' := Apply(s, StartPairing(random));
    Grown(s.log, Issued(random, s.now), startup);
    forall k | 0 <= k < |s'.log| && s'.log[k].Redeemed?
      ensures s'.log[k].issue != s'.issue
    {
      assert RedemptionJustified(s.log, k);
    }
  }

  lemma ConfirmKeeps(s: System, startup: set<DeviceId>, id: DeviceId, accept: bool)
    requires Inv(s, startup)
    ensures Inv(Confirmed(s, id, accept), startup)
  {
    if Delivered(s, id) {
      Grown(s.log, Answered(id, accept), startup);
    }
  }

  lemma UnpairKeeps(s: System, startup: set<DeviceId>, id: DeviceId)
    requires Inv(s, startup)
    ensures Inv(Apply(s, Unpair(id)), startup)
  {
    Grown(s.log, Unpaired(id), startup);
  }

  /** The pin of an accepted device is the newest fact and a justified one. */
  lemma PinFollowsWait(s: System)
    requires WaitJustified(s) && PinsJustified(s.log)
    requires s.waiting.Awaiting? && s.waiting.answer.Some? && s.waiting.answer.value.accept
    ensures PinsJustified(s.log + [Pinned(s.waiting.id, s.waiting.redeem, s.waiting.answer.value.at)])
  {
    var log' := s.log + [Pinned(s.waiting.id, s.waiting.redeem, s.waiting.answer.value.at)];
    forall i | 0 <= i < |log'| && log'[i].Pinned?
      ensures PinJustified(log', i)
    {
      assert i < |s.log| ==> PinJustified(s.log, i);
    }
  }

  /** The token's own entry and the redemptions against it stay as they were. */
  lemma TokenStaysLogged(s: System, s': System, f: Fact)
    requires TokenLogged(s) && !f.Redeemed? && s'.log == s.log + [f]
    requires s'.core.token == s.core.token && s'.issue == s.issue && s'.now == s.now
    ensures TokenLogged(s')
  {
  }

  /** The state after a pin, as far as pairing goes. */
  lemma PinKeeps(s: System, s': System, startup: set<DeviceId>)
    requires Inv(s, startup)
    requires s.waiting.Awaiting? && s.waiting.answer.Some? && s.waiting.answer.value.accept
    requires s'.log == s.log + [Pinned(s.waiting.id, s.waiting.redeem, s.waiting.answer.value.at)]
    requires s'.waiting.Idle? && s'.issue == s.issue && s'.now == s.now && s'.nextTicket == s.nextTicket
    requires s'.core.window == None && s'.core.token == s.core.token && s'.core.pending == s.core.pending
    requires s'.core.paired == s.core.paired + {s.waiting.id}
    ensures Inv(s', startup)
  {
    var f := Pinned(s.waiting.id, s.waiting.redeem, s.waiting.answer.value.at);
    PinFollowsWait(s);
    Grown(s.log, f, startup);
    TokenStaysLogged(s, s', f);
  }

  lemma ResumeKeeps(s: System, startup: set<DeviceId>)
    requires Inv(s, startup) && s.waiting.Awaiting?
    ensures Inv(Resumed(s), startup)
  {
    if s.waiting.answer.Some? && s.waiting.answer.value.accept {
      PinKeeps(s, Resumed(s), startup);
    } else {
      assert s.log + [] == s.log;
    }
  }

  /** Steps that touch neither the log nor the pairing state. */
  lemma UnloggedKeeps(s: System, s': System, startup: set<DeviceId>)
    requires Inv(s, startup) && s'.now >= s.now
    requires s'.log == s.log && s'.waiting == s.waiting && s'.nextTicket == s.nextTicket && s'.issue == s.issue
    requires s'.core.window == s.core.window && s'.core.token == s.core.token
    requires s'.core.pending == s.core.pending && s'.core.paired == s.core.paired
    ensures Inv(s', startup)
  {
  }

  /** The state after a successful redemption, as far as pairing goes. */
  lemma RedeemKeeps(s: System, s': System, startup: set<DeviceId>, id: DeviceId, token: TokenBytes)
    requires Inv(s, startup) && s.waiting.Idle? && s.core.token.Some?
    requires Present(s.core.token.value, token, s.now).1.None?
    requires s'.log == s.log + [Redeemed(id, token, s.now, s.issue)]
    requires s'.waiting.Awaiting? && s'.waiting.id == id && s'.waiting.redeem == |s.log| && s'.waiting.answer.None?
    requires s'.waiting.deadline == s.now + CONFIRMATION_WAIT
    requires s'.waiting.ticket == s.nextTicket && s'.nextTicket == s.nextTicket + 1
    requires s'.issue == s.issue && s'.now == s.now && s'.core.window == s.core.window && s'.core.paired == s.core.paired
    requires s'.core.token == Some(Present(s.core.token.value, token, s.now).0)
    requires s'.core.pending == s.core.pending[id := s.nextTicket]
    ensures Inv(s', startup)
  {
    Grown(s.log, Redeemed(id, token, s.now, s.issue), startup);
    assert RedemptionJustified(s'.log, |s.log|);
    forall k | 0 <= k < |s'.log| && s'.log[k].Redeemed?
      ensures RedemptionJustified(s'.log, k)
    {
      assert k < |s.log| ==> RedemptionJustified(s.log, k);
    }
  }

  lemma GreetKeeps(s: System, startup: set<DeviceId>)
    requires Inv(s, startup) && s.waiting.Idle? && s.queue != []
    requires s.queue[0].FromSession? && s.queue[0].event.PeerHandshake?
    ensures Inv(Handled(s), startup)
  {
    var s' := Handled(s);
    if s'.waiting.Awaiting? {
      RedeemKeeps(s, s', startup, s.queue[0].event.deviceId, s.queue[0].event.pairingToken.value);
    } else {
      UnloggedKeeps(s, s', startup);
    }
  }

  lemma StepKeepsInv(s: System, startup: set<DeviceId>, step: Step)
    requires Inv(s, startup) && CanStep(s, step)
    ensures Inv(Apply(s, step), startup)
  {
    match step {
      case StartPairing(random) => StartKeeps(s, startup, random);
      case ConfirmPairing(id, accept) => ConfirmKeeps(s, startup, id, accept);
      case Unpair(id) => UnpairKeeps(s, startup, id);
      case Resume => ResumeKeeps(s, startup);
      case Handle =>
        if s.queue[0].FromSession? && s.queue[0].event.PeerHandshake? {
          GreetKeeps(s, startup);
        } else {
          UnloggedKeeps(s, Handled(s), startup);
        }
      case _ => UnloggedKeeps(s, Apply(s, step), startup);
    }
  }

  lemma {:induction false} RunKeepsInv(s: System, startup: set<DeviceId>, steps: seq<Step>)
    requires Inv(s, startup) && Legal(s, steps)
    ensures Inv(After(s, steps), startup)
    decreases |steps|
  {
    if steps != [] {
      StepKeepsInv(s, startup, steps[0]);
      RunKeepsInv(Apply(s, steps[0]), startup, steps[1..]);
    }
  }

  /** Every trusted id was loaded at startup or pinned in this run. */
  lemma {:induction false} TrustedMeansPinned(startup: set<DeviceId>, log: seq<Fact>, id: DeviceId)
    requires id in TrustOf(startup, log) && id !in startup
    ensures exists i :: 0 <= i < |log| && log[i].Pinned? && log[i].id == id
  {
    var init, last := log[..|log| - 1], log[|log| - 1];
    if id in TrustOf(startup, init) {
      TrustedMeansPinned(startup, init, id);
      var i :| 0 <= i < |init| && init[i].Pinned? && init[i].id == id;
      assert log[i] == init[i];
    } else {
      assert last.Pinned? && last.id == id;
    }
  }

  /** Where a pin comes from, in one statement: an issued token; its bytes
      presented by that device less than the token's lifetime later, the only
      time that token was ever redeemed; and a yes answered for that device
      while it was the one waiting. */
  ghost predicate Earned(log: seq<Fact>, id: DeviceId) {
    exists j, k, l, i ::
      && 0 <= j < k < l < i < |log|
      && log[j].Issued? && log[k].Redeemed?
      && log[k] == Redeemed(id, log[j].bytes, log[k].when, j)
      && log[j].at <= log[k].when < log[j].at + TOKEN_TTL
      && (forall k' :: 0 <= k' < |log| && log[k'].Redeemed? && log[k'].issue == j ==> k' == k)
      && log[l] == Answered(id, true)
      && log[i] == Pinned(id, k, l)
      && (forall x :: k < x < i ==> Quiet(log[x]))
  }

  lemma PinEarned(log: seq<Fact>, i: nat)
    requires RedemptionsJustified(log) && PinsJustified(log) && i < |log| && log[i].Pinned?
    ensures Earned(log, log[i].id)
  {
    assert PinJustified(log, i);
    var k := log[i].redeem;
    assert RedemptionJustified(log, k);
    var j := log[k].issue;
    assert log[i] == Pinned(log[i].id, k, log[i].answer);
    assert log[k] == Redeemed(log[i].id, log[j].bytes, log[k].when, j);
  }

  /** In every run of the daemon, every trusted device was in the persisted
      list at startup or earned its pin; pins never outnumber redemptions, nor
      those the calls that start a pairing. */
  lemma PinProvenance(ds: seq<PersistedDevice>, now: Instant, steps: seq<Step>, id: DeviceId)
    requires Legal(Init(ds, now), steps)
    ensures var s := After(Init(ds, now), steps);
            && (id in s.core.paired ==> id in IdSet(ds) || Earned(s.log, id))
            && Count(s.log, Pin) <= Count(s.log, Redemption) <= Count(s.log, Issue) == Starts(steps)
  {
    var s := After(Init(ds, now), steps);
    RunKeepsInv(Init(ds, now), IdSet(ds), steps);
    IssuesAreCalls(Init(ds, now), steps);
    if id in s.core.paired && id !in IdSet(ds) {
      TrustedMeansPinned(IdSet(ds), s.log, id);
      var i :| 0 <= i < |s.log| && s.log[i].Pinned? && s.log[i].id == id;
      PinEarned(s.log, i);
    }
  }

  /** The log records one issue per call that starts a pairing. */
  lemma {:induction false} IssuesAreCalls(s: System, steps: seq<Step>)
    requires Legal(s, steps)
    ensures Count(After(s, steps).log, Issue) == Count(s.log, Issue) + Starts(steps)
    decreases |steps|
  {
    if steps != [] {
      var s' := Apply(s, steps[0]);
      if s'.log != s.log {
        var f := s'.log[|s.log|];
        assert s'.log == s.log + [f];
        Grown(s.log, f, {});
      }
      IssuesAreCalls(s', steps[1..]);
    }
  }

  function Starts(steps: seq<Step>): nat {
    if steps == [] then 0 else (if steps[0].StartPairing? then 1 else 0) + Starts(steps[1..])
  }

  /** An answer is taken exactly when it names the device being waited for,
      which has not been answered; any other changes only the map of pending
      channels: no wait, no pin, no token, no table. */
  lemma AnswersReachOnlyTheirWait(ds: seq<PersistedDevice>, now: Instant, steps: seq<Step>, id: DeviceId, accept: bool)
    requires Legal(Init(ds, now), steps)
    ensures var s := After(Init(ds, now), steps);
            var s' := Apply(s, ConfirmPairing(id, accept));
            var taken := s.waiting.Awaiting? && s.waiting.answer.None? && s.waiting.id == id;
            && (taken ==> s'.waiting.answer.Some? && s'.waiting.answer.value.accept == accept)
            && (!taken ==> s' == s.(core := s.core.(pending := s'.core.pending)))
            && id !in s'.core.pending
            && (forall other :: other != id ==>
                  (other in s'.core.pending <==> other in s.core.pending)
                  && (other in s.core.pending ==> s'.core.pending[other] == s.core.pending[other]))
  {
    RunKeepsInv(Init(ds, now), IdSet(ds), steps);
  }

  /** The stored window deadline is the current token's expiry, so whenever
      the window is open the slot holds an unexpired token. */
  lemma OpenWindowHasToken(ds: seq<PersistedDevice>, now: Instant, steps: seq<Step>)
    requires Legal(Init(ds, now), steps)
    ensures var s := After(Init(ds, now), steps);
            && (s.core.window.Some? ==>
                  s.core.token.Some? && s.core.window.value == s.core.token.value.issuedAt + TOKEN_TTL)
            && (WindowOpen(s.core.window, s.now) ==> !IsExpired(s.core.token.value, s.now))
  {
    RunKeepsInv(Init(ds, now), IdSet(ds), steps);
  }
}
