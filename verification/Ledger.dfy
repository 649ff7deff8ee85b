/// What the pairing history says about the token slot and the window, exactly:
/// whom TLS lets in, and whose greeting makes the daemon ask the human.
module Ledger {
  import opened Protocol
  import opened DaemonRun
  import opened Pairing
  import opened Devices
  import opened Provenance
  import C = Connection
  import D = Daemon
  import S = Session

  predicate PinnedAfter(log: seq<Fact>, i: nat) {
    exists k :: i < k < |log| && log[k].Pinned?
  }

  predicate RedeemedEver(log: seq<Fact>, i: nat) {
    exists k :: 0 <= k < |log| && log[k].Redeemed? && log[k].issue == i
  }

  /** The slot holds the token issued last, marked redeemed only if it was. */
  predicate SlotLogged(s: System) {
    && (forall i :: 0 <= i < |s.log| && s.log[i].Issued? ==> s.core.token.Some? && i <= s.issue && s.log[i].at <= s.now)
    && (s.core.token.Some? ==>
          && s.issue < |s.log|
          && s.log[s.issue] == Issued(s.core.token.value.bytes, s.core.token.value.issuedAt)
          && (s.core.token.value.redeemed ==> RedeemedEver(s.log, s.issue)))
  }

  /** The window is that of the last issue, unless a pin has shut it since. */
  predicate WindowLogged(s: System) {
    && (s.core.window.Some? ==> forall k :: s.issue < k < |s.log| ==> !s.log[k].Pinned?)
    && (forall i :: 0 <= i < |s.log| && s.log[i].Issued? ==>
          PinnedAfter(s.log, i) || (s.core.window.Some? && s.log[i].at + TOKEN_TTL <= s.core.window.value))
  }

  predicate Exact(s: System) { SlotLogged(s) && WindowLogged(s) }

  lemma StillAfter(log: seq<Fact>, f: Fact)
    ensures forall i: nat :: PinnedAfter(log, i) ==> PinnedAfter(log + [f], i)
    ensures forall i: nat :: RedeemedEver(log, i) ==> RedeemedEver(log + [f], i)
    ensures f.Pinned? ==> forall i :: 0 <= i < |log| ==> PinnedAfter(log + [f], i)
    ensures f.Redeemed? ==> RedeemedEver(log + [f], f.issue)
  {
    var log' := log + [f];
    assert log'[|log|] == f;
    forall i: nat | PinnedAfter(log, i) ensures PinnedAfter(log', i) {
      var k :| i < k < |log| && log[k].Pinned?;
      assert log'[k].Pinned?;
    }
    forall i: nat | RedeemedEver(log, i) ensures RedeemedEver(log', i) {
      var k :| 0 <= k < |log| && log[k].Redeemed? && log[k].issue == i;
      assert log'[k] == log[k];
    }
  }

  /** A fact that is no issue: the token is as it was or marked redeemed. */
  lemma FactKeepsExact(s: System, s': System, f: Fact)
    requires Exact(s) && !f.Issued? && s'.log == s.log + [f] && s'.issue == s.issue && s'.now == s.now
    requires s'.core.token == s.core.token
             || (f.Redeemed? && f.issue == s.issue && s.core.token.Some?
                 && s'.core.token == Some(s.core.token.value.(redeemed := true)))
    requires s'.core.window == if f.Pinned? then None else s.core.window
    ensures Exact(s')
  {
    StillAfter(s.log, f);
  }

  lemma IssueKeepsExact(s: System, s': System, bytes: TokenBytes)
    requires Exact(s) && s'.log == s.log + [Issued(bytes, s.now)] && s'.issue == |s.log| && s'.now == s.now
    requires s'.core.token == Some(Token(bytes, s.now, false)) && s'.core.window == Some(s.now + TOKEN_TTL)
    ensures Exact(s')
  {
    StillAfter(s.log, Issued(bytes, s.now));
  }

  lemma UnloggedKeepsExact(s: System, s': System)
    requires Exact(s) && s'.log == s.log && s'.issue == s.issue && s'.now >= s.now
    requires s'.core.token == s.core.token && s'.core.window == s.core.window
    ensures Exact(s')
  {
  }

  /** What a greeting does to token, window and tables, by the slot. */
  lemma GreetedAsks(c: D.Core, r: D.Remote, id: DeviceId, name: Text, token: Option<TokenBytes>, now: Instant, ticket: nat)
    ensures var (c', asks) := D.Greeted(c, r, id, name, token, now, ticket);
            && (asks <==> id !in c.paired && c.token.Some? && token == Some(c.token.value.bytes)
                          && !c.token.value.redeemed && Since(now, c.token.value.issuedAt) < TOKEN_TTL)
            && c'.token == (if asks then Some(c.token.value.(redeemed := true)) else c.token)
            && c'.window == c.window && c'.paired == c.paired
            && (id !in c.paired ==> c'.connectedDevices == c.connectedDevices)
  {
  }

  lemma HandleKeepsExact(s: System)
    requires Exact(s) && CanStep(s, Handle)
    ensures Exact(Handled(s))
  {
    if s.queue[0].FromSession? && s.queue[0].event.PeerHandshake? {
      var e := s.queue[0].event;
      GreetedAsks(s.core, s.queue[0].remote, e.deviceId, e.name, e.pairingToken, s.now, s.nextTicket);
      if Handled(s).waiting.Awaiting? {
        FactKeepsExact(s, Handled(s), Redeemed(e.deviceId, e.pairingToken.value, s.now, s.issue));
      } else {
        UnloggedKeepsExact(s, Handled(s));
      }
    } else {
      UnloggedKeepsExact(s, Handled(s));
    }
  }

  lemma StepKeepsExact(s: System, step: Step)
    requires Exact(s) && CanStep(s, step)
    ensures Exact(Apply(s, step))
  {
    var s' := Apply(s, step);
    match step {
      case StartPairing(random) => IssueKeepsExact(s, s', random);
      case ConfirmPairing(id, accept) =>
        if Delivered(s, id) {
          FactKeepsExact(s, s', Answered(id, accept));
        }
      case Unpair(id) => FactKeepsExact(s, s', Unpaired(id));
      case Resume =>
        var w := s.waiting;
        if w.answer.Some? && w.answer.value.accept {
          FactKeepsExact(s, s', Pinned(w.id, w.redeem, w.answer.value.at));
        } else {
          assert s.log + [] == s.log;
        }
      case Handle => HandleKeepsExact(s);
      case _ => UnloggedKeepsExact(s, s');
    }
  }

  lemma {:induction false} RunKeepsExact(s: System, steps: seq<Step>)
    requires Exact(s) && Legal(s, steps)
    ensures Exact(After(s, steps))
    decreases |steps|
  {
    if steps != [] {
      StepKeepsExact(s, steps[0]);
      RunKeepsExact(Apply(s, steps[0]), steps[1..]);
    }
  }

  // ---- Whom TLS lets in ----

  /** A token was issued less than its lifetime ago, and nobody pinned since. */
  predicate PairingOpen(log: seq<Fact>, now: Instant) {
    exists i :: 0 <= i < |log| && log[i].Issued? && now < log[i].at + TOKEN_TTL && !PinnedAfter(log, i)
  }

  /** After any run, a connection from a new remote can be accepted exactly when
      its certificate's id is trusted by the history (loaded or pinned, and not
      unpaired since), or pairing is open. */
  lemma AdmittedExactlyWhen(ds: seq<PersistedDevice>, now: Instant, steps: seq<Step>, remote: D.Remote, peer: DeviceId,
                            local: C.Identity, interval: Duration, startError: Option<string>)
    requires Legal(Init(ds, now), steps) && remote !in After(Init(ds, now), steps).live
    ensures var s := After(Init(ds, now), steps);
            CanStep(s, Accept(remote, peer, local, interval, startError)) <==>
            peer in TrustOf(IdSet(ds), s.log) || PairingOpen(s.log, s.now)
  {
    RunKeepsInv(Init(ds, now), IdSet(ds), steps);
    RunKeepsExact(Init(ds, now), steps);
    var s := After(Init(ds, now), steps);
    if s.core.window.Some? && s.now < s.core.window.value {
      assert s.log[s.issue].Issued? && !PinnedAfter(s.log, s.issue);
    }
  }

  /** Once pairing is over, because the last token has run out or a device has
      been pinned, a stranger is turned away. */
  lemma StrangerRefused(ds: seq<PersistedDevice>, now: Instant, steps: seq<Step>, remote: D.Remote, peer: DeviceId,
                        local: C.Identity, interval: Duration, startError: Option<string>)
    requires Legal(Init(ds, now), steps)
    requires var s := After(Init(ds, now), steps);
             && peer !in TrustOf(IdSet(ds), s.log)
             && forall i :: 0 <= i < |s.log| && s.log[i].Issued? ==>
                  s.log[i].at + TOKEN_TTL <= s.now || exists k :: i < k < |s.log| && s.log[k].Pinned?
    ensures !CanStep(After(Init(ds, now), steps), Accept(remote, peer, local, interval, startError))
  {
    var s := After(Init(ds, now), steps);
    if remote !in s.live {
      AdmittedExactlyWhen(ds, now, steps, remote, peer, local, interval, startError);
      forall i | 0 <= i < |s.log| && s.log[i].Issued? && s.now < s.log[i].at + TOKEN_TTL
        ensures PinnedAfter(s.log, i)
      {
      }
    }
  }

  // ---- Whose greeting makes the daemon ask ----

  predicate LastIssue(log: seq<Fact>, i: nat) {
    i < |log| && log[i].Issued? && forall k :: i < k < |log| ==> !log[k].Issued?
  }

  /** The bytes are those of the last token issued, which is in its lifetime and
      has not been redeemed. */
  ghost predicate Redeems(log: seq<Fact>, token: Option<TokenBytes>, now: Instant) {
    exists i: nat :: LastIssue(log, i) && token == Some(log[i].bytes) && now < log[i].at + TOKEN_TTL && !RedeemedEver(log, i)
  }

  /** In every run: the greeting of a device that is not trusted leaves the
      handler waiting for the human's word on that device, its token used up,
      exactly when it redeems the last token; otherwise token, trust, tables of
      connected devices and history stay as they were. */
  lemma AsksExactlyWhen(ds: seq<PersistedDevice>, now: Instant, steps: seq<Step>)
    requires Legal(Init(ds, now), steps)
    requires var s := After(Init(ds, now), steps);
             && CanStep(s, Handle) && s.queue[0].FromSession? && s.queue[0].event.PeerHandshake?
             && s.queue[0].event.deviceId !in TrustOf(IdSet(ds), s.log)
    ensures var s := After(Init(ds, now), steps);
            var (e, s') := (s.queue[0].event, Apply(s, Handle));
            && (s'.waiting.Awaiting? <==> Redeems(s.log, e.pairingToken, s.now))
            && (s'.waiting.Awaiting? ==>
                  && s'.waiting.id == e.deviceId && s'.waiting.remote == s.queue[0].remote && s'.waiting.answer.None?
                  && LastIssue(s.log, s.issue)
                  && s'.log == s.log + [Redeemed(e.deviceId, e.pairingToken.value, s.now, s.issue)]
                  && s'.core.token.Some? && s'.core.token.value.redeemed)
            && (!s'.waiting.Awaiting? ==> s'.log == s.log && s'.core.token == s.core.token)
            && s'.core.paired == s.core.paired && s'.core.connectedDevices == s.core.connectedDevices
  {
    RunKeepsInv(Init(ds, now), IdSet(ds), steps);
    RunKeepsExact(Init(ds, now), steps);
    var s := After(Init(ds, now), steps);
    var e := s.queue[0].event;
    RedeemsIsSlot(s, e.pairingToken);
    GreetedAsks(s.core, s.queue[0].remote, e.deviceId, e.name, e.pairingToken, s.now, s.nextTicket);
  }

  lemma RedeemsIsSlot(s: System, token: Option<TokenBytes>)
    requires TokenLogged(s) && SlotLogged(s)
    ensures Redeems(s.log, token, s.now) <==>
            s.core.token.Some? && token == Some(s.core.token.value.bytes)
            && !s.core.token.value.redeemed && s.now < s.core.token.value.issuedAt + TOKEN_TTL
    ensures s.core.token.Some? ==> LastIssue(s.log, s.issue)
  {
    if s.core.token.Some? {
      assert LastIssue(s.log, s.issue);
      assert !s.core.token.value.redeemed <==> !RedeemedEver(s.log, s.issue);
    }
    if i: nat :| LastIssue(s.log, i) && token == Some(s.log[i].bytes) && s.now < s.log[i].at + TOKEN_TTL && !RedeemedEver(s.log, i) {
      assert i <= s.issue && LastIssue(s.log, s.issue);
    }
  }

  // ---- The wait ----

  /** Without a yes, resuming ends the wait and changes nothing else; and without
      any answer it takes 65 seconds from the redemption. */
  lemma OnlyAYesPins(ds: seq<PersistedDevice>, now: Instant, steps: seq<Step>)
    requires Legal(Init(ds, now), steps)
    requires var s := After(Init(ds, now), steps);
             CanStep(s, Resume) && !(s.waiting.answer.Some? && s.waiting.answer.value.accept)
    ensures var s := After(Init(ds, now), steps);
            && Apply(s, Resume) == s.(waiting := Idle)
            && (s.waiting.answer.None? ==>
                  && s.waiting.redeem < |s.log| && s.log[s.waiting.redeem].Redeemed?
                  && s.now >= s.log[s.waiting.redeem].when + 65 * SECOND)
  {
    RunKeepsInv(Init(ds, now), IdSet(ds), steps);
    var s := After(Init(ds, now), steps);
    assert s.log + [] == s.log;
  }
}
