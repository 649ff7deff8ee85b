/// The single-use pairing token and the store of pinned devices.
module Pairing {
  import opened Protocol

  const TOKEN_TTL: Duration := 60 * SECOND

  datatype RedeemError = Mismatch | AlreadyRedeemed | Expired

  datatype Token = Token(bytes: TokenBytes, issuedAt: Instant, redeemed: bool)

  predicate IsExpired(t: Token, now: Instant) {
    Since(now, t.issuedAt) >= TOKEN_TTL
  }

  function Present(t: Token, presented: TokenBytes, now: Instant): (Token, Option<RedeemError>) {
    if t.redeemed then (t, Some(AlreadyRedeemed))
    else if IsExpired(t, now) then (t, Some(Expired))
    else if presented != t.bytes then (t, Some(Mismatch))
    else (t.(redeemed := true), None)
  }

  /** Whether some presentation at `now` would still be accepted. */
  predicate Redeemable(t: Token, now: Instant) {
    !t.redeemed && Since(now, t.issuedAt) < TOKEN_TTL
  }

  class PairingToken {
    const bytes: TokenBytes
    const issuedAt: Instant
    var redeemed: bool

    ghost function View(): Token
      reads this
    {
      Token(bytes, issuedAt, redeemed)
    }

    constructor (random: TokenBytes, now: Instant)
      ensures View() == Token(random, now, false)
    {
      bytes := random;
      issuedAt := now;
      redeemed := false;
    }

    method Redeem(presented: TokenBytes, now: Instant) returns (error: Option<RedeemError>)
      modifies this
      ensures (View(), error) == Present(old(View()), presented, now)
      ensures error.None? <==> !old(redeemed) && now < issuedAt + TOKEN_TTL && presented == bytes
      ensures error == Some(AlreadyRedeemed) <==> old(redeemed)
      ensures error == Some(Expired) <==> !old(redeemed) && now >= issuedAt + TOKEN_TTL
      ensures redeemed == (old(redeemed) || error.None?)
    {
      if redeemed {
        return Some(AlreadyRedeemed);
      }
      if Since(now, issuedAt) >= TOKEN_TTL {
        return Some(Expired);
      }
      if presented != bytes {
        return Some(Mismatch);
      }
      redeemed := true;
      return None;
    }
  }

  function RedeemAll(t: Token, tries: seq<(TokenBytes, Instant)>): (Token, nat)
    decreases |tries|
  {
    if tries == [] then (t, 0)
    else
      var (t', error) := Present(t, tries[0].0, tries[0].1);
      var (t'', wins) := RedeemAll(t', tries[1..]);
      (t'', wins + if error.None? then 1 else 0)
  }

  /** However often and whenever it is presented, a token is accepted at most
      once, and at all exactly when some presentation carries its bytes in time. */
  lemma {:induction false} RedeemedAtMostOnce(t: Token, tries: seq<(TokenBytes, Instant)>)
    ensures RedeemAll(t, tries).1 <= if t.redeemed then 0 else 1
    ensures RedeemAll(t, tries).1 == 1 <==>
            !t.redeemed && exists i :: 0 <= i < |tries| && tries[i].0 == t.bytes && !IsExpired(t, tries[i].1)
    decreases |tries|
  {
    if tries != [] {
      var (t', error) := Present(t, tries[0].0, tries[0].1);
      RedeemedAtMostOnce(t', tries[1..]);
      assert forall i :: 0 <= i < |tries[1..]| ==> tries[1..][i] == tries[i + 1];
      if !t.redeemed && error.Some? {
        if i :| 0 <= i < |tries| && tries[i].0 == t.bytes && !IsExpired(t, tries[i].1) {
          assert i > 0 && tries[1..][i - 1] == tries[i];
        }
      }
    }
  }

  datatype Trust = Trust(paired: set<DeviceId>, deadline: Option<Instant>)

  predicate WindowOpen(deadline: Option<Instant>, now: Instant) {
    deadline.Some? && now < deadline.value
  }

  /** The verifier's decision on a peer certificate. */
  predicate Admits(t: Trust, id: DeviceId, now: Instant) {
    id in t.paired || WindowOpen(t.deadline, now)
  }

  class TrustStore {
    var paired: set<DeviceId>
    var pairingDeadline: Option<Instant>

    ghost function View(): Trust
      reads this
    {
      Trust(paired, pairingDeadline)
    }

    constructor (ids: seq<DeviceId>)
      ensures View() == Trust((set id | id in ids), None)
    {
      paired := set id | id in ids;
      pairingDeadline := None;
    }

    method Pin(id: DeviceId)
      modifies this
      ensures View() == old(View()).(paired := old(paired) + {id})
    {
      paired := paired + {id};
    }

    method Unpair(id: DeviceId)
      modifies this
      ensures View() == old(View()).(paired := old(paired) - {id})
    {
      paired := paired - {id};
    }

    method OpenPairingWindow(deadline: Instant)
      modifies this
      ensures View() == old(View()).(deadline := Some(deadline))
    {
      pairingDeadline := Some(deadline);
    }

    method ClosePairingWindow()
      modifies this
      ensures View() == old(View()).(deadline := None)
    {
      pairingDeadline := None;
    }

    method Check(id: DeviceId, now: Instant) returns (admitted: bool)
      ensures admitted == Admits(View(), id, now)
      ensures admitted <==> id in paired || (pairingDeadline.Some? && now < pairingDeadline.value)
    {
      var open := match pairingDeadline case Some(d) => now < d case None => false;
      admitted := id in paired || open;
    }
  }
}
