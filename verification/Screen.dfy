/// The terminal UI's pairing screen and the daemon's one token slot, when this
/// UI is the only caller of StartPairing.
module Screen {
  import opened Protocol
  import opened Pairing

  /** Whether the code on screen has gone stale and is to be replaced. */
  predicate ShouldRegenerate(issuedAt: Instant, now: Instant, confirmationOpen: bool) {
    !confirmationOpen && Since(now, issuedAt) >= TOKEN_TTL
  }

  datatype Key = Yes | No | Esc | PairKey | QuitKey | OtherKey

  /** A StartPairing round trip: when the daemon issued a token (if the call
      reached it), when the reply was dealt with, and whether a code is shown. */
  datatype Call = Call(issuedAt: Option<Instant>, shownAt: Instant, ok: bool)

  /** What the screen shows: when the code on it was stamped, and whether a
      confirmation is waiting for the human. */
  datatype View = View(display: Option<Instant>, confirmation: bool)

  predicate CallsOnKey(v: View, key: Key) { !v.confirmation && key == PairKey }

  predicate CallsOnRefresh(v: View, seen: Instant) {
    v.display.Some? && ShouldRegenerate(v.display.value, seen, v.confirmation)
  }

  function AfterKey(v: View, key: Key, call: Call): View {
    if v.confirmation then
      match key
      case Yes => View(None, false)
      case No => v.(confirmation := false)
      case Esc => v.(confirmation := false)
      case _ => v
    else if key == Esc then v.(display := None)
    else if key == PairKey && call.ok then v.(display := Some(call.shownAt))
    else v
  }

  function AfterRefresh(v: View, seen: Instant, call: Call): View {
    if !CallsOnRefresh(v, seen) then v
    else v.(display := if call.ok then Some(call.shownAt) else None)
  }

  class App {
    var display: Option<Instant>
    var confirmation: bool

    ghost function Shown(): View
      reads this
    {
      View(display, confirmation)
    }

    /** `call` is how StartPairing goes if the key makes it; `running` is false
        when the key ends the program. */
    method HandleKey(key: Key, call: Call) returns (running: bool)
      modifies this
      ensures Shown() == AfterKey(old(Shown()), key, call)
      ensures old(confirmation) ==>
                && confirmation == !(key == Yes || key == No || key == Esc)
                && display == (if key == Yes then None else old(display))
      ensures !old(confirmation) ==>
                && !confirmation
                && display == (if key == Esc then None
                               else if key == PairKey && call.ok then Some(call.shownAt) else old(display))
      ensures running <==> old(confirmation) || (key != QuitKey && (key != Esc || old(display).Some?))
    {
      if confirmation {
        match key {
          case Yes =>
            confirmation := false;
            display := None;
          case No =>
            confirmation := false;
          case Esc =>
            confirmation := false;
          case _ =>
        }
        return true;
      }
      if display.Some? && key == Esc {
        display := None;
        return true;
      }
      match key {
        case Esc =>
          return false;
        case QuitKey =>
          return false;
        case PairKey =>
          if call.ok {
            display := Some(call.shownAt);
          }
        case _ =>
      }
      return true;
    }

    method OnRefresh(seen: Instant, call: Call)
      modifies this
      ensures Shown() == AfterRefresh(old(Shown()), seen, call)
      ensures confirmation == old(confirmation)
      ensures old(display).Some? && !confirmation && seen >= old(display).value + TOKEN_TTL ==>
                display == if call.ok then Some(call.shownAt) else None
      ensures old(display).None? || confirmation || seen < old(display).value + TOKEN_TTL ==> display == old(display)
    {
      var stale := display.Some? && ShouldRegenerate(display.value, seen, confirmation);
      if stale {
        display := if call.ok then Some(call.shownAt) else None;
      }
    }
  }

  // ---- The screen and the daemon's slot together ----

  /** `replacedLive` records that an automatic refresh has thrown away a token
      that could still be redeemed. */
  datatype Desk = Desk(view: View, token: Option<Token>, now: Instant, replacedLive: bool)

  datatype Step =
    | Advance(to: Instant)
    | Press(key: Key, random: TokenBytes, call: Call)
    | Refresh(seen: Instant, random: TokenBytes, call: Call)
    | PairingRequested
    | TryRedeem(presented: TokenBytes)

  const BLANK := Desk(View(None, false), None, 0, false)

  predicate Timed(now: Instant, call: Call) {
    && now <= call.shownAt
    && (call.issuedAt.Some? ==> now <= call.issuedAt.value <= call.shownAt)
    && (call.ok ==> call.issuedAt.Some?)
  }

  predicate CanStep(d: Desk, step: Step) {
    match step
    case Advance(to) => d.now <= to
    case Press(_, _, call) => Timed(d.now, call)
    case Refresh(seen, _, call) => seen <= d.now && Timed(d.now, call)
    case _ => true
  }

  function Slot(d: Desk, random: TokenBytes, call: Call): Option<Token> {
    if call.issuedAt.Some? then Some(Token(random, call.issuedAt.value, false)) else d.token
  }

  function Apply(d: Desk, step: Step): Desk
    requires CanStep(d, step)
  {
    match step
    case Advance(to) => d.(now := to)
    case Press(key, random, call) =>
      var d' := d.(view := AfterKey(d.view, key, call));
      if CallsOnKey(d.view, key) then d'.(token := Slot(d, random, call), now := call.shownAt) else d'
    case Refresh(seen, random, call) =>
      if !CallsOnRefresh(d.view, seen) then d
      else
        Desk(AfterRefresh(d.view, seen, call), Slot(d, random, call), call.shownAt,
             d.replacedLive ||
             (call.issuedAt.Some? && d.token.Some? && Redeemable(d.token.value, call.issuedAt.value)))
    case PairingRequested => d.(view := d.view.(confirmation := true))
    case TryRedeem(presented) =>
      if d.token.None? then d else d.(token := Some(Present(d.token.value, presented, d.now).0))
  }

  predicate Legal(d: Desk, steps: seq<Step>)
    decreases |steps|
  {
    steps == [] || (CanStep(d, steps[0]) && Legal(Apply(d, steps[0]), steps[1..]))
  }

  function After(d: Desk, steps: seq<Step>): Desk
    requires Legal(d, steps)
    decreases |steps|
  {
    if steps == [] then d else After(Apply(d, steps[0]), steps[1..])
  }

  /** The token in the slot is no younger than the code on screen. */
  predicate DisplayCovers(d: Desk) {
    d.view.display.Some? && d.token.Some? ==> d.token.value.issuedAt <= d.view.display.value
  }

  /** A `p` press whose call reaches the daemon but shows no code, with an
      earlier code still up. */
  predicate Orphans(d: Desk, step: Step) {
    step.Press? && CallsOnKey(d.view, step.key) && d.view.display.Some? && step.call.issuedAt.Some? && !step.call.ok
  }

  predicate NeverOrphans(d: Desk, steps: seq<Step>)
    requires Legal(d, steps)
    decreases |steps|
  {
    steps == [] || (!Orphans(d, steps[0]) && NeverOrphans(Apply(d, steps[0]), steps[1..]))
  }

  lemma {:induction false} RefreshKeepsLiveTokens(d: Desk, steps: seq<Step>)
    requires DisplayCovers(d) && !d.replacedLive
    requires Legal(d, steps) && NeverOrphans(d, steps)
    ensures DisplayCovers(After(d, steps)) && !After(d, steps).replacedLive
    decreases |steps|
  {
    if steps != [] {
      RefreshKeepsLiveTokens(Apply(d, steps[0]), steps[1..]);
    }
  }

  predicate PressFree(steps: seq<Step>) {
    forall i :: 0 <= i < |steps| ==> !steps[i].Press?
  }

  /** Left alone, the screen will refresh a code older than a token that can
      then still be redeemed. */
  predicate Threatened(d: Desk) {
    && !d.view.confirmation && d.view.display.Some?
    && d.token.Some? && !d.token.value.redeemed
    && d.view.display.value < d.token.value.issuedAt && d.now < d.token.value.issuedAt + TOKEN_TTL
  }

  ghost predicate SafeUnlessPressed(d: Desk) {
    forall steps :: Legal(d, steps) && PressFree(steps) ==> !After(d, steps).replacedLive
  }

  lemma {:induction false} UnthreatenedStaysSafe(d: Desk, steps: seq<Step>)
    requires !Threatened(d) && !d.replacedLive && Legal(d, steps) && PressFree(steps)
    ensures !After(d, steps).replacedLive
    decreases |steps|
  {
    if steps != [] {
      assert !steps[0].Press?;
      assert forall i :: 0 <= i < |steps[1..]| ==> steps[1..][i] == steps[i + 1];
      UnthreatenedStaysSafe(Apply(d, steps[0]), steps[1..]);
    }
  }

  /** Waiting until the code on screen is stale and refreshing it. */
  function WaitAndRefresh(d: Desk, random: TokenBytes): seq<Step>
    requires d.view.display.Some?
  {
    var stale := d.view.display.value + TOKEN_TTL;
    var at := if d.now > stale then d.now else stale;
    [Advance(at), Refresh(at, random, Call(Some(at), at, true))]
  }

  lemma ThreatenedIsLost(d: Desk, random: TokenBytes)
    requires Threatened(d)
    ensures Legal(d, WaitAndRefresh(d, random)) && After(d, WaitAndRefresh(d, random)).replacedLive
  {
    var steps := WaitAndRefresh(d, random);
    var none: seq<Step> := [];
    var d1 := Apply(d, steps[0]);
    assert d1 == d.(now := d1.now) && CanStep(d1, steps[1]);
    var d2 := Apply(d1, steps[1]);
    assert d2.replacedLive;
    assert Legal(d2, none) && After(d2, none) == d2;
    var last := [steps[1]];
    assert last[1..] == none;
    assert Legal(d1, last) && After(d1, last) == d2;
    assert steps[1..] == last;
  }

  /** No continuation without a key press lets a refresh discard a redeemable
      token exactly when the screen is not threatened: it shows no code, or a
      confirmation, or the slot holds no token that is younger than the code,
      unredeemed and unexpired. */
  lemma RefreshIsSafeExactlyWhen(d: Desk, random: TokenBytes)
    requires !d.replacedLive
    ensures SafeUnlessPressed(d) <==> !Threatened(d)
  {
    if Threatened(d) {
      ThreatenedIsLost(d, random);
      assert PressFree(WaitAndRefresh(d, random));
    } else {
      forall steps | Legal(d, steps) && PressFree(steps)
        ensures !After(d, steps).replacedLive
      {
        UnthreatenedStaysSafe(d, steps);
      }
    }
  }

  /** From a screen whose code covers the token, the only step after which a
      refresh may discard a redeemable token is a `p` press that leaves an
      older code up over a token that has not run out meanwhile. */
  lemma OnlyOrphansThreaten(d: Desk, step: Step, random: TokenBytes)
    requires DisplayCovers(d) && !d.replacedLive && CanStep(d, step)
    ensures SafeUnlessPressed(Apply(d, step)) <==>
            !(Orphans(d, step) && d.view.display.value < step.call.issuedAt.value
              && step.call.shownAt < step.call.issuedAt.value + TOKEN_TTL)
  {
    RefreshIsSafeExactlyWhen(Apply(d, step), random);
  }

  const SHOWN := Call(Some(0), 0, true)
  const UNRENDERED := Call(Some(30 * SECOND), 30 * SECOND, false)
  const REFRESHED := Call(Some(60 * SECOND), 60 * SECOND, true)

  /** A code is shown at 0 s; at 30 s `p` is pressed, the daemon issues, but
      the code cannot be rendered, so the old one stays up; at 60 s it is
      refreshed. */
  function OrphaningRun(random: TokenBytes): seq<Step> {
    [Press(PairKey, random, SHOWN), Advance(30 * SECOND), Press(PairKey, random, UNRENDERED),
     Advance(60 * SECOND), Refresh(60 * SECOND, random, REFRESHED)]
  }

  /** The refresh of an old code can replace a token issued half a minute ago. */
  lemma RefreshCanReplaceLiveToken(random: TokenBytes)
    ensures Legal(BLANK, OrphaningRun(random))
    ensures After(BLANK, OrphaningRun(random)).replacedLive
  {
    var run := OrphaningRun(random);
    var d1 := Desk(View(Some(0), false), Some(Token(random, 0, false)), 0, false);
    var d2 := d1.(now := 30 * SECOND);
    var d3 := d2.(token := Some(Token(random, 30 * SECOND, false)));
    var d4 := d3.(now := 60 * SECOND);
    var d5 := Apply(d4, run[4]);
    assert d5.replacedLive;
    assert run[4..][1..] == [] && run[3..][1..] == run[4..] && run[2..][1..] == run[3..] && run[1..][1..] == run[2..];
    assert Legal(d4, run[4..]) && After(d4, run[4..]) == d5;
    assert Legal(d3, run[3..]) && After(d3, run[3..]) == d5;
    assert Legal(d2, run[2..]) && After(d2, run[2..]) == d5;
    assert Legal(d1, run[1..]) && After(d1, run[1..]) == d5;
  }
}
