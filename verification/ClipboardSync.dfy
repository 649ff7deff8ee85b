/// Clipboard sync in the daemon: one last-seen hash shared by the loop that
/// watches the local clipboard and the handler of clips from devices.
module ClipboardSync {
  import opened Protocol

  /** The state the two handlers share. `local` is the content of the desktop
      clipboard, `outbox` what has been queued on each device's session. */
  datatype Hub = Hub(
    lastHash: Option<Hash>, backend: bool, local: seq<Byte>,
    connected: set<DeviceId>, paired: set<DeviceId>, outbox: map<DeviceId, seq<Clip>>)

  function Queued(outbox: map<DeviceId, seq<Clip>>, id: DeviceId): seq<Clip> {
    if id in outbox then outbox[id] else []
  }

  function Fanout(outbox: map<DeviceId, seq<Clip>>, targets: set<DeviceId>, clip: Clip): map<DeviceId, seq<Clip>> {
    map id | id in outbox.Keys + targets :: if id in targets then Queued(outbox, id) + [clip] else outbox[id]
  }

  /** One change notification, what reading the clipboard then returns, and
      which devices are connected by then. */
  datatype Notice = Notice(mime: string, read: Option<seq<Byte>>, connected: set<DeviceId>)

  /** Build a clip from what was read and send it everywhere unless its hash is
      the last one seen. */
  function Watched(h: Hub, n: Notice, digest: seq<Byte> -> Hash): Hub {
    if n.mime != MIME_TEXT_PLAIN || n.read.None? then h
    else
      match NewClip(n.mime, n.read.value, digest)
      case Rejected(_) => h
      case Made(clip) =>
        if h.lastHash == Some(clip.hash) then h
        else h.(lastHash := Some(clip.hash), outbox := Fanout(h.outbox, n.connected, clip))
  }

  function WatchedAll(h: Hub, notices: seq<Notice>, digest: seq<Byte> -> Hash): Hub
    decreases |notices|
  {
    if notices == [] then h else WatchedAll(Watched(h, notices[0], digest), notices[1..], digest)
  }

  /** One clip from a device: apply it and relay it to every other device
      unless its hash is the last one seen. */
  function Received(h: Hub, sender: DeviceId, clip: Clip, writable: bool): Hub {
    if sender !in h.paired || clip.mime != MIME_TEXT_PLAIN || h.lastHash == Some(clip.hash) then h
    else
      h.(lastHash := Some(clip.hash),
         local := if h.backend && writable then clip.content else h.local,
         outbox := Fanout(h.outbox, h.connected - {sender}, clip))
  }

  class Clipboards {
    var lastHash: Option<Hash>
    var backend: bool
    var local: seq<Byte>
    var connected: set<DeviceId>
    var paired: set<DeviceId>
    var outbox: map<DeviceId, seq<Clip>>

    ghost function View(): Hub
      reads this
    {
      Hub(lastHash, backend, local, connected, paired, outbox)
    }

    method ShouldBroadcast(hash: Hash) returns (isNew: bool)
      modifies this`lastHash
      ensures isNew <==> old(lastHash) != Some(hash)
      ensures lastHash == Some(hash)
    {
      if lastHash == Some(hash) {
        return false;
      }
      lastHash := Some(hash);
      return true;
    }

    method SendTo(targets: set<DeviceId>, clip: Clip)
      modifies this`outbox
      ensures outbox == Fanout(old(outbox), targets, clip)
    {
      var left := targets;
      while left != {}
        invariant left <= targets
        invariant outbox == Fanout(old(outbox), targets - left, clip)
        decreases left
      {
        var id :| id in left;
        outbox := outbox[id := Queued(outbox, id) + [clip]];
        left := left - {id};
      }
    }

    /** Runs until the backend's change stream ends. */
    method WatchAndBroadcast(notices: seq<Notice>, digest: seq<Byte> -> Hash)
      modifies this`lastHash, this`outbox
      ensures View() == WatchedAll(old(View()), notices, digest)
    {
      for i := 0 to |notices|
        invariant WatchedAll(old(View()), notices, digest) == WatchedAll(View(), notices[i..], digest)
      {
        assert notices[i..][0] == notices[i] && notices[i..][1..] == notices[i + 1..];
        var n := notices[i];
        if n.mime != MIME_TEXT_PLAIN || n.read.None? {
          continue;
        }
        var built := NewClip(n.mime, n.read.value, digest);
        if built.Rejected? {
          continue;
        }
        var isNew := ShouldBroadcast(built.clip.hash);
        if !isNew {
          continue;
        }
        SendTo(n.connected, built.clip);
      }
    }

    method HandleReceived(sender: DeviceId, clip: Clip, writable: bool)
      modifies this`lastHash, this`local, this`outbox
      ensures View() == Received(old(View()), sender, clip, writable)
    {
      if sender !in paired || clip.mime != MIME_TEXT_PLAIN {
        return;
      }
      var isNew := ShouldBroadcast(clip.hash);
      if !isNew {
        return;
      }
      if backend && writable {
        local := clip.content;
      }
      SendTo(connected - {sender}, clip);
    }
  }

  // ---- Runs: each loop iteration and each handler call is one step ----

  datatype Step =
    | Copy(content: seq<Byte>)
    | Spurious
    | Change(mime: string, readable: bool)
    | Receive(sender: DeviceId, content: seq<Byte>, writable: bool)
    | Join(id: DeviceId)
    | Leave(id: DeviceId)
    | Pin(id: DeviceId)
    | Unpin(id: DeviceId)
    | FindBackend

  /** The hub with what an observer counts: change notifications not yet
      consumed, the hashes presented to the last-hash check and those it let
      through, the clips exchanged with each device since it joined, and how
      many user copies, device clips and failed backend writes there were. */
  datatype Sync = Sync(
    hub: Hub, notices: nat, presented: seq<Hash>, accepted: seq<Hash>,
    exchanged: map<DeviceId, seq<Clip>>, copies: nat, deliveries: nat, failed: nat)

  function Init(local: seq<Byte>, paired: set<DeviceId>): Sync {
    Sync(Hub(None, false, local, {}, paired, map[]), 0, [], [], map[], 0, 0, 0)
  }

  /** Devices send clips made by `Clip::new`; the watch loop consumes a pending notification. */
  predicate CanStep(s: Sync, step: Step) {
    match step
    case Change(_, _) => s.hub.backend && s.notices > 0
    case Receive(_, content, _) => |content| <= MAX_CONTENT_LEN
    case _ => true
  }

  function HubAfter(s: Sync, step: Step, digest: seq<Byte> -> Hash): Hub {
    match step
    case Copy(content) => s.hub.(local := content)
    case Spurious => s.hub
    case Change(mime, readable) =>
      Watched(s.hub, Notice(mime, if readable then Some(s.hub.local) else None, s.hub.connected), digest)
    case Receive(sender, content, writable) =>
      Received(s.hub, sender, Clip(MIME_TEXT_PLAIN, content, digest(content)), writable)
    case Join(id) => s.hub.(connected := s.hub.connected + {id})
    case Leave(id) => s.hub.(connected := s.hub.connected - {id})
    case Pin(id) => s.hub.(paired := s.hub.paired + {id})
    case Unpin(id) => s.hub.(paired := s.hub.paired - {id})
    case FindBackend => s.hub.(backend := true)
  }

  /** The clip a step brings to the last-hash check, if it gets that far. */
  function Presents(s: Sync, step: Step, digest: seq<Byte> -> Hash): Option<Clip> {
    match step
    case Change(mime, readable) =>
      if mime == MIME_TEXT_PLAIN && readable && NewClip(mime, s.hub.local, digest).Made?
      then Some(NewClip(mime, s.hub.local, digest).clip) else None
    case Receive(sender, content, _) =>
      if sender in s.hub.paired then Some(Clip(MIME_TEXT_PLAIN, content, digest(content))) else None
    case _ => None
  }

  predicate LetThrough(s: Sync, step: Step, digest: seq<Byte> -> Hash) {
    var clip := Presents(s, step, digest);
    clip.Some? && s.hub.lastHash != Some(clip.value.hash)
  }

  function Exchanges(exchanged: map<DeviceId, seq<Clip>>, id: DeviceId): seq<Clip> {
    if id in exchanged then exchanged[id] else []
  }

  /** What a step puts on a device's session, and what it takes from it. */
  function NewExchanges(s: Sync, step: Step, digest: seq<Byte> -> Hash, id: DeviceId): seq<Clip> {
    var (before, now) := (Queued(s.hub.outbox, id), Queued(HubAfter(s, step, digest).outbox, id));
    (if |before| <= |now| then now[|before|..] else [])
    + if step.Receive? && step.sender == id && Presents(s, step, digest).Some?
      then [Presents(s, step, digest).value] else []
  }

  function Apply(s: Sync, step: Step, digest: seq<Byte> -> Hash): Sync
    requires CanStep(s, step)
  {
    var hub := HubAfter(s, step, digest);
    var clip := Presents(s, step, digest);
    var through := LetThrough(s, step, digest);
    var wrote := step.Receive? && through && s.hub.backend && step.writable;
    var ids := s.exchanged.Keys + hub.outbox.Keys + if step.Receive? then {step.sender} else {};
    Sync(hub,
         match step
         case Change(_, _) => s.notices - 1
         case Spurious => s.notices + 1
         case _ => if (step.Copy? && s.hub.backend) || wrote then s.notices + 1 else s.notices,
         s.presented + (if clip.Some? then [clip.value.hash] else []),
         s.accepted + (if through then [clip.value.hash] else []),
         map id | id in ids :: if step == Join(id) then [] else Exchanges(s.exchanged, id) + NewExchanges(s, step, digest, id),
         s.copies + (if step.Copy? then 1 else 0),
         s.deliveries + (if step.Receive? then 1 else 0),
         s.failed + (if step.Receive? && through && s.hub.backend && !step.writable then 1 else 0))
  }

  predicate Legal(s: Sync, steps: seq<Step>, digest: seq<Byte> -> Hash)
    decreases |steps|
  {
    steps == [] || (CanStep(s, steps[0]) && Legal(Apply(s, steps[0], digest), steps[1..], digest))
  }

  function After(s: Sync, steps: seq<Step>, digest: seq<Byte> -> Hash): Sync
    requires Legal(s, steps, digest)
    decreases |steps|
  {
    if steps == [] then s else After(Apply(s, steps[0], digest), steps[1..], digest)
  }

  // ---- What the last-hash check does to a sequence of hashes ----

  function Dedup(last: Option<Hash>, hashes: seq<Hash>): seq<Hash>
    decreases |hashes|
  {
    if hashes == [] then []
    else if last == Some(hashes[0]) then Dedup(last, hashes[1..])
    else [hashes[0]] + Dedup(Some(hashes[0]), hashes[1..])
  }

  function LastOf(last: Option<Hash>, hashes: seq<Hash>): Option<Hash> {
    if hashes == [] then last else Some(hashes[|hashes| - 1])
  }

  /** Deduplication splits over any concatenation of inputs. */
  lemma {:induction false} DedupSplits(last: Option<Hash>, a: seq<Hash>, b: seq<Hash>)
    ensures Dedup(last, a + b) == Dedup(last, a) + Dedup(LastOf(last, a), b)
    decreases |a|
  {
    if a == [] {
      assert a + b == b;
    } else {
      assert (a + b)[1..] == a[1..] + b;
      DedupSplits(Some(a[0]), a[1..], b);
      assert LastOf(Some(a[0]), a[1..]) == LastOf(last, a);
    }
  }

  predicate NoRepeat(hashes: seq<Hash>) {
    forall i :: 0 < i < |hashes| ==> hashes[i] != hashes[i - 1]
  }

  /** Its result has no two equal neighbours and ends where the input ends. */
  lemma {:induction false} DedupShape(last: Option<Hash>, hashes: seq<Hash>)
    ensures var d := Dedup(last, hashes);
            && NoRepeat(d) && (d != [] ==> last != Some(d[0]))
            && LastOf(last, d) == LastOf(last, hashes)
    decreases |hashes|
  {
    if hashes != [] {
      DedupShape(Some(hashes[0]), hashes[1..]);
    }
  }

  /** Nothing else is dropped: a hash differing from the one before it is kept. */
  lemma {:induction false} DedupKeepsChanges(last: Option<Hash>, hashes: seq<Hash>)
    requires NoRepeat(hashes) && (hashes != [] ==> last != Some(hashes[0]))
    ensures Dedup(last, hashes) == hashes
    decreases |hashes|
  {
    if hashes != [] {
      var rest := hashes[1..];
      assert forall i :: 0 < i < |rest| ==> rest[i] == hashes[i + 1];
      DedupKeepsChanges(Some(hashes[0]), rest);
    }
  }

  // ---- Invariants of every run ----

  predicate Dirty(h: Hub, digest: seq<Byte> -> Hash) {
    h.lastHash != Some(digest(h.local))
  }

  function One(b: bool): nat { if b then 1 else 0 }

  /** Every accepted change is paid for by a copy, a device's clip or a failed
      write of one; a pending difference counts as one in hand. Without a
      backend only device clips are ever let through. */
  predicate EchoBounded(s: Sync, digest: seq<Byte> -> Hash) {
    if s.hub.backend then |s.accepted| + One(Dirty(s.hub, digest)) <= 1 + s.copies + s.deliveries + s.failed
    else |s.accepted| <= s.deliveries
  }

  predicate AcceptedIsDedup(s: Sync) {
    s.accepted == Dedup(None, s.presented) && s.hub.lastHash == LastOf(None, s.presented)
  }

  /** The last clip exchanged with a connected device since it joined, in
      either direction, has the last seen hash. */
  predicate Coherent(s: Sync) {
    forall id :: id in s.hub.connected ==> CoherentWith(s, id)
  }

  lemma StepKeepsEcho(s: Sync, step: Step, digest: seq<Byte> -> Hash)
    requires EchoBounded(s, digest) && CanStep(s, step)
    ensures EchoBounded(Apply(s, step, digest), digest)
  {
  }

  lemma StepKeepsDedup(s: Sync, step: Step, digest: seq<Byte> -> Hash)
    requires AcceptedIsDedup(s) && CanStep(s, step)
    ensures AcceptedIsDedup(Apply(s, step, digest))
  {
    var clip := Presents(s, step, digest);
    if clip.Some? {
      var h := clip.value.hash;
      DedupSplits(None, s.presented, [h]);
      var none: seq<Hash> := [];
      assert [h][1..] == none;
    } else {
      assert s.presented + [] == s.presented && s.accepted + [] == s.accepted;
    }
  }

  /** A step either lets nothing through and queues nothing, or queues the one
      clip it presents on each target. */
  lemma StepQueues(s: Sync, step: Step, digest: seq<Byte> -> Hash, id: DeviceId)
    requires CanStep(s, step)
    ensures var clip := Presents(s, step, digest);
            var to := LetThrough(s, step, digest) && id in s.hub.connected && !(step.Receive? && step.sender == id);
            Queued(HubAfter(s, step, digest).outbox, id) == Queued(s.hub.outbox, id) + if to then [clip.value] else []
  {
  }

  lemma StepExchanges(s: Sync, step: Step, digest: seq<Byte> -> Hash, id: DeviceId)
    requires CanStep(s, step)
    ensures var clip := Presents(s, step, digest);
            var more := NewExchanges(s, step, digest, id);
            && (more == [] || (clip.Some? && more == [clip.value]))
            && (LetThrough(s, step, digest) && id in s.hub.connected ==> more == [clip.value])
            && (step != Join(id) ==> Exchanges(Apply(s, step, digest).exchanged, id) == Exchanges(s.exchanged, id) + more)
  {
    StepQueues(s, step, digest, id);
  }

  predicate CoherentWith(s: Sync, id: DeviceId) {
    var clips := Exchanges(s.exchanged, id);
    clips != [] ==> s.hub.lastHash == Some(clips[|clips| - 1].hash)
  }

  lemma StepKeepsCoherentWith(s: Sync, step: Step, digest: seq<Byte> -> Hash, id: DeviceId)
    requires CanStep(s, step) && step != Join(id) && id in s.hub.connected && CoherentWith(s, id)
    ensures CoherentWith(Apply(s, step, digest), id)
  {
    StepExchanges(s, step, digest, id);
    StepKeepsLast(s, step, digest);
    var clip, more, s' := Presents(s, step, digest), NewExchanges(s, step, digest, id), Apply(s, step, digest);
    if more == [] {
      assert Exchanges(s.exchanged, id) + more == Exchanges(s.exchanged, id);
      assert s'.hub.lastHash == s.hub.lastHash;
    } else {
      assert s'.hub.lastHash == Some(clip.value.hash);
    }
  }

  /** The last hash is the one just presented, or the one before. */
  lemma StepKeepsLast(s: Sync, step: Step, digest: seq<Byte> -> Hash)
    requires CanStep(s, step)
    ensures var clip := Presents(s, step, digest);
            Apply(s, step, digest).hub.lastHash == if clip.Some? then Some(clip.value.hash) else s.hub.lastHash
  {
  }

  lemma StepKeepsCoherent(s: Sync, step: Step, digest: seq<Byte> -> Hash)
    requires Coherent(s) && CanStep(s, step)
    ensures Coherent(Apply(s, step, digest))
  {
    var s' := Apply(s, step, digest);
    forall id | id in s'.hub.connected
      ensures CoherentWith(s', id)
    {
      if step != Join(id) {
        StepKeepsCoherentWith(s, step, digest, id);
      }
    }
  }

  predicate Inv(s: Sync, digest: seq<Byte> -> Hash) {
    EchoBounded(s, digest) && AcceptedIsDedup(s) && Coherent(s)
  }

  lemma {:induction false} RunKeepsInv(s: Sync, steps: seq<Step>, digest: seq<Byte> -> Hash)
    requires Inv(s, digest) && Legal(s, steps, digest)
    ensures Inv(After(s, steps, digest), digest)
    decreases |steps|
  {
    if steps != [] {
      StepKeepsEcho(s, steps[0], digest);
      StepKeepsDedup(s, steps[0], digest);
      StepKeepsCoherent(s, steps[0], digest);
      RunKeepsInv(Apply(s, steps[0], digest), steps[1..], digest);
    }
  }

  /** However many change notifications fire, and whatever the sessions do:
      broadcasts and relays, plus one if the local clipboard still differs from
      the last seen hash, never exceed one more than the user's copies, the
      devices' clips and the failed backend writes; and with no backend, relays
      never exceed the devices' clips. */
  lemma EchoAccounting(local: seq<Byte>, paired: set<DeviceId>, steps: seq<Step>, digest: seq<Byte> -> Hash)
    requires Legal(Init(local, paired), steps, digest)
    ensures var s := After(Init(local, paired), steps, digest);
            && |s.accepted| + One(Dirty(s.hub, digest)) <= 1 + s.copies + s.deliveries + s.failed
            && (!s.hub.backend ==> |s.accepted| <= s.deliveries)
  {
    RunKeepsInv(Init(local, paired), steps, digest);
  }

  /** The hashes let through are the presented ones without adjacent repeats. */
  lemma AcceptedHasNoRepeat(local: seq<Byte>, paired: set<DeviceId>, steps: seq<Step>, digest: seq<Byte> -> Hash)
    requires Legal(Init(local, paired), steps, digest)
    ensures var s := After(Init(local, paired), steps, digest);
            && s.accepted == Dedup(None, s.presented) && NoRepeat(s.accepted)
            && (NoRepeat(s.presented) ==> s.accepted == s.presented)
  {
    RunKeepsInv(Init(local, paired), steps, digest);
    var s := After(Init(local, paired), steps, digest);
    DedupShape(None, s.presented);
    if NoRepeat(s.presented) {
      DedupKeepsChanges(None, s.presented);
    }
  }

  /** Every connected device and the daemon agree on the last clip: the last
      one sent to it or taken from it since it joined has the last seen hash. */
  lemma DevicesCoherent(local: seq<Byte>, paired: set<DeviceId>, steps: seq<Step>, digest: seq<Byte> -> Hash, id: DeviceId)
    requires Legal(Init(local, paired), steps, digest)
    ensures var s := After(Init(local, paired), steps, digest);
            var clips := Exchanges(s.exchanged, id);
            id in s.hub.connected && clips != [] ==> s.hub.lastHash == Some(clips[|clips| - 1].hash)
  {
    RunKeepsInv(Init(local, paired), steps, digest);
    assert Coherent(After(Init(local, paired), steps, digest));
  }

  /** A clip is queued once on every target and nowhere else; a relay's
      targets never include its sender, nor a device that is not connected. */
  lemma RelayTargets(s: Sync, sender: DeviceId, content: seq<Byte>, writable: bool, digest: seq<Byte> -> Hash, id: DeviceId)
    requires CanStep(s, Receive(sender, content, writable))
    ensures var clip := Clip(MIME_TEXT_PLAIN, content, digest(content));
            var s' := Apply(s, Receive(sender, content, writable), digest);
            var relayed := sender in s.hub.paired && s.hub.lastHash != Some(clip.hash) && id in s.hub.connected && id != sender;
            Queued(s'.hub.outbox, id) == Queued(s.hub.outbox, id) + if relayed then [clip] else []
  {
    StepQueues(s, Receive(sender, content, writable), digest, id);
  }

  /** A change the user made is queued once on every connected device, if it is
      text, can be read, is not too long and differs from the last clip; any
      other notification queues nothing. */
  lemma BroadcastTargets(s: Sync, mime: string, readable: bool, digest: seq<Byte> -> Hash, id: DeviceId)
    requires CanStep(s, Change(mime, readable))
    ensures var clip := Clip(mime, s.hub.local, digest(s.hub.local));
            var s' := Apply(s, Change(mime, readable), digest);
            var sent := mime == MIME_TEXT_PLAIN && readable && |s.hub.local| <= MAX_CONTENT_LEN && Dirty(s.hub, digest);
            && Queued(s'.hub.outbox, id) == Queued(s.hub.outbox, id) + (if sent && id in s.hub.connected then [clip] else [])
            && s'.hub.lastHash == (if sent then Some(clip.hash) else s.hub.lastHash)
            && s'.hub.local == s.hub.local
  {
    StepQueues(s, Change(mime, readable), digest, id);
  }

  predicate IsBacklog(steps: seq<Step>) {
    forall i :: 0 <= i < |steps| ==> steps[i].Change? || steps[i].Spurious?
  }

  /** Working through any backlog of notifications with nothing new on the
      clipboard broadcasts at most once, and not at all if it is not dirty. */
  lemma {:induction false} BacklogBroadcastsOnce(s: Sync, steps: seq<Step>, digest: seq<Byte> -> Hash)
    requires Legal(s, steps, digest) && IsBacklog(steps)
    ensures var s' := After(s, steps, digest);
            && s'.hub.local == s.hub.local
            && |s'.accepted| <= |s.accepted| + One(Dirty(s.hub, digest))
            && (|s'.accepted| > |s.accepted| ==> !Dirty(s'.hub, digest))
            && (!Dirty(s.hub, digest) ==> s'.hub == s.hub)
    decreases |steps|
  {
    if steps != [] {
      assert IsBacklog(steps[1..]) by {
        assert forall i :: 0 <= i < |steps[1..]| ==> steps[1..][i] == steps[i + 1];
      }
      BacklogBroadcastsOnce(Apply(s, steps[0], digest), steps[1..], digest);
    }
  }

  /** A clip applied locally is never sent back out: the notification its own
      write causes finds the clipboard clean. */
  lemma NoEcho(s: Sync, sender: DeviceId, content: seq<Byte>, digest: seq<Byte> -> Hash, readable: bool)
    requires s.hub.backend && sender in s.hub.paired && CanStep(s, Receive(sender, content, true))
    requires s.hub.lastHash != Some(digest(content))
    ensures var s1 := Apply(s, Receive(sender, content, true), digest);
            && s1.notices == s.notices + 1 && s1.hub.local == content
            && Apply(s1, Change(MIME_TEXT_PLAIN, readable), digest).hub == s1.hub
  {
  }
}
