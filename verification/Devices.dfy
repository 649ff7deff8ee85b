/// The persisted device list. Entries are keyed by the hex rendering of the
/// device id, and read back through the more lenient hex parser.
module Devices {
  import opened Protocol
  import opened Hex

  datatype PersistedDevice = PersistedDevice(deviceId: string, name: Text)

  /** The entry of `hex` renamed in place, or a new one at the end. */
  function Upserted(ds: seq<PersistedDevice>, hex: string, name: Text): seq<PersistedDevice> {
    if ds == [] then [PersistedDevice(hex, name)]
    else if ds[0].deviceId == hex then [ds[0].(name := name)] + ds[1..]
    else [ds[0]] + Upserted(ds[1..], hex, name)
  }

  function Removed(ds: seq<PersistedDevice>, hex: string): seq<PersistedDevice> {
    if ds == [] then []
    else (if ds[0].deviceId == hex then [] else [ds[0]]) + Removed(ds[1..], hex)
  }

  /** The ids a list decodes to, malformed entries skipped. */
  function Ids(ds: seq<PersistedDevice>): seq<DeviceId> {
    if ds == [] then []
    else
      var id := ParsedAs(ds[0].deviceId, 32);
      if id.None? then Ids(ds[1..])
      else
        var first: DeviceId := id.value;
        [first] + Ids(ds[1..])
  }

  function IdSet(ds: seq<PersistedDevice>): set<DeviceId> {
    set id | id in Ids(ds)
  }

  class PersistedState {
    var devices: seq<PersistedDevice>

    constructor (loaded: seq<PersistedDevice>)
      ensures devices == loaded
    {
      devices := loaded;
    }

    method Upsert(id: DeviceId, name: Text)
      modifies this
      ensures devices == Upserted(old(devices), ToHex(id), name)
    {
      var hex := ToHex(id);
      for i := 0 to |devices|
        invariant devices == old(devices)
        invariant Upserted(devices, hex, name) == devices[..i] + Upserted(devices[i..], hex, name)
      {
        assert devices[i..][1..] == devices[i + 1..];
        if devices[i].deviceId == hex {
          devices := devices[i := devices[i].(name := name)];
          assert devices == old(devices)[..i] + [old(devices)[i].(name := name)] + old(devices)[i + 1..];
          return;
        }
        assert devices[..i] + [devices[i]] == devices[..i + 1];
      }
      assert devices[|devices|..] == [] && devices[..|devices|] == devices;
      devices := devices + [PersistedDevice(hex, name)];
    }

    method Remove(id: DeviceId)
      modifies this
      ensures devices == Removed(old(devices), ToHex(id))
    {
      var hex := ToHex(id);
      var kept: seq<PersistedDevice> := [];
      for i := 0 to |devices|
        invariant devices == old(devices)
        invariant Removed(devices, hex) == kept + Removed(devices[i..], hex)
      {
        assert devices[i..][1..] == devices[i + 1..];
        if devices[i].deviceId != hex {
          kept := kept + [devices[i]];
        }
      }
      devices := kept;
    }

    method DeviceIds() returns (ids: seq<DeviceId>)
      ensures ids == Ids(devices)
    {
      ids := [];
      for i := 0 to |devices|
        invariant Ids(devices) == ids + Ids(devices[i..])
      {
        assert devices[i..][1..] == devices[i + 1..];
        var id := FromHex(devices[i].deviceId);
        if id.Some? {
          ids := ids + [id.value];
        }
      }
    }
  }

  function Keys(ds: seq<PersistedDevice>): seq<string> {
    if ds == [] then [] else [ds[0].deviceId] + Keys(ds[1..])
  }

  predicate Means(key: string, id: DeviceId) {
    ParsedAs(key, 32) == Some(id)
  }

  /** No key that means an id uses a capital or a plus sign. */
  predicate Plain(ds: seq<PersistedDevice>) {
    forall key :: key in Keys(ds) && ParsedAs(key, 32).Some? ==> Lowercase(key)
  }

  /** Every key is the rendering of an id, and no key occurs twice: what the
      daemon itself writes. */
  predicate Canonical(ds: seq<PersistedDevice>) {
    && (forall key :: key in Keys(ds) ==> ParsedAs(key, 32).Some? && Lowercase(key))
    && NoRepeats(Keys(ds))
  }

  predicate NoRepeats(keys: seq<string>) {
    forall i, j :: 0 <= i < j < |keys| ==> keys[i] != keys[j]
  }

  lemma {:induction false} InIdSet(ds: seq<PersistedDevice>, id: DeviceId)
    ensures id in IdSet(ds) <==> exists key :: key in Keys(ds) && Means(key, id)
  {
    if ds != [] {
      InIdSet(ds[1..], id);
      var first := ds[0].deviceId;
      assert forall key :: key in Keys(ds) <==> key == first || key in Keys(ds[1..]);
      assert id in Ids(ds) <==> Means(first, id) || id in Ids(ds[1..]);
    }
  }

  /** A plain key that means an id is its rendering, the one `remove` and
      `upsert` look for. */
  lemma PlainKey(key: string, id: DeviceId)
    requires Means(key, id)
    ensures key == ToHex(id) <==> Lowercase(key)
  {
    CanonicalExactlyWhenLowercase(key);
  }

  lemma Rendering(id: DeviceId)
    ensures Means(ToHex(id), id) && Lowercase(ToHex(id))
  {
    HexRoundTrip(id);
    PlainKey(ToHex(id), id);
  }

  lemma {:induction false} UpsertedKeys(ds: seq<PersistedDevice>, hex: string, name: Text)
    ensures Keys(Upserted(ds, hex, name)) == if hex in Keys(ds) then Keys(ds) else Keys(ds) + [hex]
    ensures PersistedDevice(hex, name) in Upserted(ds, hex, name)
  {
    if ds == [] {
      var none: seq<PersistedDevice> := [];
      assert [PersistedDevice(hex, name)][1..] == none;
    } else if ds[0].deviceId != hex {
      UpsertedKeys(ds[1..], hex, name);
      var rest := Upserted(ds[1..], hex, name);
      assert Upserted(ds, hex, name)[1..] == rest;
    }
  }

  /** Renaming or adding leaves the other entries, and their order, as they were. */
  lemma {:induction false} UpsertedKeepsOthers(ds: seq<PersistedDevice>, hex: string, name: Text)
    ensures Removed(Upserted(ds, hex, name), hex) == Removed(ds, hex)
  {
    var none: seq<PersistedDevice> := [];
    if ds == [] {
      assert [PersistedDevice(hex, name)][1..] == none;
    } else if ds[0].deviceId == hex {
      assert ([ds[0].(name := name)] + ds[1..])[1..] == ds[1..];
    } else {
      UpsertedKeepsOthers(ds[1..], hex, name);
      assert ([ds[0]] + Upserted(ds[1..], hex, name))[1..] == Upserted(ds[1..], hex, name);
    }
  }

  /** Removal keeps exactly the entries of other keys. */
  lemma {:induction false} RemovedEntries(ds: seq<PersistedDevice>, hex: string)
    ensures forall d :: d in Removed(ds, hex) <==> d in ds && d.deviceId != hex
  {
    if ds != [] {
      RemovedEntries(ds[1..], hex);
      assert forall d :: d in ds <==> d == ds[0] || d in ds[1..];
    }
  }

  /** And keeps them in order: it splits over any concatenation. */
  lemma {:induction false} RemovedSplits(a: seq<PersistedDevice>, b: seq<PersistedDevice>, hex: string)
    ensures Removed(a + b, hex) == Removed(a, hex) + Removed(b, hex)
    decreases |a|
  {
    if a == [] {
      assert a + b == b;
    } else {
      assert (a + b)[0] == a[0] && (a + b)[1..] == a[1..] + b;
      RemovedSplits(a[1..], b, hex);
    }
  }

  lemma {:induction false} RemovedKeys(ds: seq<PersistedDevice>, hex: string)
    ensures forall key :: key in Keys(Removed(ds, hex)) <==> key in Keys(ds) && key != hex
    ensures NoRepeats(Keys(ds)) ==> NoRepeats(Keys(Removed(ds, hex)))
  {
    if ds != [] {
      RemovedKeys(ds[1..], hex);
      RemovedFirst(ds, hex);
      NoRepeatsCons(ds[0].deviceId, Keys(ds[1..]));
      NoRepeatsCons(ds[0].deviceId, Keys(Removed(ds[1..], hex)));
    }
  }

  lemma NoRepeatsCons(key: string, keys: seq<string>)
    ensures NoRepeats([key] + keys) <==> key !in keys && NoRepeats(keys)
  {
    var all := [key] + keys;
    if NoRepeats(all) {
      forall i, j | 0 <= i < j < |keys| ensures keys[i] != keys[j] {
        assert all[i + 1] == keys[i] && all[j + 1] == keys[j];
      }
      forall i | 0 <= i < |keys| ensures keys[i] != key {
        assert all[i + 1] == keys[i] && all[0] == key;
      }
    }
  }

  lemma RemovedFirst(ds: seq<PersistedDevice>, hex: string)
    requires ds != []
    ensures Keys(Removed(ds, hex))
         == (if ds[0].deviceId == hex then [] else [ds[0].deviceId]) + Keys(Removed(ds[1..], hex))
  {
    var tail := Removed(ds[1..], hex);
    if ds[0].deviceId == hex {
      assert Removed(ds, hex) == tail;
    } else {
      assert Removed(ds, hex) == [ds[0]] + tail && ([ds[0]] + tail)[1..] == tail;
    }
  }

  lemma UpsertKeepsSpelling(ds: seq<PersistedDevice>, id: DeviceId, name: Text)
    ensures Canonical(ds) ==> Canonical(Upserted(ds, ToHex(id), name))
    ensures Plain(ds) ==> Plain(Upserted(ds, ToHex(id), name))
  {
    UpsertedKeys(ds, ToHex(id), name);
    Rendering(id);
  }

  /** Pairing adds exactly one id to any list, whatever its spelling, and leaves
      the entries of other keys alone. */
  lemma UpsertAddsOne(ds: seq<PersistedDevice>, id: DeviceId, name: Text)
    ensures var us := Upserted(ds, ToHex(id), name);
            && IdSet(us) == IdSet(ds) + {id}
            && PersistedDevice(ToHex(id), name) in us
            && Keys(us) == (if ToHex(id) in Keys(ds) then Keys(ds) else Keys(ds) + [ToHex(id)])
            && Removed(us, ToHex(id)) == Removed(ds, ToHex(id))
            && (Canonical(ds) ==> Canonical(us)) && (Plain(ds) ==> Plain(us))
  {
    var us := Upserted(ds, ToHex(id), name);
    UpsertedKeys(ds, ToHex(id), name);
    UpsertedKeepsOthers(ds, ToHex(id), name);
    UpsertKeepsSpelling(ds, id, name);
    Rendering(id);
    forall other: DeviceId
      ensures other in IdSet(us) <==> other in IdSet(ds) + {id}
    {
      InIdSet(ds, other);
      InIdSet(us, other);
    }
  }

  /** Unpairing removes no other id, and exactly that one if the list is plain. */
  lemma RemoveDropsOne(ds: seq<PersistedDevice>, id: DeviceId)
    ensures var rs := Removed(ds, ToHex(id));
            && (forall d :: d in rs <==> d in ds && d.deviceId != ToHex(id))
            && IdSet(ds) - {id} <= IdSet(rs) <= IdSet(ds)
            && (Plain(ds) ==> IdSet(rs) == IdSet(ds) - {id})
            && (Canonical(ds) ==> Canonical(rs)) && (Plain(ds) ==> Plain(rs))
  {
    var rs := Removed(ds, ToHex(id));
    RemovedKeys(ds, ToHex(id));
    RemovedEntries(ds, ToHex(id));
    Rendering(id);
    forall other: DeviceId
      ensures other in IdSet(rs) ==> other in IdSet(ds)
      ensures other in IdSet(ds) && other != id ==> other in IdSet(rs)
    {
      InIdSet(ds, other);
      InIdSet(rs, other);
    }
    if Plain(ds) {
      RemoveForgetsExactlyWhen(ds, id);
    }
  }

  /** A file the daemon did not write can hold an id in another spelling. After
      `remove`, the id is really gone exactly when no entry spells it with a
      capital or a plus sign. */
  lemma RemoveForgetsExactlyWhen(ds: seq<PersistedDevice>, id: DeviceId)
    ensures id !in IdSet(Removed(ds, ToHex(id))) <==>
            forall key :: key in Keys(ds) && Means(key, id) ==> Lowercase(key)
  {
    RemovedKeys(ds, ToHex(id));
    InIdSet(Removed(ds, ToHex(id)), id);
    forall key | key in Keys(ds) && Means(key, id)
      ensures Lowercase(key) <==> key !in Keys(Removed(ds, ToHex(id)))
    {
      PlainKey(key, id);
    }
  }
}
