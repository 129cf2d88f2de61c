/** The shared list `ResourceClaim.status.devices` and this driver's edits to it
    (pkg/types/claimstatus.go). */
module ClaimStatus {
  import opened Attributes

  datatype DeviceStatus = DeviceStatus(
    driver: string, pool: string, device: string, shareID: Option<string>,
    data: Option<string>, networkData: Option<string>)

  datatype StatusKey = StatusKey(driver: string, pool: string, device: string, shareID: string)

  /** A missing share ID and an empty one give the same key. */
  function KeyOf(s: DeviceStatus): StatusKey {
    StatusKey(s.driver, s.pool, s.device, if s.shareID.Some? then s.shareID.value else "")
  }

  type Statuses = seq<DeviceStatus>

  // ----- Specification -----

  /** The entries of other drivers, in order. */
  function Foreign(list: Statuses, driver: string): Statuses {
    if list == [] then []
    else Foreign(list[..|list| - 1], driver) + if list[|list| - 1].driver == driver then [] else [list[|list| - 1]]
  }

  /** The entries of one driver, in order. */
  function Own(list: Statuses, driver: string): Statuses {
    if list == [] then []
    else Own(list[..|list| - 1], driver) + if list[|list| - 1].driver == driver then [list[|list| - 1]] else []
  }

  predicate UniqueKeys(list: Statuses) {
    forall i, j :: 0 <= i < j < |list| ==> KeyOf(list[i]) != KeyOf(list[j])
  }

  /** The list read as a map: the last entry of a key counts. */
  function Keyed(list: Statuses): map<StatusKey, DeviceStatus> {
    if list == [] then map[] else Keyed(list[..|list| - 1])[KeyOf(list[|list| - 1]) := list[|list| - 1]]
  }

  function Upserted(list: Statuses, s: DeviceStatus): Statuses {
    if list == [] then [s]
    else if KeyOf(list[0]) == KeyOf(s) then [s] + list[1..]
    else [list[0]] + Upserted(list[1..], s)
  }

  function UpsertedAll(list: Statuses, more: Statuses): Statuses {
    if more == [] then list else Upserted(UpsertedAll(list, more[..|more| - 1]), more[|more| - 1])
  }

  function Merged(latest: Statuses, desired: Statuses, driver: string): Statuses {
    UpsertedAll(Foreign(latest, driver), Own(desired, driver))
  }

  // ----- The operations -----

  method UpsertDeviceStatus(list: Statuses, s: DeviceStatus) returns (r: Statuses)
    ensures r == Upserted(list, s)
  {
    for i := 0 to |list|
      invariant forall j :: 0 <= j < i ==> KeyOf(list[j]) != KeyOf(s)
    {
      if KeyOf(list[i]) == KeyOf(s) {
        UpsertedAt(list, s, i);
        return list[i := s];
      }
    }
    UpsertedAt(list, s, |list|);
    return list + [s];
  }

  /** Upserting replaces the first entry of the key, or appends. */
  lemma {:induction false} UpsertedAt(list: Statuses, s: DeviceStatus, i: nat)
    requires i <= |list| && forall j :: 0 <= j < i ==> KeyOf(list[j]) != KeyOf(s)
    requires i < |list| ==> KeyOf(list[i]) == KeyOf(s)
    ensures Upserted(list, s) == if i < |list| then list[i := s] else list + [s]
  {
    if list != [] && i > 0 {
      UpsertedAt(list[1..], s, i - 1);
    }
  }

  /** Two entries are about the same share of the same device; no share ID and an empty one are the same. */
  predicate SameDevice(a: DeviceStatus, b: DeviceStatus) {
    && a.driver == b.driver && a.pool == b.pool && a.device == b.device
    && (a.shareID == b.shareID || {a.shareID, b.shareID} == {None, Some("")})
  }

  /** An entry replaces the first one about its device, and is appended when there is none. */
  lemma UpsertsByDevice(list: Statuses, s: DeviceStatus, i: nat)
    requires i <= |list| && forall j :: 0 <= j < i ==> !SameDevice(list[j], s)
    requires i < |list| ==> SameDevice(list[i], s)
    ensures Upserted(list, s) == if i < |list| then list[i := s] else list + [s]
  {
    assert forall a, b :: SameDevice(a, b) <==> KeyOf(a) == KeyOf(b) by {
      forall a: DeviceStatus, b: DeviceStatus
        ensures SameDevice(a, b) <==> KeyOf(a) == KeyOf(b)
      {
        DevicesHaveKeys(a, b);
      }
    }
    UpsertedAt(list, s, i);
  }

  lemma DevicesHaveKeys(a: DeviceStatus, b: DeviceStatus)
    ensures SameDevice(a, b) <==> KeyOf(a) == KeyOf(b)
  {
    if KeyOf(a) == KeyOf(b) && a.shareID != b.shareID {
      assert {a.shareID, b.shareID} == {None, Some("")};
    }
    if {a.shareID, b.shareID} == {None, Some("")} {
      assert a.shareID in {None, Some("")} && b.shareID in {None, Some("")};
    }
  }

  method MergeDeviceStatuses(latest: Statuses, desired: Statuses, driver: string) returns (merged: Statuses)
    ensures merged == Merged(latest, desired, driver)
  {
    merged := [];
    for i := 0 to |latest|
      invariant merged == Foreign(latest[..i], driver)
    {
      assert latest[..i + 1][..i] == latest[..i];
      if latest[i].driver != driver {
        merged := merged + [latest[i]];
      }
    }
    assert latest[..|latest|] == latest;
    for i := 0 to |desired|
      invariant merged == Merged(latest, desired[..i], driver)
    {
      assert desired[..i + 1][..i] == desired[..i];
      if desired[i].driver == driver {
        var own := Own(desired[..i], driver);
        assert (own + [desired[i]])[..|own|] == own;
        merged := UpsertDeviceStatus(merged, desired[i]);
      } else {
        assert Own(desired[..i], driver) + [] == Own(desired[..i], driver);
      }
    }
    assert desired[..|desired|] == desired;
  }

  // ----- What a merge keeps and what it writes -----

  lemma {:induction false} ForeignEntries(list: Statuses, driver: string)
    ensures forall s :: s in Foreign(list, driver) <==> s in list && s.driver != driver
    ensures forall s :: s in Own(list, driver) <==> s in list && s.driver == driver
  {
    if list != [] {
      ForeignEntries(list[..|list| - 1], driver);
      assert list == list[..|list| - 1] + [list[|list| - 1]];
    }
  }

  lemma {:induction false} FilterConcat(a: Statuses, b: Statuses, driver: string)
    ensures Foreign(a + b, driver) == Foreign(a, driver) + Foreign(b, driver)
    ensures Own(a + b, driver) == Own(a, driver) + Own(b, driver)
  {
    if b == [] {
      assert a + b == a;
    } else {
      FilterConcat(a, b[..|b| - 1], driver);
      assert (a + b)[..|a + b| - 1] == a + b[..|b| - 1];
    }
  }

  lemma {:induction false} FilterIdempotent(list: Statuses, driver: string)
    requires forall i :: 0 <= i < |list| ==> list[i].driver != driver
    ensures Foreign(list, driver) == list && Own(list, driver) == []
  {
    if list != [] {
      var front, last := list[..|list| - 1], list[|list| - 1];
      FilterIdempotent(front, driver);
      assert front + [last] == list && front + [] == front;
    }
  }

  lemma {:induction false} OwnIdempotent(list: Statuses, driver: string)
    requires forall i :: 0 <= i < |list| ==> list[i].driver == driver
    ensures Own(list, driver) == list && Foreign(list, driver) == []
  {
    if list != [] {
      var front, last := list[..|list| - 1], list[|list| - 1];
      OwnIdempotent(front, driver);
      assert front + [last] == list && front + [] == front;
    }
  }

  /** Upserting an entry of one driver past a prefix of other drivers only works on the rest. */
  lemma {:induction false} UpsertSkipsForeign(foreign: Statuses, own: Statuses, s: DeviceStatus)
    requires forall i :: 0 <= i < |foreign| ==> foreign[i].driver != s.driver
    ensures Upserted(foreign + own, s) == foreign + Upserted(own, s)
  {
    if foreign == [] {
      assert foreign + own == own;
    } else {
      UpsertSkipsForeign(foreign[1..], own, s);
      assert (foreign + own)[1..] == foreign[1..] + own;
    }
  }

  lemma {:induction false} UpsertAllSkipsForeign(foreign: Statuses, more: Statuses, driver: string)
    requires forall i :: 0 <= i < |foreign| ==> foreign[i].driver != driver
    requires forall i :: 0 <= i < |more| ==> more[i].driver == driver
    ensures UpsertedAll(foreign, more) == foreign + UpsertedAll([], more)
  {
    if more != [] {
      UpsertAllSkipsForeign(foreign, more[..|more| - 1], driver);
      UpsertSkipsForeign(foreign, UpsertedAll([], more[..|more| - 1]), more[|more| - 1]);
    }
  }

  lemma {:induction false} UpsertedMembers(list: Statuses, s: DeviceStatus)
    ensures forall x :: x in Upserted(list, s) ==> x in list || x == s
    ensures forall x :: x in list && KeyOf(x) != KeyOf(s) ==> x in Upserted(list, s)
    ensures s in Upserted(list, s)
  {
    if list != [] {
      UpsertedMembers(list[1..], s);
      assert list == [list[0]] + list[1..];
    }
  }

  lemma {:induction false} UpsertedUnique(list: Statuses, s: DeviceStatus)
    requires UniqueKeys(list)
    ensures UniqueKeys(Upserted(list, s))
  {
    if list != [] {
      var i := if i :| 0 <= i < |list| && KeyOf(list[i]) == KeyOf(s) then i else |list|;
      UpsertedAt(list, s, i);
    }
  }

  lemma {:induction false} KeyedConcat(a: Statuses, b: Statuses)
    ensures Keyed(a + b) == Keyed(a) + Keyed(b)
  {
    if b == [] {
      assert a + b == a;
    } else {
      KeyedConcat(a, b[..|b| - 1]);
      assert (a + b)[..|a + b| - 1] == a + b[..|b| - 1];
    }
  }

  lemma UpsertedKeyed(list: Statuses, s: DeviceStatus)
    requires UniqueKeys(list)
    ensures Keyed(Upserted(list, s)) == Keyed(list)[KeyOf(s) := s]
  {
    if i :| 0 <= i < |list| && KeyOf(list[i]) == KeyOf(s) {
      UpsertedAt(list, s, i);
      ReplacedKeyed(list, s, i);
    } else {
      UpsertedAt(list, s, |list|);
      assert (list + [s])[..|list|] == list;
    }
  }

  lemma UniqueAfter(list: Statuses, i: nat)
    requires UniqueKeys(list) && i < |list|
    ensures KeyOf(list[i]) !in Keyed(list[i + 1..])
  {
    var b := list[i + 1..];
    KeyedKeys(b);
    assert forall j :: 0 <= j < |b| ==> b[j] == list[i + 1 + j];
  }

  lemma ReplacedKeyed(list: Statuses, s: DeviceStatus, i: nat)
    requires UniqueKeys(list) && i < |list| && KeyOf(list[i]) == KeyOf(s)
    ensures Keyed(list[i := s]) == Keyed(list)[KeyOf(s) := s]
  {
    var a, b, old' := list[..i], list[i + 1..], list[i];
    assert list == a + [old'] + b;
    assert list[i := s] == a + [s] + b;
    UniqueAfter(list, i);
    KeyedBetween(a, old', b);
    KeyedBetween(a, s, b);
    var rest := Keyed(a) + Keyed(b);
    assert rest[KeyOf(s) := old'][KeyOf(s) := s] == rest[KeyOf(s) := s];
  }

  lemma KeyedBetween(a: Statuses, s: DeviceStatus, b: Statuses)
    requires KeyOf(s) !in Keyed(b)
    ensures Keyed(a + [s] + b) == (Keyed(a) + Keyed(b))[KeyOf(s) := s]
  {
    KeyedConcat(a + [s], b);
    assert (a + [s])[..|a|] == a;
  }

  lemma {:induction false} UpsertedAllOwn(more: Statuses, driver: string)
    requires forall i :: 0 <= i < |more| ==> more[i].driver == driver
    ensures UniqueKeys(UpsertedAll([], more))
    ensures forall x :: x in UpsertedAll([], more) ==> x.driver == driver
    ensures Keyed(UpsertedAll([], more)) == Keyed(more)
  {
    if more != [] {
      var front, last := more[..|more| - 1], more[|more| - 1];
      UpsertedAllOwn(front, driver);
      UpsertedUnique(UpsertedAll([], front), last);
      UpsertedMembers(UpsertedAll([], front), last);
      UpsertedKeyed(UpsertedAll([], front), last);
    }
  }

  /** With unique keys, reading the list as a map loses nothing. */
  lemma {:induction false} KeyedUnique(list: Statuses)
    requires UniqueKeys(list)
    ensures forall s :: s in list <==> KeyOf(s) in Keyed(list) && Keyed(list)[KeyOf(s)] == s
    ensures forall k :: k in Keyed(list) ==> KeyOf(Keyed(list)[k]) == k
  {
    if list != [] {
      var front, last := list[..|list| - 1], list[|list| - 1];
      KeyedUnique(front);
      assert list == front + [last];
      assert forall s :: s in front ==> KeyOf(s) != KeyOf(last);
    }
  }

  lemma {:induction false} KeyedKeys(list: Statuses)
    ensures forall k :: k in Keyed(list) <==> exists i :: 0 <= i < |list| && KeyOf(list[i]) == k
    ensures forall k :: k in Keyed(list) ==> KeyOf(Keyed(list)[k]) == k && Keyed(list)[k] in list
  {
    if list != [] {
      KeyedKeys(list[..|list| - 1]);
      assert list == list[..|list| - 1] + [list[|list| - 1]];
    }
  }

  /** A merge is the foreign entries in order, then this driver's desired entries. */
  lemma MergeShape(latest: Statuses, desired: Statuses, driver: string)
    ensures Merged(latest, desired, driver) == Foreign(latest, driver) + UpsertedAll([], Own(desired, driver))
    ensures forall x :: x in Foreign(latest, driver) ==> x.driver != driver
    ensures forall x :: x in UpsertedAll([], Own(desired, driver)) ==> x.driver == driver
    ensures UniqueKeys(UpsertedAll([], Own(desired, driver)))
    ensures Keyed(UpsertedAll([], Own(desired, driver))) == Keyed(Own(desired, driver))
  {
    ForeignEntries(latest, driver);
    ForeignEntries(desired, driver);
    UpsertAllSkipsForeign(Foreign(latest, driver), Own(desired, driver), driver);
    UpsertedAllOwn(Own(desired, driver), driver);
  }

  /** A merge keeps the other drivers' entries, in order, and makes this driver's
      entries the last desired value of each key. */
  lemma MergeKeepsForeignWritesOwn(latest: Statuses, desired: Statuses, driver: string)
    ensures Foreign(Merged(latest, desired, driver), driver) == Foreign(latest, driver)
    ensures UniqueKeys(Own(Merged(latest, desired, driver), driver))
    ensures Keyed(Own(Merged(latest, desired, driver), driver)) == Keyed(Own(desired, driver))
  {
    var f, o := Foreign(latest, driver), UpsertedAll([], Own(desired, driver));
    MergeShape(latest, desired, driver);
    FilterConcat(f, o, driver);
    FilterIdempotent(f, driver);
    OwnIdempotent(o, driver);
    assert f + [] == f && [] + o == o;
  }

  lemma UniqueConcat(f: Statuses, o: Statuses)
    requires UniqueKeys(o)
    requires forall i, j :: 0 <= i < |f| && 0 <= j < |o| ==> KeyOf(f[i]) != KeyOf(o[j])
    ensures UniqueKeys(f + o) <==> UniqueKeys(f)
  {
    var all := f + o;
    if UniqueKeys(f) {
      forall i, j | 0 <= i < j < |all|
        ensures KeyOf(all[i]) != KeyOf(all[j])
      {
        assert j >= |f| ==> all[j] == o[j - |f|];
        assert i >= |f| ==> all[i] == o[i - |f|];
      }
    }
    if UniqueKeys(all) {
      forall i, j | 0 <= i < j < |f|
        ensures KeyOf(f[i]) != KeyOf(f[j])
      {
        assert all[i] == f[i] && all[j] == f[j];
      }
    }
  }

  /** The merged list has unique keys exactly when the other drivers' entries do. */
  lemma MergeUniqueKeys(latest: Statuses, desired: Statuses, driver: string)
    ensures UniqueKeys(Merged(latest, desired, driver)) <==> UniqueKeys(Foreign(latest, driver))
  {
    var f, o := Foreign(latest, driver), UpsertedAll([], Own(desired, driver));
    MergeShape(latest, desired, driver);
    assert forall i :: 0 <= i < |f| ==> f[i] in f;
    assert forall i :: 0 <= i < |o| ==> o[i] in o;
    UniqueConcat(f, o);
  }

  /** A later merge by the same driver absorbs an earlier one; merging is idempotent. */
  lemma MergeAbsorbs(latest: Statuses, earlier: Statuses, desired: Statuses, driver: string)
    ensures Merged(Merged(latest, earlier, driver), desired, driver) == Merged(latest, desired, driver)
    ensures Merged(Merged(latest, desired, driver), desired, driver) == Merged(latest, desired, driver)
  {
    MergeKeepsForeignWritesOwn(latest, earlier, driver);
    MergeKeepsForeignWritesOwn(latest, desired, driver);
  }

  lemma {:induction false} ForeignCommutes(list: Statuses, a: string, b: string)
    ensures Foreign(Foreign(list, a), b) == Foreign(Foreign(list, b), a)
  {
    if list != [] {
      var front, last := list[..|list| - 1], [list[|list| - 1]];
      ForeignCommutes(front, a, b);
      assert last[..0] == [] && Foreign([], a) == [] == Foreign([], b);
      FilterConcat(Foreign(front, a), Foreign(last, a), b);
      FilterConcat(Foreign(front, b), Foreign(last, b), a);
      assert Foreign(last, a) == (if last[0].driver == a then [] else last);
      assert Foreign(last, b) == (if last[0].driver == b then [] else last);
    }
  }

  lemma SwapDisjoint<K, V>(rest: map<K, V>, x: map<K, V>, y: map<K, V>)
    requires x.Keys !! y.Keys
    ensures rest + x + y == rest + y + x
  {
  }

  lemma OwnKeys(desired: Statuses, driver: string)
    ensures forall k :: k in Keyed(Own(desired, driver)) ==> k.driver == driver
  {
    KeyedKeys(Own(desired, driver));
    ForeignEntries(desired, driver);
  }

  /** Merges by two different drivers commute, read as keyed maps. */
  lemma MergesCommute(latest: Statuses, mine: Statuses, a: string, theirs: Statuses, b: string)
    requires a != b
    ensures Keyed(Merged(Merged(latest, mine, a), theirs, b)) == Keyed(Merged(Merged(latest, theirs, b), mine, a))
  {
    TwoMerges(latest, mine, a, theirs, b);
    TwoMerges(latest, theirs, b, mine, a);
    ForeignCommutes(latest, a, b);
    OwnKeys(mine, a);
    OwnKeys(theirs, b);
    SwapDisjoint(Keyed(Foreign(Foreign(latest, a), b)), Keyed(Own(mine, a)), Keyed(Own(theirs, b)));
  }

  lemma ForeignOfMerge(latest: Statuses, mine: Statuses, a: string, b: string)
    requires a != b
    ensures Foreign(Merged(latest, mine, a), b) == Foreign(Foreign(latest, a), b) + UpsertedAll([], Own(mine, a))
  {
    var own := UpsertedAll([], Own(mine, a));
    MergeShape(latest, mine, a);
    FilterConcat(Foreign(latest, a), own, b);
    assert forall i :: 0 <= i < |own| ==> own[i] in own;
    FilterIdempotent(own, b);
  }

  lemma TwoMerges(latest: Statuses, mine: Statuses, a: string, theirs: Statuses, b: string)
    requires a != b
    ensures Keyed(Merged(Merged(latest, mine, a), theirs, b)) ==
            Keyed(Foreign(Foreign(latest, a), b)) + Keyed(Own(mine, a)) + Keyed(Own(theirs, b))
  {
    ForeignOfMerge(latest, mine, a, b);
    MergeKeyed(latest, mine, a);
    MergeKeyed(Merged(latest, mine, a), theirs, b);
    KeyedConcat(Foreign(Foreign(latest, a), b), UpsertedAll([], Own(mine, a)));
    MergeShape(latest, mine, a);
  }

  lemma MergeKeyed(latest: Statuses, desired: Statuses, driver: string)
    ensures Keyed(Merged(latest, desired, driver)) == Keyed(Foreign(latest, driver)) + Keyed(Own(desired, driver))
  {
    MergeShape(latest, desired, driver);
    KeyedConcat(Foreign(latest, driver), UpsertedAll([], Own(desired, driver)));
  }

  /** Recording this driver's own status in a claim touches no other driver's entry. */
  lemma {:induction false} UpsertKeepsForeign(list: Statuses, s: DeviceStatus)
    ensures Foreign(Upserted(list, s), s.driver) == Foreign(list, s.driver)
  {
    if list == [] {
      assert [s][..0] == [];
    } else {
      var head, tail := [list[0]], list[1..];
      assert head + tail == list;
      FilterConcat(head, tail, s.driver);
      if KeyOf(list[0]) == KeyOf(s) {
        FilterConcat([s], tail, s.driver);
        assert [s][..0] == [] && head[..0] == [];
      } else {
        UpsertKeepsForeign(tail, s);
        FilterConcat(head, Upserted(tail, s), s.driver);
      }
    }
  }
}
