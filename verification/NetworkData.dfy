/** The asynchronous network-data updater (pkg/nri/nri.go): grouping by claim, the index
    over `status.devices`, and persisting before publishing. */
module NetworkData {
  import opened Attributes
  import opened ClaimStatus
  import opened Environment
  import opened PodManager
  import StatusRetry

  /** A queued update; the device may be missing. `combined` is the marshalled
      configuration and CNI data, None when marshalling failed. */
  datatype Item = Item(device: PreparedDevice?, networkData: Option<string>, combined: Option<string>)

  datatype ClaimKey = ClaimKey(namespace: string, name: string, uid: string)

  type Queue = seq<Option<Item>>

  predicate Usable(o: Option<Item>) { o.Some? && o.value.device != null }

  function ClaimOf(item: Item): ClaimKey
    requires item.device != null
  {
    ClaimKey(item.device.info.claimNamespace, item.device.info.claimName, item.device.info.claimUID)
  }

  // ----- Grouping -----

  /** The usable items of one claim, in queue order. */
  function ItemsOf(queue: Queue, key: ClaimKey): (r: seq<Item>)
    ensures forall i :: 0 <= i < |r| ==> r[i].device != null && ClaimOf(r[i]) == key
  {
    if queue == [] then []
    else
      var rest, last := ItemsOf(queue[..|queue| - 1], key), queue[|queue| - 1];
      if Usable(last) && ClaimOf(last.value) == key then rest + [last.value] else rest
  }

  /** Groups partition the usable items and keep their order. */
  ghost predicate IsGrouping(queue: Queue, groups: map<ClaimKey, seq<Item>>) {
    && (forall key :: key in groups <==> ItemsOf(queue, key) != [])
    && (forall key :: key in groups ==> groups[key] == ItemsOf(queue, key))
  }

  method GroupNetworkDataByClaim(queue: Queue) returns (groups: map<ClaimKey, seq<Item>>)
    ensures IsGrouping(queue, groups)
  {
    groups := map[];
    for i := 0 to |queue|
      invariant IsGrouping(queue[..i], groups)
    {
      assert queue[..i + 1][..i] == queue[..i];
      if Usable(queue[i]) {
        var item := queue[i].value;
        var key := ClaimOf(item);
        groups := groups[key := (if key in groups then groups[key] else []) + [item]];
      }
    }
    assert queue[..|queue|] == queue;
  }

  // ----- The index over status.devices -----

  datatype DeviceKey = DeviceKey(driver: string, pool: string, device: string)

  function DeviceKeyOf(s: DeviceStatus): DeviceKey { DeviceKey(s.driver, s.pool, s.device) }

  /** The positions of a key's entries, in order. */
  function Positions(list: Statuses, k: DeviceKey): seq<nat> {
    if list == [] then []
    else Positions(list[..|list| - 1], k) + if DeviceKeyOf(list[|list| - 1]) == k then [|list| - 1] else []
  }

  lemma {:induction false} PositionsExact(list: Statuses, k: DeviceKey)
    ensures forall n :: n in Positions(list, k) <==> 0 <= n < |list| && DeviceKeyOf(list[n]) == k
    ensures forall a, b :: 0 <= a < b < |Positions(list, k)| ==> Positions(list, k)[a] < Positions(list, k)[b]
  {
    if list != [] {
      PositionsExact(list[..|list| - 1], k);
      var front := Positions(list[..|list| - 1], k);
      assert forall a :: 0 <= a < |front| ==> front[a] in front;
    }
  }

  /** Positions depend on the keys only. */
  lemma {:induction false} SamePositions(a: Statuses, b: Statuses, k: DeviceKey)
    requires |a| == |b| && forall i :: 0 <= i < |a| ==> DeviceKeyOf(a[i]) == DeviceKeyOf(b[i])
    ensures Positions(a, k) == Positions(b, k)
  {
    if a != [] {
      SamePositions(a[..|a| - 1], b[..|b| - 1], k);
    }
  }

  /** Each key leads to exactly the positions of its entries. */
  ghost predicate IsIndex(list: Statuses, index: map<DeviceKey, seq<nat>>) {
    && (forall k :: k in index <==> Positions(list, k) != [])
    && (forall k :: k in index ==> index[k] == Positions(list, k))
  }

  method BuildClaimStatusDeviceIndex(list: Statuses) returns (index: map<DeviceKey, seq<nat>>)
    ensures IsIndex(list, index)
  {
    index := map[];
    for n := 0 to |list|
      invariant IsIndex(list[..n], index)
    {
      assert list[..n + 1][..n] == list[..n];
      var k := DeviceKeyOf(list[n]);
      index := index[k := (if k in index then index[k] else []) + [n]];
    }
    assert list[..|list|] == list;
  }

  /** The entry belongs to the device of the item. */
  predicate Targets(item: Item, s: DeviceStatus)
    requires item.device != null
  {
    DeviceKeyOf(s) == DeviceKey(DRIVER_NAME, item.device.info.pool, item.device.info.deviceName)
  }

  function Updated(item: Item, s: DeviceStatus): DeviceStatus {
    s.(networkData := item.networkData, data := if item.combined.Some? then item.combined else s.data)
  }

  /** The specification by a scan: rewrite every entry of the item's device. */
  function Rewritten(list: Statuses, item: Item): (r: Statuses)
    requires item.device != null
    ensures |r| == |list|
    ensures forall i :: 0 <= i < |list| ==> r[i] == if Targets(item, list[i]) then Updated(item, list[i]) else list[i]
  {
    if list == [] then []
    else
      var last := list[|list| - 1];
      Rewritten(list[..|list| - 1], item) + [if Targets(item, last) then Updated(item, last) else last]
  }

  function RewrittenAll(list: Statuses, items: seq<Item>): (r: Statuses)
    requires forall i :: 0 <= i < |items| ==> items[i].device != null
    ensures |r| == |list|
    ensures forall i :: 0 <= i < |list| ==> DeviceKeyOf(r[i]) == DeviceKeyOf(list[i])
  {
    if items == [] then list else Rewritten(RewrittenAll(list, items[..|items| - 1]), items[|items| - 1])
  }

  /** Some item has an entry to write. */
  ghost predicate Hits(list: Statuses, items: seq<Item>) {
    exists k, i :: 0 <= k < |items| && 0 <= i < |list| && items[k].device != null && Targets(items[k], list[i])
  }

  class ClaimObject {
    const uid: string
    var devices: Statuses

    constructor (uid: string, devices: Statuses)
      ensures this.uid == uid && this.devices == devices
    {
      this.uid, this.devices := uid, devices;
    }

    /** Rewrites the indexed entries in place; the index stays valid. */
    method UpdateClaimDeviceStatus(index: map<DeviceKey, seq<nat>>, item: Item) returns (updated: bool)
      requires IsIndex(devices, index) && item.device != null
      modifies this
      ensures devices == Rewritten(old(devices), item)
      ensures IsIndex(devices, index)
      ensures updated <==> exists i :: 0 <= i < |devices| && Targets(item, devices[i])
    {
      var key := DeviceKey(DRIVER_NAME, item.device.info.pool, item.device.info.deviceName);
      if key !in index {
        PositionsExact(devices, key);
        assert forall i :: 0 <= i < |devices| && Targets(item, devices[i]) ==> i in Positions(devices, key);
        assert devices == Rewritten(devices, item);
        return false;
      }
      var at := index[key];
      PositionsExact(devices, key);
      for n := 0 to |at|
        invariant |devices| == |old(devices)|
        invariant forall i :: 0 <= i < |devices| ==>
                    devices[i] == if i in at[..n] then Updated(item, old(devices)[i]) else old(devices)[i]
      {
        assert at[n] in at && at[..n + 1] == at[..n] + [at[n]];
        assert at[n] !in at[..n];
        devices := devices[at[n] := Updated(item, devices[at[n]])];
      }
      RewrittenByIndex(old(devices), devices, item, key, at);
      IndexSurvives(old(devices), item, index);
      return true;
    }
  }

  /** Updating the indexed positions is the scan. */
  lemma RewrittenByIndex(before: Statuses, after: Statuses, item: Item, key: DeviceKey, at: seq<nat>)
    requires item.device != null && key == DeviceKey(DRIVER_NAME, item.device.info.pool, item.device.info.deviceName)
    requires at == Positions(before, key) && at != [] && |after| == |before|
    requires forall i :: 0 <= i < |after| ==> after[i] == if i in at[..|at|] then Updated(item, before[i])
             else before[i]
    ensures after == Rewritten(before, item)
    ensures exists i :: 0 <= i < |after| && Targets(item, after[i])
  {
    assert at[..|at|] == at;
    PositionsExact(before, key);
    assert at[0] in at;
    assert Targets(item, after[at[0]]);
  }

  /** Rewriting changes no key, so an index stays valid. */
  lemma IndexSurvives(list: Statuses, item: Item, index: map<DeviceKey, seq<nat>>)
    requires item.device != null && IsIndex(list, index)
    ensures IsIndex(Rewritten(list, item), index)
  {
    forall k: DeviceKey
      ensures Positions(Rewritten(list, item), k) == Positions(list, k)
    {
      SamePositions(Rewritten(list, item), list, k);
    }
  }

  // ----- Only own entries change -----

  lemma {:induction false} RewriteKeepsForeign(list: Statuses, item: Item)
    requires item.device != null
    ensures Foreign(Rewritten(list, item), DRIVER_NAME) == Foreign(list, DRIVER_NAME)
  {
    if list != [] {
      RewriteKeepsForeign(list[..|list| - 1], item);
      var r := Rewritten(list, item);
      assert r[..|list| - 1] == Rewritten(list[..|list| - 1], item);
    }
  }

  lemma {:induction false} RewritesKeepForeign(list: Statuses, items: seq<Item>)
    requires forall i :: 0 <= i < |items| ==> items[i].device != null
    ensures Foreign(RewrittenAll(list, items), DRIVER_NAME) == Foreign(list, DRIVER_NAME)
  {
    if items != [] {
      RewritesKeepForeign(list, items[..|items| - 1]);
      RewriteKeepsForeign(RewrittenAll(list, items[..|items| - 1]), items[|items| - 1]);
    }
  }

  /** A fetched claim that was only rewritten is fit for the status retry loop. */
  lemma BatchIsOwnOnly(s: StatusRetry.Server, c: StatusRetry.Claim, items: seq<Item>)
    requires forall i :: 0 <= i < |items| ==> items[i].device != null
    requires s.live == Some(c) && StatusRetry.ValidServer(s)
    ensures StatusRetry.EditedOwnOnly(s, c.(devices := RewrittenAll(c.devices, items)), DRIVER_NAME)
  {
    RewritesKeepForeign(c.devices, items);
  }

  // ----- Batches as functions of the script -----

  /** `Persisted` is logged when a checkpoint write that followed setting the data succeeded, with
      the table of that moment and the file it left; `Published` when a claim is handed to the
      status retry loop. */
  datatype Event =
    | Persisted(item: Item, table: Table, onDisk: Snapshot)
    | Published(key: ClaimKey, uid: string, fetched: Statuses, devices: Statuses)

  /** The store and the rewritten list after some items, the items whose data was persisted, and
      what was logged. */
  datatype Applying = Applying(store: Store, devices: Statuses, persisted: seq<Item>, events: seq<Event>)

  ghost predicate Attached(items: seq<Item>) { forall i :: 0 <= i < |items| ==> items[i].device != null }

  /** The store after network data is set on a device and the checkpoint is written, or not. */
  function Persisting(e: Script, s: Store, item: Item): Store
    requires item.device != null
  {
    Synced(e, s.(data := s.data[item.device := item.networkData]))
  }

  /** The items in order: one whose data cannot be persisted is skipped. */
  ghost function ApplyingItems(e: Script, s: Store, devices: Statuses, items: seq<Item>): (a: Applying)
    requires Attached(items)
    ensures Attached(a.persisted)
    decreases |items|
  {
    if items == [] then Applying(s, devices, [], []) else
    var t := Persisting(e, s, items[0]);
    if e(s.tick).error then ApplyingItems(e, t, devices, items[1..]) else
    var rest := ApplyingItems(e, t, Rewritten(devices, items[0]), items[1..]);
    Applying(rest.store, rest.devices, [items[0]] + rest.persisted,
             [Persisted(items[0], t.table, t.file.value)] + rest.events)
  }

  datatype Updating = Updating(store: Store, events: seq<Event>)

  /** The items of one fetched claim; it is published if some entry was rewritten. */
  ghost function UpdatingClaim(e: Script, s: Store, key: ClaimKey, uid: string, fetched: Statuses,
                               items: seq<Item>): Updating
    requires Attached(items)
  {
    var a := ApplyingItems(e, s, fetched, items);
    Updating(a.store, a.events + if Hits(fetched, a.persisted) then [Published(key, uid, fetched, a.devices)] else [])
  }

  /** The claims that could be fetched by name, with their UID and status. */
  type Fetched = map<ClaimKey, (string, Statuses)>

  /** A claim recreated under another UID is not the one that was prepared. */
  predicate Fetchable(fetch: Fetched, key: ClaimKey) { key in fetch && (key.uid == "" || fetch[key].0 == key.uid) }

  /** The claims of a batch in the order in which map iteration visits them. */
  ghost function UpdatingBatch(e: Script, s: Store, queue: Queue, fetch: Fetched, order: seq<ClaimKey>): Updating
    decreases |order|
  {
    if order == [] then Updating(s, []) else
    var key := order[0];
    if !Fetchable(fetch, key) then UpdatingBatch(e, s, queue, fetch, order[1..]) else
    var first := UpdatingClaim(e, s, key, fetch[key].0, fetch[key].1, ItemsOf(queue, key));
    var rest := UpdatingBatch(e, first.store, queue, fetch, order[1..]);
    Updating(rest.store, first.events + rest.events)
  }

  /** Every claim of the queue is visited once. */
  ghost predicate Visits(queue: Queue, order: seq<ClaimKey>) {
    && (forall key :: key in order <==> ItemsOf(queue, key) != [])
    && (forall i, j :: 0 <= i < j < |order| ==> order[i] != order[j])
  }

  // ----- Persist before publish -----

  /** Wherever the store holds the item's device, the file has its network data. */
  ghost predicate OnDisk(t: Table, item: Item, onDisk: Snapshot) {
    forall p, c, k :: p in t && c in t[p] && 0 <= k < |t[p][c]| && t[p][c][k] == item.device ==>
      p in onDisk && c in onDisk[p] && k < |onDisk[p][c]| && onDisk[p][c][k].networkData == item.networkData
  }

  /** The items belong to devices that were prepared for the claim. */
  ghost predicate OfClaim(items: seq<Item>, key: ClaimKey) {
    forall i :: 0 <= i < |items| ==> items[i].device != null && ClaimOf(items[i]) == key
  }

  /** Only data of this claim was persisted. */
  ghost predicate OnlyPersisted(events: seq<Event>, key: ClaimKey) {
    (forall i :: 0 <= i < |events| ==> events[i].Persisted?) && OfClaim(ItemsIn(events), key)
  }

  /** The list is the fetched one, rewritten by exactly the items that were persisted since `k`,
      all of them for this claim, and some entry was rewritten. */
  ghost predicate BackedSince(earlier: seq<Event>, k: nat, key: ClaimKey, fetched: Statuses, devices: Statuses) {
    && k <= |earlier| && OnlyPersisted(earlier[k..], key)
    && devices == RewrittenAll(fetched, ItemsIn(earlier[k..])) && Hits(fetched, ItemsIn(earlier[k..]))
  }

  /** What an event promises, given what was logged before it. */
  ghost predicate Sound(earlier: seq<Event>, e: Event) {
    match e
    case Persisted(item, table, onDisk) => OnDisk(table, item, onDisk)
    case Published(key, uid, fetched, devices) =>
      (key.uid == "" || uid == key.uid) && exists k :: BackedSince(earlier, k, key, fetched, devices)
  }

  ghost predicate AllSound(log: seq<Event>) { forall j :: 0 <= j < |log| ==> Sound(log[..j], log[j]) }

  lemma OneMoreSound(log: seq<Event>, e: Event)
    requires AllSound(log) && Sound(log, e)
    ensures AllSound(log + [e])
  {
    var more := log + [e];
    forall j | 0 <= j < |more|
      ensures Sound(more[..j], more[j])
    {
      assert more[..j] == log[..j];
      if j == |log| {
        assert log[..j] == log;
      }
    }
  }

  /** A checkpoint written after the data was set has it wherever the device is stored. */
  lemma PersistedIsOnDisk(t: Table, data: map<PreparedDevice, Option<string>>, item: Item)
    requires item.device != null && item.device in data && data[item.device] == item.networkData
    ensures OnDisk(t, item, SnapshotIn(t, data))
  {
  }

  /** So every published entry is as fetched, or carries the data of a persisted item of its device. */
  lemma {:induction false} EntryIsBacked(fetched: Statuses, items: seq<Item>, i: nat)
    requires Attached(items) && i < |fetched|
    ensures var entry := RewrittenAll(fetched, items)[i];
            entry == fetched[i] ||
            exists k :: 0 <= k < |items| && Targets(items[k], entry) && entry.networkData == items[k].networkData
  {
    if items != [] {
      var n := |items| - 1;
      var front := RewrittenAll(fetched, items[..n]);
      EntryIsBacked(fetched, items[..n], i);
      if Targets(items[n], front[i]) {
        assert Targets(items[n], Updated(items[n], front[i]));
      } else if front[i] != fetched[i] {
        var k :| 0 <= k < n && Targets(items[..n][k], front[i]) && front[i].networkData == items[..n][k].networkData;
        assert items[k] == items[..n][k];
      }
    }
  }

  /** The items that the log says were persisted, in order. */
  function ItemsIn(events: seq<Event>): seq<Item> {
    if events == [] then [] else (if events[0].Persisted? then [events[0].item] else []) + ItemsIn(events[1..])
  }

  /** The items that were persisted are the ones whose checkpoint write succeeded, and the log
      says so in order. */
  lemma {:induction false} PersistedExactly(e: Script, s: Store, devices: Statuses, items: seq<Item>, a: Applying)
    requires Attached(items) && a == ApplyingItems(e, s, devices, items)
    ensures a.persisted == ItemsIn(a.events) && a.persisted == Succeeded(e, s.tick, items)
    decreases |items|
  {
    if items != [] {
      var item, t, others := items[0], Persisting(e, s, items[0]), items[1..];
      if e(s.tick).error {
        PersistedExactly(e, t, devices, others, a);
      } else {
        var rest := ApplyingItems(e, t, Rewritten(devices, item), others);
        PersistedExactly(e, t, Rewritten(devices, item), others, rest);
        assert a.events[1..] == rest.events;
      }
    }
  }

  /** The published list is the fetched one rewritten by exactly the persisted items, in order. */
  lemma {:induction false} AppliedExactly(e: Script, s: Store, devices: Statuses, items: seq<Item>, a: Applying)
    requires Attached(items) && a == ApplyingItems(e, s, devices, items)
    ensures a.devices == RewrittenAll(devices, a.persisted)
    decreases |items|
  {
    if items != [] {
      var item, t, others := items[0], Persisting(e, s, items[0]), items[1..];
      if e(s.tick).error {
        AppliedExactly(e, t, devices, others, a);
      } else {
        var rest := ApplyingItems(e, t, Rewritten(devices, item), others);
        AppliedExactly(e, t, Rewritten(devices, item), others, rest);
        RewrittenFirst(devices, item, rest.persisted);
      }
    }
  }

  /** The items whose access does not fail. */
  ghost function Succeeded(e: Script, tick: nat, items: seq<Item>): seq<Item>
    decreases |items|
  {
    if items == [] then [] else (if e(tick).error then [] else [items[0]]) + Succeeded(e, tick + 1, items[1..])
  }

  lemma {:induction false} RewrittenFirst(list: Statuses, item: Item, items: seq<Item>)
    requires item.device != null && Attached(items)
    ensures RewrittenAll(list, [item] + items) == RewrittenAll(Rewritten(list, item), items)
  {
    var all := [item] + items;
    assert Attached(all);
    if items == [] {
      assert all == [item] && all[..0] == [];
    } else {
      var n := |items| - 1;
      assert all[..|all| - 1] == [item] + items[..n] && all[|all| - 1] == items[n];
      RewrittenFirst(list, item, items[..n]);
    }
  }

  lemma {:induction false} ItemsInMore(events: seq<Event>, e: Event)
    ensures ItemsIn(events + [e]) == ItemsIn(events) + if e.Persisted? then [e.item] else []
  {
    var more := events + [e];
    if events == [] {
      assert more == [e] && more[1..] == [];
    } else {
      var rest, here := events[1..], if events[0].Persisted? then [events[0].item] else [];
      var last := if e.Persisted? then [e.item] else [];
      assert more[0] == events[0] && more[1..] == rest + [e];
      ItemsInMore(rest, e);
      assert ItemsIn(more) == here + (ItemsIn(rest) + last);
      assert here + (ItemsIn(rest) + last) == (here + ItemsIn(rest)) + last;
    }
  }

  // ----- Runs of the updater, step by step -----

  /** A fetched claim that the updater is working on: the list so far, the items that were persisted,
      those still to come, and where the log stood when it began. */
  datatype Work = Work(key: ClaimKey, uid: string, fetched: Statuses, devices: Statuses, persisted: seq<Item>,
                       rest: seq<Item>, start: nat)

  /** The store, everything logged so far, and the claim at work. */
  datatype Net = Net(store: Store, log: seq<Event>, work: Option<Work>)

  /** The updater fetches a claim, handles its next item, or finishes it. Between any two of these
      steps the hooks may send requests to the store. */
  datatype Action =
    | Fetch(key: ClaimKey, uid: string, fetched: Statuses, items: seq<Item>)
    | Next
    | Finish
    | StoreRequest(request: Request, pod: string)

  /** An action that is not possible does nothing. */
  ghost function Acted(e: Script, net: Net, action: Action): Net {
    match action
    case StoreRequest(request, pod) => net.(store := Served(e, net.store, request, pod))
    case Fetch(key, uid, fetched, items) =>
      if net.work.None? && OfClaim(items, key) && (key.uid == "" || uid == key.uid)
      then net.(work := Some(Work(key, uid, fetched, fetched, [], items, |net.log|))) else net
    case Next =>
      if net.work.Some? && net.work.value.rest != [] && net.work.value.rest[0].device != null
      then Handled(e, net, net.work.value) else net
    case Finish =>
      if net.work.Some? && net.work.value.rest == [] then Finished(net, net.work.value) else net
  }

  /** The next item is persisted and, only then, written into the list. */
  ghost function Handled(e: Script, net: Net, work: Work): Net
    requires work.rest != [] && work.rest[0].device != null
  {
    var item, t := work.rest[0], Persisting(e, net.store, work.rest[0]);
    var w := work.(rest := work.rest[1..]);
    if e(net.store.tick).error then Net(t, net.log, Some(w))
    else Net(t, net.log + [Persisted(item, t.table, t.file.value)],
             Some(w.(devices := Rewritten(work.devices, item), persisted := work.persisted + [item])))
  }

  /** The claim is published if some entry was rewritten. */
  ghost function Finished(net: Net, work: Work): Net {
    var event := Published(work.key, work.uid, work.fetched, work.devices);
    Net(net.store, net.log + if Hits(work.fetched, work.persisted) then [event] else [], None)
  }

  ghost function RunOf(e: Script, net: Net, actions: seq<Action>): Net
    decreases |actions|
  {
    if actions == [] then net else RunOf(e, Acted(e, net, actions[0]), actions[1..])
  }

  /** The work at hand is backed by what was logged since it began. */
  ghost predicate InStep(log: seq<Event>, work: Work) {
    && work.start <= |log| && OfClaim(work.rest, work.key) && (work.key.uid == "" || work.uid == work.key.uid)
    && OnlyPersisted(log[work.start..], work.key) && work.persisted == ItemsIn(log[work.start..])
    && work.devices == RewrittenAll(work.fetched, work.persisted)
  }

  ghost predicate Good(net: Net) { AllSound(net.log) && (net.work.Some? ==> InStep(net.log, net.work.value)) }

  lemma RewrittenOneMore(list: Statuses, items: seq<Item>, item: Item)
    requires Attached(items) && item.device != null
    ensures Attached(items + [item])
    ensures RewrittenAll(list, items + [item]) == Rewritten(RewrittenAll(list, items), item)
  {
    assert (items + [item])[..|items|] == items;
  }

  /** One more persisted item since the claim was fetched. */
  lemma SinceOneMore(log: seq<Event>, start: nat, event: Event, key: ClaimKey)
    requires start <= |log| && OnlyPersisted(log[start..], key)
    requires event.Persisted? && event.item.device != null && ClaimOf(event.item) == key
    ensures OnlyPersisted((log + [event])[start..], key)
    ensures ItemsIn((log + [event])[start..]) == ItemsIn(log[start..]) + [event.item]
  {
    assert (log + [event])[start..] == log[start..] + [event];
    ItemsInMore(log[start..], event);
  }

  /** It keeps the work in step with the log. */
  lemma InStepOneMore(log: seq<Event>, work: Work, event: Event, now: Work)
    requires InStep(log, work) && work.rest != [] && event.Persisted? && event.item == work.rest[0]
    requires now == work.(rest := work.rest[1..], devices := Rewritten(work.devices, event.item),
                          persisted := work.persisted + [event.item])
    ensures InStep(log + [event], now)
  {
    SinceOneMore(log, work.start, event, work.key);
    RewrittenOneMore(work.fetched, work.persisted, event.item);
  }

  lemma HandledIsGood(e: Script, net: Net, work: Work)
    requires Good(net) && net.work == Some(work) && work.rest != []
    ensures Good(Handled(e, net, work)) && net.log <= Handled(e, net, work).log
  {
    if !e(net.store.tick).error {
      var item, t := work.rest[0], Persisting(e, net.store, work.rest[0]);
      var event := Persisted(item, t.table, t.file.value);
      PersistedIsOnDisk(t.table, t.data, item);
      OneMoreSound(net.log, event);
      InStepOneMore(net.log, work, event, Handled(e, net, work).work.value);
    }
  }

  lemma FinishedIsGood(net: Net, work: Work)
    requires Good(net) && net.work == Some(work)
    ensures Good(Finished(net, work)) && net.log <= Finished(net, work).log
  {
    if Hits(work.fetched, work.persisted) {
      assert BackedSince(net.log, work.start, work.key, work.fetched, work.devices);
      OneMoreSound(net.log, Published(work.key, work.uid, work.fetched, work.devices));
    } else {
      assert net.log + [] == net.log;
    }
  }

  /** Persist before publish, in every run of the updater with arbitrary requests to the store between
      any two of its steps: what is published is the fetched list rewritten by exactly the items of that
      claim whose data a checkpoint write had persisted before, never for a claim under another UID. */
  lemma {:induction false} PersistBeforePublish(e: Script, net: Net, actions: seq<Action>)
    requires Good(net)
    ensures Good(RunOf(e, net, actions)) && net.log <= RunOf(e, net, actions).log
    decreases |actions|
  {
    if actions != [] {
      var next := Acted(e, net, actions[0]);
      ActedIsGood(e, net, actions[0], next);
      PersistBeforePublish(e, next, actions[1..]);
    }
  }

  lemma ActedIsGood(e: Script, net: Net, action: Action, next: Net)
    requires Good(net) && next == Acted(e, net, action)
    ensures Good(next) && net.log <= next.log
  {
    match action
    case StoreRequest(_, _) =>
    case Fetch(key, uid, fetched, items) =>
      assert net.log[|net.log|..] == [];
    case Next =>
      if next != net {
        HandledIsGood(e, net, net.work.value);
      }
    case Finish =>
      if next != net {
        FinishedIsGood(net, net.work.value);
      }
  }

  // ----- A batch is such a run -----

  lemma {:induction false} RunConcat(e: Script, net: Net, a: seq<Action>, b: seq<Action>)
    ensures RunOf(e, net, a + b) == RunOf(e, RunOf(e, net, a), b)
    decreases |a|
  {
    if a == [] {
      assert a + b == b;
    } else {
      assert (a + b)[0] == a[0] && (a + b)[1..] == a[1..] + b;
      RunConcat(e, Acted(e, net, a[0]), a[1..], b);
    }
  }

  lemma Chain(e: Script, net: Net, a: seq<Action>, mid: Net, b: seq<Action>, end: Net)
    requires RunOf(e, net, a) == mid && RunOf(e, mid, b) == end
    ensures RunOf(e, net, a + b) == end
  {
    RunConcat(e, net, a, b);
  }

  function Nexts(n: nat): seq<Action> { if n == 0 then [] else [Next] + Nexts(n - 1) }

  /** The items of a claim without interruption. */
  lemma {:induction false} ItemsAreARun(e: Script, s: Store, log: seq<Event>, work: Work, a: Applying)
    requires Attached(work.rest) && a == ApplyingItems(e, s, work.devices, work.rest)
    ensures RunOf(e, Net(s, log, Some(work)), Nexts(|work.rest|)) ==
            Net(a.store, log + a.events, Some(work.(devices := a.devices, persisted := work.persisted + a.persisted,
                                                    rest := [])))
    decreases |work.rest|
  {
    var net := Net(s, log, Some(work));
    if work.rest == [] {
      assert log + [] == log && work.persisted + [] == work.persisted;
    } else {
      var next := Handled(e, net, work);
      assert Nexts(|work.rest|)[1..] == Nexts(|work.rest| - 1);
      assert RunOf(e, net, Nexts(|work.rest|)) == RunOf(e, next, Nexts(|work.rest| - 1));
      var rest := ApplyingItems(e, next.store, next.work.value.devices, work.rest[1..]);
      ItemsAreARun(e, next.store, next.log, next.work.value, rest);
      HandledFirst(e, s, log, work, a, rest);
    }
  }

  lemma HandledFirst(e: Script, s: Store, log: seq<Event>, work: Work, a: Applying, rest: Applying)
    requires Attached(work.rest) && work.rest != [] && a == ApplyingItems(e, s, work.devices, work.rest)
    requires var next := Handled(e, Net(s, log, Some(work)), work);
             rest == ApplyingItems(e, next.store, next.work.value.devices, work.rest[1..])
    ensures var next := Handled(e, Net(s, log, Some(work)), work);
            && a.store == rest.store && a.devices == rest.devices && log + a.events == next.log + rest.events
            && work.persisted + a.persisted == next.work.value.persisted + rest.persisted
  {
    if !e(s.tick).error {
      var item, t := work.rest[0], Persisting(e, s, work.rest[0]);
      var event := Persisted(item, t.table, t.file.value);
      assert log + ([event] + rest.events) == (log + [event]) + rest.events;
      assert work.persisted + ([item] + rest.persisted) == (work.persisted + [item]) + rest.persisted;
    }
  }

  function ClaimSteps(key: ClaimKey, uid: string, fetched: Statuses, items: seq<Item>): seq<Action> {
    [Fetch(key, uid, fetched, items)] + (Nexts(|items|) + [Finish])
  }

  lemma ClaimIsARun(e: Script, s: Store, log: seq<Event>, key: ClaimKey, uid: string, fetched: Statuses,
                    items: seq<Item>)
    requires OfClaim(items, key) && (key.uid == "" || uid == key.uid)
    ensures var u := UpdatingClaim(e, s, key, uid, fetched, items);
            RunOf(e, Net(s, log, None), ClaimSteps(key, uid, fetched, items)) == Net(u.store, log + u.events, None)
  {
    var net, work := Net(s, log, None), Work(key, uid, fetched, fetched, [], items, |log|);
    var a, steps := ApplyingItems(e, s, fetched, items), ClaimSteps(key, uid, fetched, items);
    var begun := Net(s, log, Some(work));
    assert steps[0] == Fetch(key, uid, fetched, items) && steps[1..] == Nexts(|items|) + [Finish];
    assert Acted(e, net, steps[0]) == begun;
    RunConcat(e, begun, Nexts(|items|), [Finish]);
    ItemsAreARun(e, s, log, work, a);
    assert [] + a.persisted == a.persisted;
    var done := Net(a.store, log + a.events, Some(work.(devices := a.devices, persisted := a.persisted, rest := [])));
    assert RunOf(e, done, [Finish]) == Acted(e, done, Finish) by {
      assert [Finish][1..] == [];
    }
    var event := Published(key, uid, fetched, a.devices);
    assert (log + a.events) + [event] == log + (a.events + [event]);
    assert (log + a.events) + [] == log + (a.events + []);
  }

  function BatchSteps(queue: Queue, fetch: Fetched, order: seq<ClaimKey>): seq<Action>
    decreases |order|
  {
    if order == [] then []
    else if !Fetchable(fetch, order[0]) then BatchSteps(queue, fetch, order[1..])
    else
      var key := order[0];
      ClaimSteps(key, fetch[key].0, fetch[key].1, ItemsOf(queue, key)) + BatchSteps(queue, fetch, order[1..])
  }

  /** A batch is a run of the updater without requests in between. */
  lemma {:induction false} BatchIsARun(e: Script, s: Store, queue: Queue, fetch: Fetched, order: seq<ClaimKey>,
                                       log: seq<Event>)
    ensures var u := UpdatingBatch(e, s, queue, fetch, order);
            RunOf(e, Net(s, log, None), BatchSteps(queue, fetch, order)) == Net(u.store, log + u.events, None)
    decreases |order|
  {
    if order == [] {
      assert log + [] == log;
    } else if !Fetchable(fetch, order[0]) {
      BatchIsARun(e, s, queue, fetch, order[1..], log);
    } else {
      var key, later := order[0], order[1..];
      var uid, fetched, items := fetch[key].0, fetch[key].1, ItemsOf(queue, key);
      var first := UpdatingClaim(e, s, key, uid, fetched, items);
      var rest := UpdatingBatch(e, first.store, queue, fetch, later);
      ClaimIsARun(e, s, log, key, uid, fetched, items);
      BatchIsARun(e, first.store, queue, fetch, later, log + first.events);
      assert (log + first.events) + rest.events == log + (first.events + rest.events);
      Chain(e, Net(s, log, None), ClaimSteps(key, uid, fetched, items), Net(first.store, log + first.events, None),
            BatchSteps(queue, fetch, later), Net(rest.store, log + (first.events + rest.events), None));
    }
  }

  /** So a batch keeps the log sound. */
  lemma BatchIsSound(e: Script, s: Store, queue: Queue, fetch: Fetched, order: seq<ClaimKey>, log: seq<Event>)
    requires AllSound(log)
    ensures AllSound(log + UpdatingBatch(e, s, queue, fetch, order).events)
  {
    BatchIsARun(e, s, queue, fetch, order, log);
    PersistBeforePublish(e, Net(s, log, None), BatchSteps(queue, fetch, order));
  }

  // ----- The operations -----

  ghost function QueueDevices(queue: Queue): set<PreparedDevice> {
    set i | 0 <= i < |queue| && Usable(queue[i]) :: queue[i].value.device
  }

  ghost predicate Among(items: seq<Item>, devices: set<PreparedDevice>) {
    forall i :: 0 <= i < |items| ==> items[i].device != null && items[i].device in devices
  }

  class Plugin {
    const pods: PodManager
    const env: Environment
    var log: seq<Event>

    constructor (pods: PodManager)
      ensures this.pods == pods && env == pods.env && log == []
    {
      this.pods, this.env, log := pods, pods.env, [];
    }

    ghost predicate Wired() { env == pods.env }

    /** Persists the network data of one device; the event is logged only on success. */
    method Persist(item: Item, ghost devices: set<PreparedDevice>) returns (ok: bool)
      requires Wired() && item.device != null && item.device in devices && TableObjects(pods.prepared) <= devices
      modifies this`log, pods, env, devices
      ensures ok == !env.script(old(env.tick)).error && pods.prepared == old(pods.prepared)
      ensures ViewOf(pods, devices) == Persisting(env.script, old(ViewOf(pods, devices)), item)
      ensures log == old(log) + if ok then [Persisted(item, pods.prepared, pods.checkpoint.value)] else []
    {
      ok := pods.UpdatePreparedDeviceNetworkData(item.device, item.networkData);
      assert DataOf(devices) == old(DataOf(devices))[item.device := item.networkData];
      SnapshotIsInData(pods.prepared, devices);
      if ok {
        log := log + [Persisted(item, pods.prepared, pods.checkpoint.value)];
      }
    }

    /** Persists one item and, only then, writes it into the fetched claim. */
    method ApplyItem(claim: ClaimObject, index: map<DeviceKey, seq<nat>>, item: Item,
                     ghost devices: set<PreparedDevice>, ghost rest: seq<Item>)
      returns (updated: bool, ghost persisted: seq<Item>, ghost events: seq<Event>)
      requires item.device != null && Among([item] + rest, devices)
      requires Wired() && TableObjects(pods.prepared) <= devices && IsIndex(claim.devices, index)
      modifies this`log, pods, env, devices, claim
      ensures pods.prepared == old(pods.prepared) && IsIndex(claim.devices, index) &&
              SameKeys(old(claim.devices), claim.devices)
      ensures log == old(log) + events && (updated <==> Hits(old(claim.devices), persisted))
      ensures ApplyingItems(env.script, old(ViewOf(pods, devices)), old(claim.devices), [item] + rest) ==
              Resumed(events, persisted, ApplyingItems(env.script, ViewOf(pods, devices), claim.devices, rest))
    {
      updated, persisted, events := false, [], [];
      assert ([item] + rest)[0] == item && ([item] + rest)[1..] == rest;
      var ok := Persist(item, devices);
      if ok {
        updated := claim.UpdateClaimDeviceStatus(index, item);
        events, persisted := [Persisted(item, pods.prepared, pods.checkpoint.value)], [item];
        HitsOne(old(claim.devices), claim.devices, item);
      }
    }

    /** Applies items in order. */
    method ApplyItems(claim: ClaimObject, index: map<DeviceKey, seq<nat>>, items: seq<Item>,
                      ghost devices: set<PreparedDevice>)
      returns (hasUpdates: bool, ghost persisted: seq<Item>, ghost events: seq<Event>)
      requires Wired() && Among(items, devices) && TableObjects(pods.prepared) <= devices &&
               IsIndex(claim.devices, index)
      modifies this`log, pods, env, devices, claim
      ensures pods.prepared == old(pods.prepared) && log == old(log) + events
      ensures Applying(ViewOf(pods, devices), claim.devices, persisted, events) ==
              ApplyingItems(env.script, old(ViewOf(pods, devices)), old(claim.devices), items)
      ensures hasUpdates <==> Hits(old(claim.devices), persisted)
    {
      persisted, hasUpdates, events := [], false, [];
      ghost var whole, fetched := ApplyingItems(env.script, ViewOf(pods, devices), claim.devices, items), claim.devices;
      assert items[0..] == items;
      for i := 0 to |items|
        invariant pods.prepared == old(pods.prepared) && IsIndex(claim.devices, index) && log == old(log) + events
        invariant whole == Resumed(events, persisted, ApplyingItems(env.script, ViewOf(pods, devices), claim.devices,
                                                                    items[i..]))
        invariant SameKeys(fetched, claim.devices) && (hasUpdates <==> Hits(fetched, persisted))
      {
        assert items[i..] == [items[i]] + items[i + 1..];
        var updated;
        ghost var before, kept, more := claim.devices, [], [];
        updated, kept, more := ApplyItem(claim, index, items[i], devices, items[i + 1..]);
        ghost var rest := ApplyingItems(env.script, ViewOf(pods, devices), claim.devices, items[i + 1..]);
        ResumedTwice(events, persisted, more, kept, rest);
        HitsMore(fetched, before, persisted, kept);
        assert log == old(log) + (events + more);
        hasUpdates, persisted, events := hasUpdates || updated, persisted + kept, events + more;
      }
    }

    /** Applies the updates of one fetched claim and publishes it if an entry was rewritten. */
    method UpdateClaim(key: ClaimKey, items: seq<Item>, uid: string, fetched: Statuses,
                       ghost devices: set<PreparedDevice>)
      returns (ghost events: seq<Event>)
      requires Wired() && Among(items, devices) && TableObjects(pods.prepared) <= devices
      modifies this`log, pods, env, devices
      ensures pods.prepared == old(pods.prepared) && log == old(log) + events
      ensures Updating(ViewOf(pods, devices), events) ==
                UpdatingClaim(env.script, old(ViewOf(pods, devices)), key, uid, fetched, items)
    {
      var claim := new ClaimObject(uid, fetched);
      var index := BuildClaimStatusDeviceIndex(fetched);
      var hasUpdates;
      ghost var persisted;
      hasUpdates, persisted, events := ApplyItems(claim, index, items, devices);
      if hasUpdates {
        log := log + [Published(key, uid, fetched, claim.devices)];
        events := events + [Published(key, uid, fetched, claim.devices)];
      }
    }

    /** One batch of the updater. `fetch` holds the claims that could be fetched by name; a claim
        recreated under another UID is skipped. The log stays sound: what is published was
        persisted before. */
    method UpdateNetworkDeviceData(queue: Queue, fetch: Fetched, ghost devices: set<PreparedDevice>)
      returns (order: seq<ClaimKey>, ghost events: seq<Event>)
      requires Wired() && QueueDevices(queue) <= devices && TableObjects(pods.prepared) <= devices
      modifies this`log, pods, env, devices
      ensures pods.prepared == old(pods.prepared) && Visits(queue, order) && log == old(log) + events
      ensures Updating(ViewOf(pods, devices), events) ==
                UpdatingBatch(env.script, old(ViewOf(pods, devices)), queue, fetch, order)
      ensures AllSound(old(log)) ==> AllSound(log)
    {
      var groups := GroupNetworkDataByClaim(queue);
      order := SomeOrder(groups.Keys);
      if AllSound(log) {
        BatchIsSound(env.script, ViewOf(pods, devices), queue, fetch, order, log);
      }
      events := UpdateInOrder(groups, order, queue, fetch, devices);
    }

    method UpdateInOrder(groups: map<ClaimKey, seq<Item>>, order: seq<ClaimKey>, ghost queue: Queue, fetch: Fetched,
                         ghost devices: set<PreparedDevice>)
      returns (ghost events: seq<Event>)
      requires Wired() && QueueDevices(queue) <= devices && TableObjects(pods.prepared) <= devices
      requires forall i :: 0 <= i < |order| ==> order[i] in groups && groups[order[i]] == ItemsOf(queue, order[i])
      modifies this`log, pods, env, devices
      ensures pods.prepared == old(pods.prepared) && log == old(log) + events
      ensures Updating(ViewOf(pods, devices), events) ==
                UpdatingBatch(env.script, old(ViewOf(pods, devices)), queue, fetch, order)
    {
      ghost var whole, before := UpdatingBatch(env.script, ViewOf(pods, devices), queue, fetch, order), log;
      events := [];
      assert order[0..] == order;
      for i := 0 to |order|
        invariant pods.prepared == old(pods.prepared) && log == before + events
        invariant var rest := UpdatingBatch(env.script, ViewOf(pods, devices), queue, fetch, order[i..]);
                  whole == Updating(rest.store, events + rest.events)
      {
        ghost var more := UpdateNext(order[i], groups[order[i]], queue, fetch, devices, order[i + 1..]);
        assert order[i..] == [order[i]] + order[i + 1..];
        ghost var rest := UpdatingBatch(env.script, ViewOf(pods, devices), queue, fetch, order[i + 1..]);
        assert events + (more + rest.events) == (events + more) + rest.events;
        assert log == before + (events + more);
        events := events + more;
      }
    }

    /** The claim that comes next, if it could be fetched and is the one that was prepared. */
    method UpdateNext(key: ClaimKey, items: seq<Item>, ghost queue: Queue, fetch: Fetched,
                      ghost devices: set<PreparedDevice>,
                      ghost later: seq<ClaimKey>)
      returns (ghost events: seq<Event>)
      requires Wired() && QueueDevices(queue) <= devices && TableObjects(pods.prepared) <= devices &&
               items == ItemsOf(queue, key)
      modifies this`log, pods, env, devices
      ensures pods.prepared == old(pods.prepared) && log == old(log) + events
      ensures var rest := UpdatingBatch(env.script, ViewOf(pods, devices), queue, fetch, later);
              UpdatingBatch(env.script, old(ViewOf(pods, devices)), queue, fetch, [key] + later) ==
                Updating(rest.store, events + rest.events)
    {
      events := [];
      assert ([key] + later)[0] == key && ([key] + later)[1..] == later;
      if Fetchable(fetch, key) {
        ItemsAmong(queue, key);
        events := UpdateClaim(key, items, fetch[key].0, fetch[key].1, devices);
      }
    }
  }

  /** Map iteration visits every key once, in some order. */
  method SomeOrder(keys: set<ClaimKey>) returns (order: seq<ClaimKey>)
    ensures forall key :: key in order <==> key in keys
    ensures forall i, j :: 0 <= i < j < |order| ==> order[i] != order[j]
  {
    order := [];
    var left := keys;
    while left != {}
      invariant left <= keys && forall key :: key in order <==> key in keys && key !in left
      invariant forall i, j :: 0 <= i < j < |order| ==> order[i] != order[j]
      decreases left
    {
      var key :| key in left;
      assert forall i :: 0 <= i < |order| ==> order[i] in order;
      order, left := order + [key], left - {key};
    }
  }

  lemma {:induction false} ItemsAmong(queue: Queue, key: ClaimKey)
    ensures Among(ItemsOf(queue, key), QueueDevices(queue))
  {
    if queue != [] {
      var front := queue[..|queue| - 1];
      ItemsAmong(front, key);
      assert QueueDevices(front) <= QueueDevices(queue) by {
        assert forall i :: 0 <= i < |front| ==> front[i] == queue[i];
      }
    }
  }

  lemma ResumedTwice(a: seq<Event>, p: seq<Item>, b: seq<Event>, q: seq<Item>, rest: Applying)
    ensures Resumed(a, p, Resumed(b, q, rest)) == Resumed(a + b, p + q, rest)
  {
    assert a + (b + rest.events) == (a + b) + rest.events && p + (q + rest.persisted) == (p + q) + rest.persisted;
  }

  /** What was done before the rest. */
  ghost function Resumed(events: seq<Event>, persisted: seq<Item>, rest: Applying): Applying {
    Applying(rest.store, rest.devices, persisted + rest.persisted, events + rest.events)
  }

  ghost predicate SameKeys(a: Statuses, b: Statuses) {
    |a| == |b| && forall i :: 0 <= i < |a| ==> DeviceKeyOf(a[i]) == DeviceKeyOf(b[i])
  }

  /** Whether an item has an entry depends on the keys only. */
  lemma HitsOne(list: Statuses, now: Statuses, item: Item)
    requires item.device != null && SameKeys(list, now)
    ensures Hits(list, [item]) <==> exists i :: 0 <= i < |now| && Targets(item, now[i])
  {
    assert [item][0] == item;
    assert forall i :: 0 <= i < |list| ==> (Targets(item, list[i]) <==> Targets(item, now[i]));
  }

  lemma HitsMore(list: Statuses, now: Statuses, items: seq<Item>, more: seq<Item>)
    requires SameKeys(list, now)
    ensures Hits(list, items + more) <==> Hits(list, items) || Hits(now, more)
  {
    var all := items + more;
    assert forall k :: 0 <= k < |items| ==> all[k] == items[k];
    assert forall k :: 0 <= k < |more| ==> all[|items| + k] == more[k];
    assert forall i :: 0 <= i < |list| ==> DeviceKeyOf(list[i]) == DeviceKeyOf(now[i]);
    if Hits(now, more) {
      var k, i :| 0 <= k < |more| && 0 <= i < |now| && more[k].device != null && Targets(more[k], now[i]);
      assert Targets(all[|items| + k], list[i]);
    }
    if Hits(list, all) {
      var k, i :| 0 <= k < |all| && 0 <= i < |list| && all[k].device != null && Targets(all[k], list[i]);
      if k < |items| {
        assert Targets(items[k], list[i]);
      } else {
        assert Targets(more[k - |items|], now[i]);
      }
    }
    if Hits(list, items) {
      var k, i :| 0 <= k < |items| && 0 <= i < |list| && items[k].device != null && Targets(items[k], list[i]);
      assert Targets(all[k], list[i]);
    }
  }
}
