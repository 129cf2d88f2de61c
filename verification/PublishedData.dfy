/** What a batch of network data publishes: which claims, and every field of every entry
    (pkg/nri/nri.go). */
module PublishedData {
  import opened Attributes
  import opened ClaimStatus
  import opened Environment
  import opened NetworkData
  import opened PodManager

  // ----- Every field of an entry -----

  /** The item's device is the one that the entry is about. */
  predicate About(item: Item, s: DeviceStatus) {
    item.device != null && s.driver == DRIVER_NAME &&
    s.pool == item.device.info.pool && s.device == item.device.info.deviceName
  }

  /** Item `k` is the last that is picked. */
  ghost predicate LastPicked(items: seq<Item>, pick: Item -> bool, k: int) {
    0 <= k < |items| && pick(items[k]) && forall j :: k < j < |items| ==> !pick(items[j])
  }

  /** The value that the last picked item gives, and the old one when there is none. */
  ghost predicate GivenByLast(items: seq<Item>, pick: Item -> bool, value: Item -> Option<string>,
                              before: Option<string>, after: Option<string>) {
    && (forall k :: LastPicked(items, pick, k) ==> after == value(items[k]))
    && ((forall k :: 0 <= k < |items| ==> !pick(items[k])) ==> after == before)
  }

  lemma GivenByOneMore(items: seq<Item>, item: Item, pick: Item -> bool, value: Item -> Option<string>,
                       before: Option<string>, mid: Option<string>)
    requires GivenByLast(items, pick, value, before, mid)
    ensures GivenByLast(items + [item], pick, value, before, if pick(item) then value(item) else mid)
  {
    var more, n := items + [item], |items|;
    assert more[n] == item && forall k :: 0 <= k < n ==> more[k] == items[k];
    if pick(item) {
      assert forall k :: LastPicked(more, pick, k) ==> k == n;
    } else {
      assert forall k :: LastPicked(more, pick, k) ==> k < n && LastPicked(items, pick, k);
    }
  }

  /** An entry after some items: the last about it gives the network data, the last of those with
      marshalled data gives the data, and nothing else changes. */
  ghost predicate CarriesLast(items: seq<Item>, before: DeviceStatus, after: DeviceStatus) {
    && after == before.(networkData := after.networkData, data := after.data)
    && GivenByLast(items, (x: Item) => About(x, before), (x: Item) => x.networkData, before.networkData,
                   after.networkData)
    && GivenByLast(items, (x: Item) => About(x, before) && x.combined.Some?, (x: Item) => x.combined, before.data,
                   after.data)
  }

  lemma CarriesOneMore(items: seq<Item>, item: Item, before: DeviceStatus, mid: DeviceStatus, after: DeviceStatus)
    requires CarriesLast(items, before, mid)
    requires after == if About(item, mid)
                      then mid.(networkData := item.networkData,
                                data := if item.combined.Some? then item.combined else mid.data)
                      else mid
    ensures CarriesLast(items + [item], before, after)
  {
    GivenByOneMore(items, item, (x: Item) => About(x, before), (x: Item) => x.networkData, before.networkData,
                   mid.networkData);
    GivenByOneMore(items, item, (x: Item) => About(x, before) && x.combined.Some?, (x: Item) => x.combined,
                   before.data, mid.data);
  }

  lemma NothingCarried(before: DeviceStatus)
    ensures CarriesLast([], before, before)
  {
  }

  lemma {:induction false} EntryExactly(fetched: Statuses, items: seq<Item>, i: nat, entry: DeviceStatus)
    requires Attached(items) && i < |fetched| && entry == RewrittenAll(fetched, items)[i]
    ensures CarriesLast(items, fetched[i], entry)
  {
    if items == [] {
      NothingCarried(fetched[i]);
    } else {
      var front, last := items[..|items| - 1], items[|items| - 1];
      var mid := RewrittenAll(fetched, front)[i];
      EntryExactly(fetched, front, i, mid);
      CarriesOneMore(front, last, fetched[i], mid, entry);
      assert items == front + [last];
    }
  }

  // ----- Which items belong to a claim -----

  /** The items of a claim are those of the queue whose device was prepared for it: its namespace, its
      name and its UID. */
  lemma {:induction false} ItemsOfExactly(queue: Queue, key: ClaimKey, item: Item)
    ensures item in ItemsOf(queue, key) <==>
            && Some(item) in queue && item.device != null
            && item.device.info.claimNamespace == key.namespace && item.device.info.claimName == key.name
            && item.device.info.claimUID == key.uid
  {
    if queue != [] {
      var n := |queue| - 1;
      ItemsOfExactly(queue[..n], key, item);
      assert queue == queue[..n] + [queue[n]];
    }
  }

  // ----- Which claims are published -----

  /** Item `k` of a claim is persisted at tick `tick + k`, and has an entry to write. */
  predicate Writes(e: Script, tick: nat, fetched: Statuses, items: seq<Item>, k: nat, i: nat) {
    k < |items| && i < |fetched| && !e(tick + k).error && About(items[k], fetched[i])
  }

  lemma {:induction false} SucceededAt(e: Script, tick: nat, items: seq<Item>, k: nat) returns (j: nat)
    requires k < |items| && !e(tick + k).error
    ensures j < |Succeeded(e, tick, items)| && Succeeded(e, tick, items)[j] == items[k]
    decreases |items|
  {
    if k == 0 {
      j := 0;
    } else {
      var m := SucceededAt(e, tick + 1, items[1..], k - 1);
      j := if e(tick).error then m else m + 1;
    }
  }

  lemma {:induction false} SucceededFrom(e: Script, tick: nat, items: seq<Item>, j: nat) returns (k: nat)
    requires j < |Succeeded(e, tick, items)|
    ensures k < |items| && !e(tick + k).error && Succeeded(e, tick, items)[j] == items[k]
    decreases |items|
  {
    if e(tick).error {
      var m := SucceededFrom(e, tick + 1, items[1..], j);
      k := m + 1;
    } else if j == 0 {
      k := 0;
    } else {
      var m := SucceededFrom(e, tick + 1, items[1..], j - 1);
      k := m + 1;
    }
  }

  lemma HitsExactly(e: Script, tick: nat, fetched: Statuses, items: seq<Item>)
    ensures Hits(fetched, Succeeded(e, tick, items)) <==>
            exists k: nat, i: nat :: Writes(e, tick, fetched, items, k, i)
  {
    var some := Succeeded(e, tick, items);
    if Hits(fetched, some) {
      var j, i :| 0 <= j < |some| && 0 <= i < |fetched| && some[j].device != null && Targets(some[j], fetched[i]);
      var k := SucceededFrom(e, tick, items, j);
      assert Writes(e, tick, fetched, items, k, i);
    }
    if k: nat, i: nat :| Writes(e, tick, fetched, items, k, i) {
      var j := SucceededAt(e, tick, items, k);
      assert Targets(some[j], fetched[i]);
    }
  }

  /** A fetched claim is published exactly when some item whose data was persisted has an entry in it,
      once, and with the list rewritten by just the persisted items. */
  lemma PublishedExactly(e: Script, s: Store, key: ClaimKey, uid: string, fetched: Statuses, items: seq<Item>,
                         u: Updating)
    requires Attached(items) && u == UpdatingClaim(e, s, key, uid, fetched, items)
    ensures Attached(Succeeded(e, s.tick, items))
    ensures forall event :: event in u.events && event.Published? <==>
              && event == Published(key, uid, fetched, RewrittenAll(fetched, Succeeded(e, s.tick, items)))
              && exists k: nat, i: nat :: Writes(e, s.tick, fetched, items, k, i)
  {
    var a := ApplyingItems(e, s, fetched, items);
    PersistedExactly(e, s, fetched, items, a);
    AppliedExactly(e, s, fetched, items, a);
    HitsExactly(e, s.tick, fetched, items);
    AllPersisted(e, s, fetched, items, a);
  }

  lemma {:induction false} AllPersisted(e: Script, s: Store, devices: Statuses, items: seq<Item>, a: Applying)
    requires Attached(items) && a == ApplyingItems(e, s, devices, items)
    ensures a.store.tick == s.tick + |items| && forall event :: event in a.events ==> event.Persisted?
    decreases |items|
  {
    if items != [] {
      var t := Persisting(e, s, items[0]);
      if e(s.tick).error {
        AllPersisted(e, t, devices, items[1..], a);
      } else {
        var next := Rewritten(devices, items[0]);
        AllPersisted(e, t, next, items[1..], ApplyingItems(e, t, next, items[1..]));
      }
    }
  }

  /** What a batch logs: for every claim that could be fetched under its UID, the events of its items. */
  lemma {:induction false} BatchClaims(e: Script, s: Store, queue: Queue, fetch: Fetched, order: seq<ClaimKey>,
                                       u: Updating, event: Event)
    requires u == UpdatingBatch(e, s, queue, fetch, order) && event in u.events && event.Published?
    ensures event.key in order && event.key in fetch && (event.key.uid == "" || event.uid == event.key.uid)
    ensures event.uid == fetch[event.key].0 && event.fetched == fetch[event.key].1
    decreases |order|
  {
    var key := order[0];
    if !Fetchable(fetch, key) {
      BatchClaims(e, s, queue, fetch, order[1..], u, event);
    } else {
      var first := UpdatingClaim(e, s, key, fetch[key].0, fetch[key].1, ItemsOf(queue, key));
      var rest := UpdatingBatch(e, first.store, queue, fetch, order[1..]);
      PublishedExactly(e, s, key, fetch[key].0, fetch[key].1, ItemsOf(queue, key), first);
      if event in rest.events {
        BatchClaims(e, first.store, queue, fetch, order[1..], rest, event);
      }
    }
  }

  /** The claim can be fetched under its UID, and some item of the queue has an entry in it. */
  ghost predicate HasNews(queue: Queue, fetch: Fetched, key: ClaimKey) {
    && key in fetch && (key.uid == "" || fetch[key].0 == key.uid)
    && exists k, i :: 0 <= k < |ItemsOf(queue, key)| && 0 <= i < |fetch[key].1| &&
         About(ItemsOf(queue, key)[k], fetch[key].1[i])
  }

  lemma {:induction false} CalmSucceeds(e: Script, tick: nat, items: seq<Item>)
    requires Calm(e, tick, tick + |items|)
    ensures Succeeded(e, tick, items) == items
    decreases |items|
  {
    if items != [] {
      CalmSucceeds(e, tick + 1, items[1..]);
    }
  }

  lemma CalmClaimPublished(e: Script, s: Store, queue: Queue, fetch: Fetched, key: ClaimKey, u: Updating)
    requires Fetchable(fetch, key)
    requires u == UpdatingClaim(e, s, key, fetch[key].0, fetch[key].1, ItemsOf(queue, key))
    ensures u.store.tick == s.tick + |ItemsOf(queue, key)|
    ensures Calm(e, s.tick, u.store.tick) && HasNews(queue, fetch, key) ==>
              Published(key, fetch[key].0, fetch[key].1, RewrittenAll(fetch[key].1, ItemsOf(queue, key))) in u.events
  {
    var fetched, items := fetch[key].1, ItemsOf(queue, key);
    AllPersisted(e, s, fetched, items, ApplyingItems(e, s, fetched, items));
    if Calm(e, s.tick, u.store.tick) && HasNews(queue, fetch, key) {
      CalmSucceeds(e, s.tick, items);
      var k: nat, i: nat :| k < |items| && i < |fetched| && About(items[k], fetched[i]);
      assert Writes(e, s.tick, fetched, items, k, i);
      var event := Published(key, fetch[key].0, fetched, RewrittenAll(fetched, items));
      PublishedExactly(e, s, key, fetch[key].0, fetched, items, u);
      assert event in u.events && event.Published?;
    }
  }

  lemma {:induction false} BatchTakesTime(e: Script, s: Store, queue: Queue, fetch: Fetched, order: seq<ClaimKey>)
    ensures s.tick <= UpdatingBatch(e, s, queue, fetch, order).store.tick
    decreases |order|
  {
    if order != [] {
      var key := order[0];
      if !Fetchable(fetch, key) {
        BatchTakesTime(e, s, queue, fetch, order[1..]);
      } else {
        var first := UpdatingClaim(e, s, key, fetch[key].0, fetch[key].1, ItemsOf(queue, key));
        CalmClaimPublished(e, s, queue, fetch, key, first);
        BatchTakesTime(e, first.store, queue, fetch, order[1..]);
      }
    }
  }

  /** Without faults every claim that has news is published, with all its items written. */
  lemma {:induction false} CalmBatchPublishes(e: Script, s: Store, queue: Queue, fetch: Fetched,
                                              order: seq<ClaimKey>, u: Updating, key: ClaimKey)
    requires u == UpdatingBatch(e, s, queue, fetch, order) && Calm(e, s.tick, u.store.tick)
    requires key in order && HasNews(queue, fetch, key)
    ensures Published(key, fetch[key].0, fetch[key].1, RewrittenAll(fetch[key].1, ItemsOf(queue, key))) in u.events
    decreases |order|
  {
    var here := order[0];
    if !Fetchable(fetch, here) {
      CalmBatchPublishes(e, s, queue, fetch, order[1..], u, key);
    } else {
      var first := UpdatingClaim(e, s, here, fetch[here].0, fetch[here].1, ItemsOf(queue, here));
      var rest := UpdatingBatch(e, first.store, queue, fetch, order[1..]);
      CalmClaimPublished(e, s, queue, fetch, here, first);
      BatchTakesTime(e, first.store, queue, fetch, order[1..]);
      if here != key {
        CalmBatchPublishes(e, first.store, queue, fetch, order[1..], rest, key);
      }
    }
  }
}
