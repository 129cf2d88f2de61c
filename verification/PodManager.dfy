/** The store of prepared devices and its checkpoint file (pkg/podmanager/podmanager.go).
    Devices are shared objects: network data set on one is seen through the table. */
module PodManager {
  import opened Attributes
  import opened Environment

  /** What a prepared device records once and for all. `driver` is the driver that its
      configuration asked for, None when it carries no configuration. */
  datatype DeviceInfo = DeviceInfo(
    podUID: string, claimUID: string, claimName: string, claimNamespace: string,
    request: string, pool: string, deviceName: string, pciAddress: string,
    driver: Option<string>, originalDriver: string,
    multusResourceName: string, multusDeviceID: string, ifName: string)

  class PreparedDevice {
    const info: DeviceInfo
    var networkData: Option<string>

    constructor (info: DeviceInfo, networkData: Option<string>)
      ensures this.info == info && this.networkData == networkData
    {
      this.info, this.networkData := info, networkData;
    }
  }

  /** A device as it is written to the checkpoint file. */
  datatype Record = Record(info: DeviceInfo, networkData: Option<string>)

  type PreparedDevices = seq<PreparedDevice>
  /** Pod UID to claim UID to devices. */
  type Table = map<string, map<string, PreparedDevices>>
  type Snapshot = map<string, map<string, seq<Record>>>

  function Records(ds: PreparedDevices): (r: seq<Record>)
    reads Objects(ds)
    ensures |r| == |ds|
    ensures forall i :: 0 <= i < |ds| ==> r[i] == Record(ds[i].info, ds[i].networkData)
  {
    if ds == [] then [] else Records(ds[..|ds| - 1]) + [Record(ds[|ds| - 1].info, ds[|ds| - 1].networkData)]
  }

  /** What is recorded about devices, without their network data. */
  function InfoList(ds: PreparedDevices): seq<DeviceInfo> { seq(|ds|, i requires 0 <= i < |ds| => ds[i].info) }

  ghost function Objects(ds: PreparedDevices): set<PreparedDevice> { set d | d in ds }

  ghost function ClaimObjects(m: map<string, PreparedDevices>): (r: set<PreparedDevice>)
    ensures forall c :: c in m ==> Objects(m[c]) <= r
  {
    set c, d | c in m && d in m[c] :: d
  }

  ghost function TableObjects(t: Table): (r: set<PreparedDevice>)
    ensures forall p :: p in t ==> ClaimObjects(t[p]) <= r
  {
    set p, d | p in t && d in ClaimObjects(t[p]) :: d
  }

  function ClaimRecords(m: map<string, PreparedDevices>): map<string, seq<Record>>
    reads ClaimObjects(m)
  {
    map c | c in m :: Records(m[c])
  }

  function SnapshotOf(t: Table): Snapshot
    reads TableObjects(t)
  {
    map p | p in t :: ClaimRecords(t[p])
  }

  /** Snapshots only depend on the devices' network data. */
  twostate lemma SameRecords(ds: PreparedDevices)
    requires forall d :: d in ds ==> d.networkData == old(d.networkData)
    ensures Records(ds) == old(Records(ds))
  {
  }

  twostate lemma SameClaims(m: map<string, PreparedDevices>)
    requires forall d :: d in ClaimObjects(m) ==> d.networkData == old(d.networkData)
    ensures ClaimRecords(m) == old(ClaimRecords(m))
  {
    forall c | c in m
      ensures Records(m[c]) == old(Records(m[c]))
    {
      assert forall d :: d in m[c] ==> d in Objects(m[c]);
      SameRecords(m[c]);
    }
  }

  twostate lemma SameSnapshot(t: Table)
    requires forall d :: d in TableObjects(t) ==> d.networkData == old(d.networkData)
    ensures SnapshotOf(t) == old(SnapshotOf(t))
  {
    forall p | p in t
      ensures ClaimRecords(t[p]) == old(ClaimRecords(t[p]))
    {
      SameClaims(t[p]);
    }
  }

  lemma ClaimRecordsWith(m: map<string, PreparedDevices>, claim: string, ds: PreparedDevices)
    ensures ClaimRecords(m[claim := ds]) == ClaimRecords(m)[claim := Records(ds)]
  {
  }

  lemma SnapshotWithPod(t: Table, pod: string, m: map<string, PreparedDevices>)
    ensures SnapshotOf(t[pod := m]) == SnapshotOf(t)[pod := ClaimRecords(m)]
  {
  }

  /** Storing a claim stores its records. */
  lemma SnapshotWithClaim(t: Table, pod: string, claim: string, ds: PreparedDevices)
    ensures SnapshotOf(WithClaim(t, pod, claim, ds)) == WithClaim(SnapshotOf(t), pod, claim, Records(ds))
  {
    if pod in t {
      ClaimRecordsWith(t[pod], claim, ds);
      SnapshotWithPod(t, pod, t[pod][claim := ds]);
    } else {
      ClaimRecordsWith(map[], claim, ds);
      assert ClaimRecords(map[]) == map[];
      SnapshotWithPod(t, pod, map[][claim := ds]);
    }
  }

  /** The specification of storing one claim. */
  function WithClaim<V>(t: map<string, map<string, V>>, pod: string, claim: string, v: V): map<string, map<string, V>> {
    t[pod := (if pod in t then t[pod] else map[])[claim := v]]
  }

  ghost predicate Tracks<V>(t: map<string, map<string, V>>, claim: string) {
    exists pod :: pod in t && claim in t[pod]
  }

  /** The list holds every key of the set once. */
  ghost predicate Enumerate(order: seq<string>, keys: set<string>) {
    && (forall k :: k in order <==> k in keys)
    && (forall i, j :: 0 <= i < j < |order| ==> order[i] != order[j])
  }

  lemma EnumerateOneMore(order: seq<string>, keys: set<string>, k: string)
    requires Enumerate(order, keys) && k !in keys
    ensures Enumerate(order + [k], keys + {k})
  {
    assert forall i :: 0 <= i < |order| ==> order[i] in order;
  }

  function InOrder<V>(m: map<string, seq<V>>, order: seq<string>): seq<V> {
    if order == [] then []
    else
      var last := order[|order| - 1];
      InOrder(m, order[..|order| - 1]) + if last in m then m[last] else []
  }

  lemma {:induction false} InOrderHas<V>(m: map<string, seq<V>>, order: seq<string>, v: V)
    ensures v in InOrder(m, order) <==> exists c :: c in order && c in m && v in m[c]
  {
    if order != [] {
      var front, last := order[..|order| - 1], order[|order| - 1];
      InOrderHas(m, front, v);
      assert order == front + [last];
      assert last in order;
    }
  }

  lemma ObjectsInOrder(m: map<string, PreparedDevices>, order: seq<string>)
    requires Enumerate(order, m.Keys)
    ensures Objects(InOrder(m, order)) == ClaimObjects(m)
  {
    forall d | d in InOrder(m, order)
      ensures d in ClaimObjects(m)
    {
      InOrderHas(m, order, d);
    }
    forall d | d in ClaimObjects(m)
      ensures d in InOrder(m, order)
    {
      InOrderHas(m, order, d);
    }
  }

  class PodManager {
    const env: Environment
    var prepared: Table
    /** The checkpoint file; None until it is created. */
    var checkpoint: Option<Snapshot>

    constructor (env: Environment, checkpoint: Option<Snapshot>)
      ensures this.env == env && prepared == map[] && this.checkpoint == checkpoint
    {
      this.env, this.prepared, this.checkpoint := env, map[], checkpoint;
    }

    /** What the next access returns. */
    predicate NextWorks()
      reads env
    {
      !env.script(env.tick).error
    }

    /** Rewrites the checkpoint file atomically; a failed write keeps the old file. */
    method SyncToCheckpoint() returns (ok: bool)
      modifies this`checkpoint, env
      ensures ok == old(NextWorks()) && env.tick == old(env.tick) + 1
      ensures checkpoint == if ok then Some(SnapshotOf(prepared)) else old(checkpoint)
    {
      var reply := env.Access();
      ok := !reply.error;
      label accessed:
      if ok {
        checkpoint := Some(SnapshotOf(prepared));
        SameSnapshot@accessed(prepared);
      }
    }

    /** Stores the devices of a claim. A failed sync leaves the entry in memory. */
    method Set(pod: string, claim: string, devices: PreparedDevices) returns (ok: bool)
      modifies this, env
      ensures ok == old(NextWorks()) && env.tick == old(env.tick) + 1
      ensures prepared == WithClaim(old(prepared), pod, claim, devices)
      ensures SnapshotOf(prepared) == WithClaim(old(SnapshotOf(prepared)), pod, claim, old(Records(devices)))
      ensures checkpoint == if ok then Some(SnapshotOf(prepared)) else old(checkpoint)
    {
      prepared := WithClaim(prepared, pod, claim, devices);
      SnapshotWithClaim(old(prepared), pod, claim, devices);
      SameSnapshot(old(prepared));
      SameRecords(devices);
      label stored:
      ok := SyncToCheckpoint();
      SameSnapshot@stored(prepared);
    }

    method Get(pod: string, claim: string) returns (devices: PreparedDevices, found: bool)
      ensures found <==> pod in prepared && claim in prepared[pod]
      ensures devices == if found then prepared[pod][claim] else []
    {
      if pod in prepared && claim in prepared[pod] {
        return prepared[pod][claim], true;
      }
      return [], false;
    }

    /** All devices of a pod: its claims in some order, each visited once, with their devices in
        order. */
    method GetDevicesByPodUID(pod: string) returns (devices: PreparedDevices, found: bool, ghost order: seq<string>)
      ensures found <==> pod in prepared
      ensures found ==> Enumerate(order, prepared[pod].Keys) && devices == InOrder(prepared[pod], order)
      ensures found ==> Objects(devices) == ClaimObjects(prepared[pod])
      ensures !found ==> devices == []
    {
      devices, found, order := [], pod in prepared, [];
      if !found {
        return;
      }
      var claims := prepared[pod].Keys;
      while claims != {}
        invariant claims <= prepared[pod].Keys && Enumerate(order, prepared[pod].Keys - claims)
        invariant devices == InOrder(prepared[pod], order)
        decreases claims
      {
        var claim :| claim in claims;
        EnumerateOneMore(order, prepared[pod].Keys - claims, claim);
        assert prepared[pod].Keys - claims + {claim} == prepared[pod].Keys - (claims - {claim});
        assert (order + [claim])[..|order|] == order;
        devices, claims, order := devices + prepared[pod][claim], claims - {claim}, order + [claim];
      }
      ObjectsInOrder(prepared[pod], order);
    }

    /** The devices of a claim, found under some pod. */
    method GetByClaim(claim: string) returns (devices: PreparedDevices, found: bool, pod: string)
      ensures found <==> Tracks(prepared, claim)
      ensures found ==> pod in prepared && claim in prepared[pod] && devices == prepared[pod][claim]
    {
      devices, found, pod := [], false, "";
      var pods := prepared.Keys;
      while pods != {} && !found
        invariant pods <= prepared.Keys
        invariant found ==> pod in prepared && claim in prepared[pod] && devices == prepared[pod][claim]
        invariant !found ==> forall p :: p in prepared && claim in prepared[p] ==> p in pods
        decreases pods, !found
      {
        var p :| p in pods;
        if claim in prepared[p] {
          devices, found, pod := prepared[p][claim], true, p;
        } else {
          pods := pods - {p};
        }
      }
    }

    method DeletePod(pod: string) returns (ok: bool)
      modifies this, env
      ensures ok == old(NextWorks()) && env.tick == old(env.tick) + 1
      ensures prepared == old(prepared) - {pod}
      ensures SnapshotOf(prepared) == old(SnapshotOf(prepared)) - {pod}
      ensures checkpoint == if ok then Some(SnapshotOf(prepared)) else old(checkpoint)
    {
      prepared := prepared - {pod};
      SameSnapshot(old(prepared));
      assert SnapshotOf(prepared) == SnapshotOf(old(prepared)) - {pod};
      label forgotten:
      ok := SyncToCheckpoint();
      SameSnapshot@forgotten(prepared);
    }

    /** Forgets a claim together with everything else stored for its pod. An unknown
        claim writes nothing. */
    method DeleteClaim(claim: string) returns (ok: bool, pod: string)
      modifies this, env
      ensures !Tracks(old(prepared), claim) ==>
                ok && prepared == old(prepared) && checkpoint == old(checkpoint) && env.tick == old(env.tick)
      ensures Tracks(old(prepared), claim) ==>
                && ok == old(NextWorks()) && env.tick == old(env.tick) + 1
                && pod in old(prepared) && claim in old(prepared)[pod]
                && prepared == old(prepared) - {pod}
                && SnapshotOf(prepared) == old(SnapshotOf(prepared)) - {pod}
                && checkpoint == if ok then Some(SnapshotOf(prepared)) else old(checkpoint)
    {
      var pods, found := prepared.Keys, false;
      pod := "";
      while pods != {} && !found
        invariant pods <= prepared.Keys
        invariant found ==> pod in prepared && claim in prepared[pod]
        invariant !found ==> forall p :: p in prepared && claim in prepared[p] ==> p in pods
        decreases pods, !found
      {
        var p :| p in pods;
        if claim in prepared[p] {
          found, pod := true, p;
        } else {
          pods := pods - {p};
        }
      }
      if !found {
        return true, "";
      }
      ok := DeletePod(pod);
    }

    /** Sets network data on a device, tracked or not, and syncs. */
    method UpdatePreparedDeviceNetworkData(device: PreparedDevice, data: Option<string>) returns (ok: bool)
      modifies this`checkpoint, device`networkData, env
      ensures ok == old(NextWorks()) && env.tick == old(env.tick) + 1
      ensures device.networkData == data
      ensures checkpoint == if ok then Some(SnapshotOf(prepared)) else old(checkpoint)
    {
      device.networkData := data;
      ok := SyncToCheckpoint();
    }

    /** Restart: reads the checkpoint file back, or creates an empty one. On failure the
        driver does not start. */
    method Reload() returns (ok: bool)
      modifies this, env
      ensures ok == old(NextWorks()) && env.tick == old(env.tick) + 1
      ensures ok ==> SnapshotOf(prepared) == (if old(checkpoint).Some? then old(checkpoint).value else map[])
      ensures ok ==> checkpoint == Some(SnapshotOf(prepared)) && fresh(TableObjects(prepared))
      ensures !ok ==> prepared == old(prepared) && checkpoint == old(checkpoint)
    {
      var reply := env.Access();
      ok := !reply.error;
      if !ok {
        return;
      }
      if checkpoint.None? {
        prepared := map[];
        checkpoint := Some(map[]);
      } else {
        var table := LoadTable(checkpoint.value);
        prepared := table;
      }
    }
  }

  // ----- The store as values -----

  /** The table, the network data of every device object, the file, and the time. */
  datatype Store = Store(table: Table, data: map<PreparedDevice, Option<string>>, file: Option<Snapshot>, tick: nat)

  function RecordsIn(ds: PreparedDevices, data: map<PreparedDevice, Option<string>>): seq<Record> {
    seq(|ds|, i requires 0 <= i < |ds| => Record(ds[i].info, if ds[i] in data then data[ds[i]] else None))
  }

  function SnapshotIn(t: Table, data: map<PreparedDevice, Option<string>>): Snapshot {
    map p | p in t :: map c | c in t[p] :: RecordsIn(t[p][c], data)
  }

  /** Requests to the store; a device is named by its object. */
  datatype Request =
    | SetClaim(pod: string, claim: string, devices: PreparedDevices)
    | ForgetClaim(claim: string)
    | ForgetPod(pod: string)
    | SetNetworkData(device: PreparedDevice, data: Option<string>)

  function Synced(e: Script, s: Store): Store {
    s.(tick := s.tick + 1, file := if e(s.tick).error then s.file else Some(SnapshotIn(s.table, s.data)))
  }

  /** A request for a claim that is not tracked writes nothing. */
  ghost predicate Writes(s: Store, r: Request) { r.ForgetClaim? ==> Tracks(s.table, r.claim) }

  /** What the caller is told. */
  ghost function Answer(e: Script, s: Store, r: Request): bool { Writes(s, r) ==> !e(s.tick).error }

  /** The store after a request; `pod` is the one that map iteration found for a claim. */
  ghost function Served(e: Script, s: Store, r: Request, pod: string): Store {
    if !Writes(s, r) then s else
    match r
    case SetClaim(p, claim, devices) => Synced(e, s.(table := WithClaim(s.table, p, claim, devices)))
    case ForgetPod(p) => Synced(e, s.(table := s.table - {p}))
    case SetNetworkData(device, data) => Synced(e, s.(data := s.data[device := data]))
    case ForgetClaim(claim) => Synced(e, s.(table := s.table - {pod}))
  }

  ghost predicate FindsPod(s: Store, r: Request, pod: string) {
    r.ForgetClaim? && Tracks(s.table, r.claim) ==> pod in s.table && r.claim in s.table[pod]
  }

  ghost predicate StepAt(e: Script, states: seq<Store>, requests: seq<Request>, pods: seq<string>, i: int) {
    0 <= i < |requests| && i < |pods| && i + 1 < |states| &&
    FindsPod(states[i], requests[i], pods[i]) && states[i + 1] == Served(e, states[i], requests[i], pods[i])
  }

  ghost predicate Trace(e: Script, states: seq<Store>, requests: seq<Request>, pods: seq<string>) {
    |states| == |requests| + 1 && |pods| == |requests| &&
    forall i :: 0 <= i < |requests| ==> StepAt(e, states, requests, pods, i)
  }

  /** The snapshot as of the last request that wrote and succeeded. */
  ghost function LastSynced(e: Script, states: seq<Store>, requests: seq<Request>): Option<Snapshot>
    requires |states| == |requests| + 1
    decreases |requests|
  {
    var n := |requests|;
    if n == 0 then states[0].file
    else if Writes(states[n - 1], requests[n - 1]) && Answer(e, states[n - 1], requests[n - 1])
    then Some(SnapshotIn(states[n].table, states[n].data))
    else LastSynced(e, states[..n], requests[..n - 1])
  }

  /** In every run the file is the store as of the last request that synced. */
  lemma {:induction false} FileIsLastSync(e: Script, states: seq<Store>, requests: seq<Request>, pods: seq<string>)
    requires Trace(e, states, requests, pods)
    ensures states[|requests|].file == LastSynced(e, states, requests)
    decreases |requests|
  {
    var n := |requests|;
    if n > 0 {
      assert StepAt(e, states, requests, pods, n - 1);
      var earlier, before, found := states[..n], requests[..n - 1], pods[..n - 1];
      forall i | 0 <= i < n - 1
        ensures StepAt(e, earlier, before, found, i)
      {
        assert StepAt(e, states, requests, pods, i);
      }
      FileIsLastSync(e, earlier, before, found);
    }
  }

  // ----- Runs of the store -----

  function DataOf(devices: set<PreparedDevice>): map<PreparedDevice, Option<string>>
    reads devices
  {
    map d | d in devices :: d.networkData
  }

  lemma SnapshotIsInData(t: Table, devices: set<PreparedDevice>)
    requires TableObjects(t) <= devices
    ensures SnapshotOf(t) == SnapshotIn(t, DataOf(devices))
  {
    forall p, c | p in t && c in t[p]
      ensures Records(t[p][c]) == RecordsIn(t[p][c], DataOf(devices))
    {
      assert forall i :: 0 <= i < |t[p][c]| ==> t[p][c][i] in Objects(t[p][c]) && t[p][c][i] in ClaimObjects(t[p]);
    }
    forall p | p in t
      ensures ClaimRecords(t[p]) == map c | c in t[p] :: RecordsIn(t[p][c], DataOf(devices))
    {
    }
  }

  ghost function RequestObjects(r: Request): set<PreparedDevice> {
    match r
    case SetClaim(_, _, devices) => Objects(devices)
    case SetNetworkData(device, _) => {device}
    case _ => {}
  }

  lemma ObjectsAfter(t: Table, r: Request, pod: string)
    ensures r.SetClaim? ==> TableObjects(WithClaim(t, r.pod, r.claim, r.devices)) <= TableObjects(t) + RequestObjects(r)
    ensures TableObjects(t - {pod}) <= TableObjects(t)
  {
  }

  ghost function ViewOf(store: PodManager, devices: set<PreparedDevice>): Store
    reads store, store.env, devices
  {
    Store(store.prepared, DataOf(devices), store.checkpoint, store.env.tick)
  }

  /** A request that removes a claim or a pod from the table. */
  method ServeForget(store: PodManager, r: Request, ghost devices: set<PreparedDevice>) returns (ok: bool, pod: string)
    requires r.ForgetClaim? || r.ForgetPod?
    requires TableObjects(store.prepared) + RequestObjects(r) <= devices
    modifies store, store.env, devices
    ensures TableObjects(store.prepared) <= devices
    ensures FindsPod(old(ViewOf(store, devices)), r, pod)
    ensures ok == Answer(store.env.script, old(ViewOf(store, devices)), r)
    ensures ViewOf(store, devices) == Served(store.env.script, old(ViewOf(store, devices)), r, pod)
  {
    if r.ForgetPod? {
      pod := r.pod;
      ok := store.DeletePod(r.pod);
    } else {
      ok, pod := store.DeleteClaim(r.claim);
    }
    ObjectsAfter(old(store.prepared), r, pod);
    SnapshotIsInData(store.prepared, devices);
  }

  /** One request: the store does what `Served` says, and the answer is what `Answer` says. */
  method Serve(store: PodManager, r: Request, ghost devices: set<PreparedDevice>) returns (ok: bool, pod: string)
    requires TableObjects(store.prepared) + RequestObjects(r) <= devices
    modifies store, store.env, devices
    ensures TableObjects(store.prepared) <= devices
    ensures FindsPod(old(ViewOf(store, devices)), r, pod)
    ensures ok == Answer(store.env.script, old(ViewOf(store, devices)), r)
    ensures ViewOf(store, devices) == Served(store.env.script, old(ViewOf(store, devices)), r, pod)
  {
    if r.SetNetworkData? {
      pod := "";
      assert r.device in RequestObjects(r);
      ok := store.UpdatePreparedDeviceNetworkData(r.device, r.data);
      assert DataOf(devices) == old(DataOf(devices))[r.device := r.data];
      SnapshotIsInData(store.prepared, devices);
    } else if r.SetClaim? {
      pod := "";
      ok := store.Set(r.pod, r.claim, r.devices);
      ObjectsAfter(old(store.prepared), r, pod);
      SnapshotIsInData(store.prepared, devices);
    } else {
      ok, pod := ServeForget(store, r, devices);
    }
  }

  /** Runs requests and then restarts. The store goes through the returned states, which follow
      from the requests, and the restart brings back exactly the state after the last request
      that had something to write and was answered with success. */
  method RunThenRestart(store: PodManager, requests: seq<Request>, ghost devices: set<PreparedDevice>)
    returns (ghost states: seq<Store>, answers: seq<bool>, pods: seq<string>, restarted: bool)
    requires TableObjects(store.prepared) <= devices && store.checkpoint.Some?
    requires forall i :: 0 <= i < |requests| ==> RequestObjects(requests[i]) <= devices
    modifies store, store.env, devices
    ensures Trace(store.env.script, states, requests, pods) && states[0] == old(ViewOf(store, devices))
    ensures |answers| == |requests|
    ensures forall i :: 0 <= i < |requests| ==> answers[i] == Answer(store.env.script, states[i], requests[i])
    ensures restarted == !store.env.script(states[|requests|].tick).error
    ensures restarted ==> Some(SnapshotOf(store.prepared)) == LastSynced(store.env.script, states, requests)
    ensures restarted ==> store.checkpoint == Some(SnapshotOf(store.prepared))
    ensures !restarted ==> store.prepared == states[|requests|].table && store.checkpoint == states[|requests|].file
  {
    states, answers, pods := [ViewOf(store, devices)], [], [];
    for i := 0 to |requests|
      invariant TableObjects(store.prepared) <= devices && store.checkpoint.Some?
      invariant |answers| == |pods| == i && |states| == i + 1
      invariant states[0] == old(ViewOf(store, devices)) && states[i] == ViewOf(store, devices)
      invariant forall k :: 0 <= k < i ==> StepAt(store.env.script, states, requests, pods, k)
      invariant forall k :: 0 <= k < i ==> answers[k] == Answer(store.env.script, states[k], requests[k])
    {
      var ok, pod := Serve(store, requests[i], devices);
      ghost var earlier, found := states, pods;
      states, answers, pods := states + [ViewOf(store, devices)], answers + [ok], pods + [pod];
      forall k | 0 <= k <= i
        ensures StepAt(store.env.script, states, requests, pods, k)
      {
        assert k < i ==> StepAt(store.env.script, earlier, requests, found, k);
      }
    }
    FileIsLastSync(store.env.script, states, requests, pods);
    restarted := store.Reload();
  }

  method LoadDevices(records: seq<Record>) returns (ds: PreparedDevices)
    ensures fresh(Objects(ds)) && Records(ds) == records
  {
    ds := [];
    for i := 0 to |records|
      invariant |ds| == i && fresh(Objects(ds))
      invariant forall j :: 0 <= j < i ==> Record(ds[j].info, ds[j].networkData) == records[j]
    {
      var d := new PreparedDevice(records[i].info, records[i].networkData);
      assert Objects(ds + [d]) == Objects(ds) + {d};
      ds := ds + [d];
    }
    assert Records(ds) == records;
  }

  method LoadClaims(m: map<string, seq<Record>>) returns (r: map<string, PreparedDevices>)
    ensures fresh(ClaimObjects(r)) && ClaimRecords(r) == m
  {
    r := map[];
    var claims := m.Keys;
    while claims != {}
      invariant claims <= m.Keys && r.Keys == m.Keys - claims
      invariant fresh(ClaimObjects(r))
      invariant forall c :: c in r ==> Records(r[c]) == m[c]
      decreases claims
    {
      var claim :| claim in claims;
      claims := claims - {claim};
      var ds := LoadDevices(m[claim]);
      assert ClaimObjects(r[claim := ds]) <= ClaimObjects(r) + Objects(ds);
      r := r[claim := ds];
    }
  }

  method LoadTable(s: Snapshot) returns (t: Table)
    ensures fresh(TableObjects(t)) && SnapshotOf(t) == s
  {
    t := map[];
    var pods := s.Keys;
    while pods != {}
      invariant pods <= s.Keys && t.Keys == s.Keys - pods
      invariant fresh(TableObjects(t))
      invariant forall p :: p in t ==> ClaimRecords(t[p]) == s[p]
      decreases pods
    {
      var pod :| pod in pods;
      pods := pods - {pod};
      var claims := LoadClaims(s[pod]);
      t := t[pod := claims];
    }
  }
}
