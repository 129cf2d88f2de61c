/** What preparing and unpreparing a claim does to the drivers and files of a node: a failed
    preparation is undone, a successful one is on record, and other claims are not touched. */
module AllOrNothing {
  import opened Attributes
  import opened ClaimStatus
  import opened Environment
  import opened HostDriver
  import opened PodManager
  import opened Preparation
  import opened VfConfigs

  // ----- What rollback gives back -----

  /** The addresses whose driver the prepared devices may have changed. */
  ghost function Rebound(ds: seq<DeviceInfo>): set<string> {
    set d | d in ds && Rebinds(d) :: d.pciAddress
  }

  ghost predicate SameOutside(a: Bus, b: Bus, touched: set<string>) {
    a.Keys == b.Keys && forall p :: p in a && p !in touched ==> a[p] == b[p]
  }

  /** Every initially bound device is back on its driver, except possibly one. */
  ghost predicate BackExcept(before: Bus, after: Bus, except: Option<string>) {
    forall p :: p in before && Some(p) != except && before[p].driver != "" ==> DriverOf(after, p) == before[p].driver
  }

  /** An entry whose driver was changed away from a known original. */
  predicate HasOriginal(info: DeviceInfo) { Rebinds(info) && info.originalDriver != "" }

  predicate OnOriginal(bus: Bus, info: DeviceInfo) { DriverOf(bus, info.pciAddress) == info.originalDriver }

  /** Every recorded original driver is in place again. */
  ghost predicate AllRestored(bus: Bus, ds: seq<DeviceInfo>) {
    forall d :: d in ds && HasOriginal(d) ==> OnOriginal(bus, d)
  }

  /** A device that is on its original driver stays on it. */
  ghost predicate NoneLost(before: Bus, after: Bus, ds: seq<DeviceInfo>) {
    forall d :: d in ds && HasOriginal(d) && OnOriginal(before, d) ==> OnOriginal(after, d)
  }

  predicate AgreeOn(d: DeviceInfo, e: DeviceInfo) {
    Rebinds(d) && Rebinds(e) && d.pciAddress == e.pciAddress ==> d.originalDriver == e.originalDriver
  }

  /** Entries for one address agree on its original driver. */
  ghost predicate Agree(ds: seq<DeviceInfo>) {
    forall d, e :: d in ds && e in ds ==> AgreeOn(d, e)
  }

  /** Every device to restore exists, and the module check knows its driver. */
  ghost predicate Restorable(bus: Bus, ds: seq<DeviceInfo>) {
    forall d :: d in ds && Rebinds(d) ==> d.pciAddress in bus && Loadable(d.originalDriver)
  }

  lemma {:induction false} RestoringAllFrame(e: Script, s: Sys, ds: seq<DeviceInfo>)
    ensures var r := RestoringAll(e, s, ds); s.tick <= r.sys.tick && SameOutside(s.bus, r.sys.bus, Rebound(ds))
    decreases |ds|
  {
    if ds != [] {
      assert Rebound(ds[1..]) <= Rebound(ds);
      if Rebinds(ds[0]) {
        assert ds[0].pciAddress in Rebound(ds);
        var first := Restoring(e, s, ds[0].pciAddress, ds[0].originalDriver);
        RestoringRestores(e, s, ds[0].pciAddress, ds[0].originalDriver);
        RestoringAllFrame(e, first.sys, ds[1..]);
      } else {
        RestoringAllFrame(e, s, ds[1..]);
      }
    }
  }

  /** Restoring others does not move a device off its original driver. */
  lemma {:induction false} StaysOnOriginal(e: Script, s: Sys, ds: seq<DeviceInfo>, x: DeviceInfo)
    requires HasOriginal(x) && OnOriginal(s.bus, x) && forall d :: d in ds ==> AgreeOn(d, x)
    ensures OnOriginal(RestoringAll(e, s, ds).sys.bus, x)
    decreases |ds|
  {
    if ds != [] {
      if Rebinds(ds[0]) {
        var first := Restoring(e, s, ds[0].pciAddress, ds[0].originalDriver);
        RestoringRestores(e, s, ds[0].pciAddress, ds[0].originalDriver);
        assert AgreeOn(ds[0], x);
        assert OnOriginal(first.sys.bus, x);
        StaysOnOriginal(e, first.sys, ds[1..], x);
      } else {
        StaysOnOriginal(e, s, ds[1..], x);
      }
    }
  }

  lemma {:induction false} SuccessRestoresAll(e: Script, s: Sys, ds: seq<DeviceInfo>)
    requires Agree(ds) && RestoringAll(e, s, ds).ok
    ensures AllRestored(RestoringAll(e, s, ds).sys.bus, ds)
    decreases |ds|
  {
    if ds != [] {
      var first := if Rebinds(ds[0]) then Restoring(e, s, ds[0].pciAddress, ds[0].originalDriver) else Step(s, true);
      SuccessRestoresAll(e, first.sys, ds[1..]);
      if HasOriginal(ds[0]) {
        RestoringRestores(e, s, ds[0].pciAddress, ds[0].originalDriver);
        StaysOnOriginal(e, first.sys, ds[1..], ds[0]);
      }
    }
  }

  /** Without faults every restorable device is restored. */
  lemma {:induction false} CalmRestoresAll(e: Script, s: Sys, ds: seq<DeviceInfo>)
    requires Calm(e, s.tick, RestoringAll(e, s, ds).sys.tick) && Restorable(s.bus, ds)
    ensures RestoringAll(e, s, ds).ok
    decreases |ds|
  {
    if ds != [] {
      if Rebinds(ds[0]) {
        var first := Restoring(e, s, ds[0].pciAddress, ds[0].originalDriver);
        RestoringRestores(e, s, ds[0].pciAddress, ds[0].originalDriver);
        RestoringAllFrame(e, first.sys, ds[1..]);
        if first.ok {
          CalmRestoresAll(e, first.sys, ds[1..]);
        }
      } else {
        CalmRestoresAll(e, s, ds[1..]);
      }
    }
  }

  /** What restoring a list of devices achieves. */
  lemma RestoringAllRestores(e: Script, s: Sys, ds: seq<DeviceInfo>)
    ensures var r := RestoringAll(e, s, ds);
            && s.tick <= r.sys.tick && SameOutside(s.bus, r.sys.bus, Rebound(ds))
            && (Agree(ds) ==> NoneLost(s.bus, r.sys.bus, ds) && (r.ok ==> AllRestored(r.sys.bus, ds)))
            && (Calm(e, s.tick, r.sys.tick) && Restorable(s.bus, ds) ==> r.ok)
  {
    var r := RestoringAll(e, s, ds);
    RestoringAllFrame(e, s, ds);
    if Agree(ds) {
      forall d | d in ds && HasOriginal(d) && OnOriginal(s.bus, d)
        ensures OnOriginal(r.sys.bus, d)
      {
        StaysOnOriginal(e, s, ds, d);
      }
      if r.ok {
        SuccessRestoresAll(e, s, ds);
      }
    }
    if Calm(e, s.tick, r.sys.tick) && Restorable(s.bus, ds) {
      CalmRestoresAll(e, s, ds);
    }
  }

  // ----- Device-info files -----

  /** The device-info files that belong to the prepared devices. */
  ghost function InfoKeys(ds: seq<DeviceInfo>): set<InfoKey> {
    set d | d in ds && HasInfoKey(d) :: InfoKeyOf(d)
  }

  lemma InfoKeysFirst(ds: seq<DeviceInfo>)
    requires ds != []
    ensures InfoKeys(ds) == InfoKeys(ds[1..]) + if HasInfoKey(ds[0]) then {InfoKeyOf(ds[0])} else {}
  {
    assert ds == [ds[0]] + ds[1..];
  }

  lemma {:induction false} CleaningAllCleans(e: Script, keys: set<InfoKey>, tick: nat, ds: seq<DeviceInfo>)
    ensures var f := CleaningAll(e, keys, tick, ds);
            && keys - InfoKeys(ds) <= f.keys <= keys && tick <= f.tick
            && (f.ok ==> f.keys == keys - InfoKeys(ds))
            && (Calm(e, tick, f.tick) ==> f.ok)
    decreases |ds|
  {
    if ds != [] {
      InfoKeysFirst(ds);
      if HasInfoKey(ds[0]) {
        var first := Cleaning(e, keys, tick, InfoKeyOf(ds[0]));
        CleaningAllCleans(e, first.keys, first.tick, ds[1..]);
      } else {
        CleaningAllCleans(e, keys, tick, ds[1..]);
      }
    }
  }

  /** Every device that gets a file has an address. */
  ghost predicate Addressed(ds: seq<DeviceInfo>) { forall d :: d in ds && HasInfoKey(d) ==> d.pciAddress != "" }

  lemma AddressedFirst(ds: seq<DeviceInfo>)
    requires ds != []
    ensures Addressed(ds) <==> Addressed(ds[1..]) && (HasInfoKey(ds[0]) ==> ds[0].pciAddress != "")
  {
    assert ds == [ds[0]] + ds[1..];
  }

  /** Without faults files are saved exactly when every device that gets one has an address. */
  lemma {:induction false} SavingAllSaves(e: Script, keys: set<InfoKey>, tick: nat, ds: seq<DeviceInfo>)
    ensures var f := SavingAll(e, keys, tick, ds);
            && keys - InfoKeys(ds) <= f.keys <= keys + InfoKeys(ds) && tick <= f.tick
            && (f.ok ==> keys + InfoKeys(ds) == f.keys)
            && (f.ok ==> Addressed(ds)) && (Calm(e, tick, f.tick) && Addressed(ds) ==> f.ok)
    decreases |ds|
  {
    if ds != [] {
      InfoKeysFirst(ds);
      AddressedFirst(ds);
      if HasInfoKey(ds[0]) {
        var first := Saving(e, keys, tick, ds[0]);
        SavingAllSaves(e, first.keys, first.tick, ds[1..]);
      } else {
        SavingAllSaves(e, keys, tick, ds[1..]);
      }
    }
  }

  // ----- One device -----

  predicate Serves(devices: Devices, r: AllocationResult) { r.driver == DRIVER_NAME && r.device in devices }

  /** The device is bound as its configuration asked. */
  ghost predicate BoundInfo(before: Bus, after: Bus, info: DeviceInfo) {
    Rebinds(info) ==> info.pciAddress in before && info.pciAddress in after &&
                      BoundAsAsked(before[info.pciAddress], info.driver.value, after[info.pciAddress])
  }

  /** The driver to go back to, if the configuration asks for another one. */
  function DriverBefore(n: Node, before: Bus, config: Settings, r: AllocationResult): string
    requires r.device in n.devices
  {
    if config.driver == "" then "" else DriverOf(before, Address(n.devices, r.device))
  }

  /** What applying a configuration to one device achieves. */
  ghost predicate Applies(n: Node, w: World, claim: ResourceClaim, config: Settings, r: AllocationResult, index: nat,
                          a: Applied)
    requires claim.reservedFor != []
  {
    var before, after := w.sys.bus, a.world.sys.bus;
    && a.world.deviceInfos == w.deviceInfos && a.world.cdiSpecs == w.cdiSpecs && w.sys.tick <= a.world.sys.tick
    && (if r.device in n.devices then SameExcept(before, after, Address(n.devices, r.device))
        else a == Applied(w, None, index, None))
    && (config.driver == "" ==> after == before)
    && (a.device.Some? ==>
          && r.device in n.devices && a.failedBind.None? && a.world.tally == w.tally
          && a.device.value == InfoOf(n, claim, config, r, DriverBefore(n, before, config, r), index)
          && BoundInfo(before, after, a.device.value)
          && a.index == if AutoNamed(n, config) then index + 1 else index)
    && (a.device.None? ==> a.index == index)
  }

  /** What a failure leaves behind: a failed step after a bind is undone unless its restore is
      counted as failed, and a failed bind that moved its device is counted as dirty. */
  ghost predicate FailsWell(n: Node, w: World, r: AllocationResult, a: Applied) {
    var before, after, was, now := w.sys.bus, a.world.sys.bus, w.tally, a.world.tally;
    && now.failedRollbacks >= was.failedRollbacks && now.dirtyBinds >= was.dirtyBinds &&
       now.failedCleanups == was.failedCleanups
    && (a.failedBind.Some? ==> r.device in n.devices && a.failedBind.value == Address(n.devices, r.device))
    && (a.failedBind.Some? ==> now.failedRollbacks == was.failedRollbacks)
    && (now.failedRollbacks == was.failedRollbacks ==> BackExcept(before, after, a.failedBind))
    && (now.failedRollbacks == was.failedRollbacks && now.dirtyBinds == was.dirtyBinds ==>
        BackExcept(before, after, None))
    // without faults binds fail cleanly, and rollbacks only for drivers the module check rejects
    && (Calm(n.script, w.sys.tick, a.world.sys.tick) ==> now.dirtyBinds == was.dirtyBinds)
    && (Calm(n.script, w.sys.tick, a.world.sys.tick) && r.device in n.devices &&
        Loadable(DriverOf(before, Address(n.devices, r.device))) ==>
          now.failedRollbacks == was.failedRollbacks)
  }

  lemma ApplyingConfigApplies(n: Node, w: World, claim: ResourceClaim, config: Settings, r: AllocationResult,
                              index: nat)
    requires claim.reservedFor != []
    ensures Applies(n, w, claim, config, r, index, ApplyingConfig(n, w, claim, config, r, index))
  {
    if r.device in n.devices {
      var p, found := Address(n.devices, r.device), LookingUp(n, w);
      var bound := Binding(n.script, found.sys, p, config.driver);
      BindingBinds(n.script, found.sys, p, config.driver);
      RestoringRestores(n.script, Read(n.script, bound.sys).sys, p, Reported(w.sys, p, config.driver, true));
    }
  }

  lemma ApplyingConfigFailsWell(n: Node, w: World, claim: ResourceClaim, config: Settings, r: AllocationResult,
                                index: nat)
    requires claim.reservedFor != [] && ApplyingConfig(n, w, claim, config, r, index).device.None?
    ensures FailsWell(n, w, r, ApplyingConfig(n, w, claim, config, r, index))
  {
    if r.device in n.devices {
      var p, found := Address(n.devices, r.device), LookingUp(n, w);
      var bound := Binding(n.script, found.sys, p, config.driver);
      BindingBinds(n.script, found.sys, p, config.driver);
      RestoringRestores(n.script, Read(n.script, bound.sys).sys, p, Reported(w.sys, p, config.driver, true));
    }
  }

  /** A failed bind is counted as dirty exactly when it got as far as detaching its bound device. */
  lemma DirtyBindExactly(n: Node, w: World, claim: ResourceClaim, config: Settings, r: AllocationResult, index: nat,
                         p: string)
    requires claim.reservedFor != [] && ApplyingConfig(n, w, claim, config, r, index).failedBind == Some(p)
    requires p in w.sys.bus && w.sys.bus[p].driver != ""
    requires config.driver == "default" ==> w.sys.bus[p].kernelDefault != w.sys.bus[p].driver
    ensures ApplyingConfig(n, w, claim, config, r, index).world.tally.dirtyBinds > w.tally.dirtyBinds <==>
            BindDetaches(n.script, LookingUp(n, w).sys, p, config.driver)
  {
    FailedBindMoves(n.script, LookingUp(n, w).sys, p, config.driver);
  }

  // ----- All devices of a claim -----

  /** The addresses of the claim's devices that this driver serves. */
  ghost function ClaimAddresses(devices: Devices, results: seq<AllocationResult>): set<string> {
    set r | r in results && Serves(devices, r) :: Address(devices, r.device)
  }

  /** The device-info files that the claim's devices may have. */
  ghost function ClaimInfoKeys(devices: Devices, results: seq<AllocationResult>): set<InfoKey> {
    set r | r in results && Serves(devices, r) :: MultusAttributes(devices[r.device].attributes)
  }

  /** No two results of this driver share an address. */
  ghost predicate Distinct(devices: Devices, results: seq<AllocationResult>) {
    forall i, j :: 0 <= i < j < |results| && Serves(devices, results[i]) && Serves(devices, results[j]) ==>
                     Address(devices, results[i].device) != Address(devices, results[j].device)
  }

  ghost predicate OnRecord(start: Bus, bus: Bus, info: DeviceInfo) {
    info.originalDriver == DriverOf(start, info.pciAddress) && BoundInfo(start, bus, info)
  }

  /** Where preparation stands after some results: only the prepared devices' drivers
      have moved, each as asked and with its driver on record. */
  ghost predicate Progress(devices: Devices, start: Bus, bus: Bus, ds: seq<DeviceInfo>,
                           results: seq<AllocationResult>) {
    && Rebound(ds) <= ClaimAddresses(devices, results)
    && InfoKeys(ds) <= ClaimInfoKeys(devices, results)
    && SameOutside(start, bus, Rebound(ds))
    && (Distinct(devices, results) ==> forall d :: d in ds && Rebinds(d) ==> OnRecord(start, bus, d))
  }

  lemma NoProgress(devices: Devices, start: Bus)
    ensures Progress(devices, start, start, [], [])
  {
    assert Rebound([]) == {} && InfoKeys([]) == {};
  }

  lemma ResultsGrow(devices: Devices, results: seq<AllocationResult>, r: AllocationResult)
    ensures ClaimAddresses(devices, results + [r]) ==
            ClaimAddresses(devices, results) + if Serves(devices, r) then {Address(devices, r.device)} else {}
    ensures ClaimInfoKeys(devices, results + [r]) ==
            ClaimInfoKeys(devices, results) + if Serves(devices, r)
              then {MultusAttributes(devices[r.device].attributes)} else {}
    ensures Distinct(devices, results + [r]) ==> Distinct(devices, results)
    ensures Distinct(devices, results + [r]) && Serves(devices, r) ==>
              Address(devices, r.device) !in ClaimAddresses(devices, results)
  {
    var more := results + [r];
    assert forall i :: 0 <= i < |results| ==> more[i] == results[i];
    if Distinct(devices, more) && Serves(devices, r) {
      forall q | q in results && Serves(devices, q)
        ensures Address(devices, q.device) != Address(devices, r.device)
      {
        var i :| 0 <= i < |results| && results[i] == q;
        assert more[i] == q && more[|results|] == r;
      }
    }
  }

  lemma Prefix(devices: Devices, some: seq<AllocationResult>, rest: seq<AllocationResult>)
    ensures ClaimAddresses(devices, some) <= ClaimAddresses(devices, some + rest)
    ensures ClaimInfoKeys(devices, some) <= ClaimInfoKeys(devices, some + rest)
    ensures Distinct(devices, some + rest) ==> Distinct(devices, some)
  {
    var all := some + rest;
    assert forall i :: 0 <= i < |some| ==> all[i] == some[i];
  }

  lemma SkippedProgress(devices: Devices, start: Bus, bus: Bus, ds: seq<DeviceInfo>, results: seq<AllocationResult>,
                        r: AllocationResult)
    requires Progress(devices, start, bus, ds, results)
    ensures Progress(devices, start, bus, ds, results + [r])
  {
    ResultsGrow(devices, results, r);
  }

  lemma OneMore(ds: seq<DeviceInfo>, d: DeviceInfo)
    ensures Rebound(ds + [d]) == Rebound(ds) + if Rebinds(d) then {d.pciAddress} else {}
    ensures InfoKeys(ds + [d]) == InfoKeys(ds) + if HasInfoKey(d) then {InfoKeyOf(d)} else {}
  {
  }

  /** Preparing one more device keeps the record straight. */
  lemma OneMoreOnRecord(start: Bus, mid: Bus, after: Bus, ds: seq<DeviceInfo>, d: DeviceInfo)
    requires SameOutside(start, mid, Rebound(ds))
    requires forall e :: e in ds && Rebinds(e) ==> OnRecord(start, mid, e)
    requires SameExcept(mid, after, d.pciAddress) && (!Rebinds(d) ==> after == mid)
    requires Rebinds(d) ==> d.pciAddress !in Rebound(ds) && BoundInfo(mid, after, d)
    requires Rebinds(d) ==> d.originalDriver == DriverOf(mid, d.pciAddress)
    ensures forall e :: e in ds + [d] && Rebinds(e) ==> OnRecord(start, after, e)
  {
    forall e | e in ds && Rebinds(e)
      ensures OnRecord(start, after, e)
    {
      assert e.pciAddress in Rebound(ds);
    }
  }

  /** The record of a served result's device. */
  ghost predicate RecordedFrom(n: Node, bus: Bus, r: AllocationResult, d: DeviceInfo) {
    && Serves(n.devices, r) && d.pciAddress == Address(n.devices, r.device)
    && (Rebinds(d) ==> d.originalDriver == DriverOf(bus, d.pciAddress))
    && (HasInfoKey(d) ==> InfoKeyOf(d) == MultusAttributes(n.devices[r.device].attributes))
  }

  lemma OneMoreProgress(n: Node, start: Bus, mid: Bus, after: Bus, ds: seq<DeviceInfo>, d: DeviceInfo,
                        results: seq<AllocationResult>, r: AllocationResult)
    requires Progress(n.devices, start, mid, ds, results) && RecordedFrom(n, mid, r, d)
    requires SameExcept(mid, after, d.pciAddress) && (!Rebinds(d) ==> after == mid) && BoundInfo(mid, after, d)
    ensures Progress(n.devices, start, after, ds + [d], results + [r])
  {
    ResultsGrow(n.devices, results, r);
    OneMore(ds, d);
    if Distinct(n.devices, results + [r]) {
      OneMoreOnRecord(start, mid, after, ds, d);
    }
  }

  lemma ProgressAgrees(devices: Devices, start: Bus, bus: Bus, ds: seq<DeviceInfo>, results: seq<AllocationResult>)
    requires Progress(devices, start, bus, ds, results) && Distinct(devices, results)
    ensures Agree(ds)
  {
    forall d, e | d in ds && e in ds
      ensures AgreeOn(d, e)
    {
      if Rebinds(d) && Rebinds(e) {
        assert OnRecord(start, bus, d) && OnRecord(start, bus, e);
      }
    }
  }

  /** Rolling back what was prepared undoes it, except on a device whose bind failed. */
  lemma RolledBack(devices: Devices, start: Bus, mid: Bus, failed: Bus, after: Bus, ds: seq<DeviceInfo>,
                   results: seq<AllocationResult>, p: string, except: Option<string>)
    requires Progress(devices, start, mid, ds, results) && Distinct(devices, results)
    requires SameExcept(mid, failed, p) && (failed == mid || p !in ClaimAddresses(devices, results))
    requires BackExcept(mid, failed, except) && (except.Some? ==> except == Some(p))
    requires SameOutside(failed, after, Rebound(ds)) && AllRestored(after, ds)
    ensures BackExcept(start, after, except)
  {
    forall q | q in start && Some(q) != except && start[q].driver != ""
      ensures DriverOf(after, q) == start[q].driver
    {
      if q in Rebound(ds) {
        var d :| d in ds && Rebinds(d) && d.pciAddress == q;
        assert OnRecord(start, mid, d);
        assert HasOriginal(d) && OnOriginal(after, d);
      } else {
        assert mid[q] == start[q] && after[q] == failed[q];
      }
    }
  }

  // ----- The loop -----

  /** The drivers that the claim's devices start on pass the module check. */
  ghost predicate StartsLoadable(devices: Devices, start: Bus, results: seq<AllocationResult>) {
    forall p :: p in ClaimAddresses(devices, results) ==> Loadable(DriverOf(start, p))
  }

  /** What holds between a world and a later one. */
  ghost predicate Later(w: World, v: World) {
    && w.sys.tick <= v.sys.tick
    && w.tally.failedRollbacks <= v.tally.failedRollbacks && w.tally.dirtyBinds <= v.tally.dirtyBinds
    && w.tally.failedCleanups <= v.tally.failedCleanups
  }

  /** What a failed preparation of `results` leaves behind. */
  ghost predicate Undone(n: Node, start: Bus, w: World, v: World, results: seq<AllocationResult>,
                         failedBind: Option<string>) {
    && Later(w, v) && SameOutside(start, v.sys.bus, ClaimAddresses(n.devices, results))
    && (failedBind.Some? ==> failedBind.value in ClaimAddresses(n.devices, results))
    && (Distinct(n.devices, results) && v.tally.failedRollbacks == w.tally.failedRollbacks ==>
        BackExcept(start, v.sys.bus, failedBind))
    && (Distinct(n.devices, results) && v.tally.failedRollbacks == w.tally.failedRollbacks &&
        v.tally.dirtyBinds == w.tally.dirtyBinds ==>
          BackExcept(start, v.sys.bus, None))
    // without faults nothing is counted
    && (Calm(n.script, w.sys.tick, v.sys.tick) ==> v.tally.dirtyBinds == w.tally.dirtyBinds)
    && (Calm(n.script, w.sys.tick, v.sys.tick) && Distinct(n.devices, results) &&
        StartsLoadable(n.devices, start, results) ==>
          v.tally.failedRollbacks == w.tally.failedRollbacks)
  }

  /** Undoing a shorter list of results undoes a longer one. */
  lemma UndoneGrows(n: Node, start: Bus, w: World, v: World, some: seq<AllocationResult>, rest: seq<AllocationResult>,
                    failedBind: Option<string>)
    requires Undone(n, start, w, v, some, failedBind)
    ensures Undone(n, start, w, v, some + rest, failedBind)
  {
    Prefix(n.devices, some, rest);
  }

  lemma UndoneEarlier(n: Node, start: Bus, u: World, w: World, v: World, results: seq<AllocationResult>,
                      failedBind: Option<string>)
    requires Undone(n, start, w, v, results, failedBind) && u.sys.tick <= w.sys.tick && u.tally == w.tally
    ensures Undone(n, start, u, v, results, failedBind)
  {
    assert Calm(n.script, u.sys.tick, v.sys.tick) ==> Calm(n.script, w.sys.tick, v.sys.tick);
  }

  /** The prepared devices can be restored when they started on loadable drivers. */
  lemma ProgressRestorable(devices: Devices, start: Bus, bus: Bus, ds: seq<DeviceInfo>, results: seq<AllocationResult>)
    requires Progress(devices, start, bus, ds, results) && Distinct(devices, results) &&
             StartsLoadable(devices, start, results)
    ensures Restorable(bus, ds)
  {
    forall d | d in ds && Rebinds(d)
      ensures d.pciAddress in bus && Loadable(d.originalDriver)
    {
      assert OnRecord(start, bus, d) && d.pciAddress in Rebound(ds);
    }
  }

  /** The step at which a preparation fails, before the earlier devices are rolled back. */
  ghost predicate Fails(n: Node, w: World, r: AllocationResult, a: Applied) {
    && r.driver == DRIVER_NAME && w.sys.tick <= a.world.sys.tick && FailsWell(n, w, r, a)
    && (if r.device in n.devices then SameExcept(w.sys.bus, a.world.sys.bus, Address(n.devices, r.device))
        else a.world == w)
  }

  lemma RollbackRestores(n: Node, start: Bus, w: World, before: seq<DeviceInfo>, done: seq<AllocationResult>,
                         r: AllocationResult, a: Applied,
                         except: Option<string>)
    requires Progress(n.devices, start, w.sys.bus, before, done) && Fails(n, w, r, a) && Distinct(n.devices, done + [r])
    requires RollingBack(n, a.world, before).tally.failedRollbacks == w.tally.failedRollbacks
    requires BackExcept(w.sys.bus, a.world.sys.bus, except) && (except.Some? ==> except == a.failedBind)
    ensures BackExcept(start, RollingBack(n, a.world, before).sys.bus, except)
  {
    var after := RollingBack(n, a.world, before).sys.bus;
    RestoringAllRestores(n.script, a.world.sys, before);
    ResultsGrow(n.devices, done, r);
    ProgressAgrees(n.devices, start, w.sys.bus, before, done);
    RolledBack(n.devices, start, w.sys.bus, a.world.sys.bus, after, before, done,
               if r.device in n.devices then Address(n.devices, r.device) else "", except);
  }

  lemma CalmRollback(n: Node, start: Bus, w: World, before: seq<DeviceInfo>, done: seq<AllocationResult>,
                     r: AllocationResult, a: Applied)
    requires Progress(n.devices, start, w.sys.bus, before, done) && Fails(n, w, r, a)
    requires Distinct(n.devices, done + [r]) && StartsLoadable(n.devices, start, done + [r])
    requires Calm(n.script, w.sys.tick, RollingBack(n, a.world, before).sys.tick)
    ensures RollingBack(n, a.world, before).tally.failedRollbacks == w.tally.failedRollbacks
  {
    ResultsGrow(n.devices, done, r);
    ProgressRestorable(n.devices, start, w.sys.bus, before, done);
    RestoringAllRestores(n.script, a.world.sys, before);
    assert a.world.sys.bus.Keys == w.sys.bus.Keys && Restorable(a.world.sys.bus, before);
    if r.device in n.devices {
      var p := Address(n.devices, r.device);
      assert p !in Rebound(before) && DriverOf(w.sys.bus, p) == DriverOf(start, p);
      assert p in ClaimAddresses(n.devices, done + [r]);
    }
    assert Calm(n.script, w.sys.tick, a.world.sys.tick);
    assert a.world.tally.failedRollbacks == w.tally.failedRollbacks;
  }

  /** Rolling back after a failed step undoes everything. */
  lemma StepUndone(n: Node, start: Bus, w: World, before: seq<DeviceInfo>, done: seq<AllocationResult>,
                   r: AllocationResult, a: Applied)
    requires Progress(n.devices, start, w.sys.bus, before, done) && Fails(n, w, r, a)
    ensures Undone(n, start, w, RollingBack(n, a.world, before), done + [r], a.failedBind)
  {
    var v := RollingBack(n, a.world, before);
    ResultsGrow(n.devices, done, r);
    RestoringAllRestores(n.script, a.world.sys, before);
    if Distinct(n.devices, done + [r]) && v.tally.failedRollbacks == w.tally.failedRollbacks {
      RollbackRestores(n, start, w, before, done, r, a, a.failedBind);
      if v.tally.dirtyBinds == w.tally.dirtyBinds {
        RollbackRestores(n, start, w, before, done, r, a, None);
      }
    }
    if Calm(n.script, w.sys.tick, v.sys.tick) && Distinct(n.devices, done + [r]) &&
       StartsLoadable(n.devices, start, done + [r]) {
      CalmRollback(n, start, w, before, done, r, a);
    }
  }

  /** What preparing the remaining results achieves. */
  ghost predicate Prepares(n: Node, start: Bus, w: World, results: seq<AllocationResult>, prep: Prep) {
    && prep.world.deviceInfos == w.deviceInfos && prep.world.cdiSpecs == w.cdiSpecs
    && prep.world.tally.failedCleanups == w.tally.failedCleanups
    && (if prep.ok then
          Progress(n.devices, start, prep.world.sys.bus, prep.devices, results) && prep.world.tally == w.tally &&
          prep.failedBind.None? && w.sys.tick <= prep.world.sys.tick
        else Undone(n, start, w, prep.world, results, prep.failedBind))
  }

  lemma PreparesEarlier(n: Node, start: Bus, w: World, v: World, results: seq<AllocationResult>, prep: Prep)
    requires Prepares(n, start, v, results, prep)
    requires w.sys.tick <= v.sys.tick && w == v.(sys := w.sys)
    ensures Prepares(n, start, w, results, prep)
  {
    if !prep.ok {
      UndoneEarlier(n, start, w, v, prep.world, results, prep.failedBind);
    }
  }

  /** One more device: what its record says, and where the preparation stands. */
  lemma OneMorePrepared(n: Node, start: Bus, w: World, claim: ResourceClaim, config: Settings, before: seq<DeviceInfo>,
                        done: seq<AllocationResult>, r: AllocationResult, index: nat)
    requires claim.reservedFor != [] && r.driver == DRIVER_NAME &&
             ApplyingConfig(n, w, claim, config, r, index).device.Some?
    requires Progress(n.devices, start, w.sys.bus, before, done)
    ensures var a := ApplyingConfig(n, w, claim, config, r, index);
            && Progress(n.devices, start, a.world.sys.bus, before + [a.device.value], done + [r])
            && w.sys.tick <= a.world.sys.tick && w == a.world.(sys := w.sys)
  {
    var a := ApplyingConfig(n, w, claim, config, r, index);
    ApplyingConfigApplies(n, w, claim, config, r, index);
    OneMoreProgress(n, start, w.sys.bus, a.world.sys.bus, before, a.device.value, done, r);
  }

  lemma StepFails(n: Node, w: World, claim: ResourceClaim, config: Settings, r: AllocationResult, index: nat)
    requires claim.reservedFor != [] && r.driver == DRIVER_NAME &&
             ApplyingConfig(n, w, claim, config, r, index).device.None?
    ensures Fails(n, w, r, ApplyingConfig(n, w, claim, config, r, index))
  {
    ApplyingConfigApplies(n, w, claim, config, r, index);
    ApplyingConfigFailsWell(n, w, claim, config, r, index);
  }

  lemma {:induction false} PreparingRestPrepares(n: Node, start: Bus, w: World, claim: ResourceClaim,
                                                 configs: map<string, Settings>,
                                                 done: seq<AllocationResult>, results: seq<AllocationResult>,
                                                   before: seq<DeviceInfo>,
                                                 index: nat, statuses: Statuses)
    requires claim.reservedFor != [] && Progress(n.devices, start, w.sys.bus, before, done)
    ensures Prepares(n, start, w, done + results, PreparingRest(n, w, claim, configs, results, before, index, statuses))
    decreases |results|
  {
    var prep := PreparingRest(n, w, claim, configs, results, before, index, statuses);
    if results == [] {
      assert done + results == done;
    } else {
      var r, rest := results[0], results[1..];
      assert (done + [r]) + rest == done + results;
      var config := Effective(configs, r.request);
      if r.driver != DRIVER_NAME {
        SkippedProgress(n.devices, start, w.sys.bus, before, done, r);
        PreparingRestPrepares(n, start, w, claim, configs, done + [r], rest, before, index, statuses);
      } else {
        var a := ApplyingConfig(n, w, claim, config, r, index);
        if a.device.None? {
          ApplyingConfigApplies(n, w, claim, config, r, index);
          StepFails(n, w, claim, config, r, index);
          StepUndone(n, start, w, before, done, r, a);
          UndoneGrows(n, start, w, prep.world, done + [r], rest, a.failedBind);
        } else {
          OneMorePrepared(n, start, w, claim, config, before, done, r, index);
          PreparingRestPrepares(n, start, a.world, claim, configs, done + [r], rest, before + [a.device.value], a.index,
                                Upserted(statuses, StatusOf(r)));
          PreparesEarlier(n, start, w, a.world, done + results, prep);
        }
      }
    }
  }

  /** The results before `i` were prepared, and then the bind of result `i` returned an error. */
  ghost predicate BindFailedAt(n: Node, w: World, claim: ResourceClaim, configs: map<string, Settings>,
                               results: seq<AllocationResult>, before: seq<DeviceInfo>, index: nat,
                               statuses: Statuses, p: string, i: nat)
    requires claim.reservedFor != []
  {
    && i < |results| && Serves(n.devices, results[i]) && Address(n.devices, results[i].device) == p
    && var done := PreparingRest(n, w, claim, configs, results[..i], before, index, statuses);
    && done.ok && LookingUp(n, done.world).ok
    && !Binding(n.script, LookingUp(n, done.world).sys, p, Effective(configs, results[i].request).driver).ok
  }

  lemma {:induction false} FailedBindFailed(n: Node, w: World, claim: ResourceClaim, configs: map<string, Settings>,
                                            results: seq<AllocationResult>, before: seq<DeviceInfo>, index: nat,
                                            statuses: Statuses, prep: Prep) returns (i: nat)
    requires claim.reservedFor != []
    requires prep == PreparingRest(n, w, claim, configs, results, before, index, statuses) && prep.failedBind.Some?
    ensures BindFailedAt(n, w, claim, configs, results, before, index, statuses, prep.failedBind.value, i)
    decreases |results|
  {
    var r, rest := results[0], results[1..];
    var a := ApplyingConfig(n, w, claim, Effective(configs, r.request), r, index);
    if r.driver == DRIVER_NAME && a.device.None? {
      i := 0;
      assert results[..0] == [];
    } else {
      var k;
      if r.driver != DRIVER_NAME {
        k := FailedBindFailed(n, w, claim, configs, rest, before, index, statuses, prep);
      } else {
        k := FailedBindFailed(n, a.world, claim, configs, rest, before + [a.device.value], a.index,
                              Upserted(statuses, StatusOf(r)), prep);
      }
      i := k + 1;
      assert results[..i][0] == r && results[..i][1..] == rest[..k];
    }
  }

  // ----- The whole claim -----

  /** Restoring every prepared device undoes a complete preparation. */
  lemma WholeRollback(devices: Devices, start: Bus, bound: Bus, after: Bus, ds: seq<DeviceInfo>,
                      results: seq<AllocationResult>)
    requires Progress(devices, start, bound, ds, results) && Distinct(devices, results)
    requires SameOutside(bound, after, Rebound(ds)) && AllRestored(after, ds)
    ensures BackExcept(start, after, None)
  {
    forall p | p in start && start[p].driver != ""
      ensures DriverOf(after, p) == start[p].driver
    {
      if p in Rebound(ds) {
        var d :| d in ds && Rebinds(d) && d.pciAddress == p;
        assert OnRecord(start, bound, d);
        assert HasOriginal(d) && OnOriginal(after, d);
      }
    }
  }

  /** Rolling back a complete preparation undoes it. */
  lemma AllRolledBack(n: Node, start: Bus, w: World, ds: seq<DeviceInfo>, results: seq<AllocationResult>)
    requires Progress(n.devices, start, w.sys.bus, ds, results)
    ensures Undone(n, start, w, RollingBack(n, w, ds), results, None)
    ensures RollingBack(n, w, ds) == w.(sys := RollingBack(n, w, ds).sys, tally := RollingBack(n, w, ds).tally)
    ensures RollingBack(n, w, ds).tally.dirtyBinds == w.tally.dirtyBinds &&
            RollingBack(n, w, ds).tally.failedCleanups == w.tally.failedCleanups
  {
    var v := RollingBack(n, w, ds);
    RestoringAllRestores(n.script, w.sys, ds);
    if Distinct(n.devices, results) {
      ProgressAgrees(n.devices, start, w.sys.bus, ds, results);
      if v.tally.failedRollbacks == w.tally.failedRollbacks {
        WholeRollback(n.devices, start, w.sys.bus, v.sys.bus, ds, results);
      }
      if StartsLoadable(n.devices, start, results) {
        ProgressRestorable(n.devices, start, w.sys.bus, ds, results);
      }
    }
  }

  /** The files of the claim's devices are gone again. */
  ghost predicate FilesUndone(n: Node, w: World, v: World, ds: seq<DeviceInfo>) {
    && w.deviceInfos - InfoKeys(ds) <= v.deviceInfos <= w.deviceInfos && v.cdiSpecs == w.cdiSpecs
    && (v.tally.failedCleanups == w.tally.failedCleanups ==>
        v.deviceInfos == w.deviceInfos - if n.multus then InfoKeys(ds) else {})
    && (Calm(n.script, w.sys.tick, v.sys.tick) ==> v.tally.failedCleanups == w.tally.failedCleanups)
  }

  lemma UndoingFilesUndoes(n: Node, start: Bus, w: World, ds: seq<DeviceInfo>, results: seq<AllocationResult>)
    requires Progress(n.devices, start, w.sys.bus, ds, results)
    ensures Undone(n, start, w, UndoingFiles(n, w, ds), results, None) && FilesUndone(n, w, UndoingFiles(n, w, ds), ds)
    ensures UndoingFiles(n, w, ds).tally.dirtyBinds == w.tally.dirtyBinds
  {
    var cleaned := CleaningInfos(n, w, ds);
    CleaningAllCleans(n.script, w.deviceInfos, w.sys.tick, ds);
    var mid := cleaned.world.(tally := CountCleanup(w.tally, cleaned.ok));
    var v := RollingBack(n, mid, ds);
    AllRolledBack(n, start, mid, ds, results);
    assert Calm(n.script, w.sys.tick, v.sys.tick) ==> Calm(n.script, mid.sys.tick, v.sys.tick);
    assert Calm(n.script, w.sys.tick, v.sys.tick) ==> Calm(n.script, w.sys.tick, mid.sys.tick);
  }

  /** What writing the files of bound devices achieves. */
  ghost predicate WritesFiles(n: Node, start: Bus, w: World, uid: string, ds: seq<DeviceInfo>,
                              results: seq<AllocationResult>, done: Done) {
    var v := done.world;
    && w.cdiSpecs <= v.cdiSpecs <= w.cdiSpecs + {uid}
    && w.deviceInfos - InfoKeys(ds) <= v.deviceInfos <= w.deviceInfos + InfoKeys(ds)
    && (Calm(n.script, w.sys.tick, v.sys.tick) ==> v.tally.failedCleanups == w.tally.failedCleanups)
    && (if done.ok then
          && v.sys.bus == w.sys.bus && w.sys.tick <= v.sys.tick && v.tally == w.tally && uid in v.cdiSpecs
          && v.deviceInfos == w.deviceInfos + if n.multus then InfoKeys(ds) else {}
        else
          && Undone(n, start, w, v, results, None)
          && (v.tally.failedCleanups == w.tally.failedCleanups ==> v.deviceInfos <= w.deviceInfos))
  }

  lemma WritingFilesWrites(n: Node, start: Bus, w: World, uid: string, ds: seq<DeviceInfo>,
                           results: seq<AllocationResult>)
    requires Progress(n.devices, start, w.sys.bus, ds, results)
    ensures WritesFiles(n, start, w, uid, ds, results, WritingFiles(n, w, uid, ds))
  {
    var synced := SyncingInfos(n, w, ds);
    SavingAllSaves(n.script, w.deviceInfos, w.sys.tick, ds);
    var created := CreatingSpec(n, synced.world, uid);
    var mid := if synced.ok then created.world else synced.world;
    var v := UndoingFiles(n, mid, ds);
    UndoingFilesUndoes(n, start, mid, ds, results);
    UndoneEarlier(n, start, w, mid, v, results, None);
    assert Calm(n.script, w.sys.tick, v.sys.tick) ==> Calm(n.script, mid.sys.tick, v.sys.tick);
  }

  /** The bind of one of the claim's devices returned an error, in the state it was made in. */
  ghost predicate BindFailed(n: Node, w: World, claim: ResourceClaim, index: nat, p: string)
    requires claim.reservedFor != [] && claim.allocation.Some?
  {
    exists i: nat :: BindFailedAt(n, w, claim, FoldedMap(claim.allocation.value.configs),
                                  claim.allocation.value.results,
                                  [], index, claim.statuses, p, i)
  }

  /** Preparing a claim, all or nothing. On success every served device is bound as asked and on
      record. On failure at any step every initially bound device is back on its driver, except
      possibly one whose bind returned an error, and no device-info file of the call remains.
      Devices and files of other claims are never touched. */
  ghost predicate PreparesClaim(n: Node, w: World, claim: ResourceClaim, index: nat, prep: Prep)
    requires claim.reservedFor != [] && claim.allocation.Some?
  {
    var results, v := claim.allocation.value.results, prep.world;
    && SameOutside(w.sys.bus, v.sys.bus, ClaimAddresses(n.devices, results))
    && w.deviceInfos - ClaimInfoKeys(n.devices, results) <= v.deviceInfos <= w.deviceInfos + ClaimInfoKeys(n.devices,
            results)
    && w.cdiSpecs <= v.cdiSpecs <= w.cdiSpecs + {claim.uid}
    && (Calm(n.script, w.sys.tick, v.sys.tick) ==> v.tally.failedCleanups == w.tally.failedCleanups)
    && (prep.ok ==>
          && prep.devices != [] && Progress(n.devices, w.sys.bus, v.sys.bus, prep.devices, results)
          && v.tally == w.tally && w.sys.tick <= v.sys.tick && prep.failedBind.None?
          && claim.uid in v.cdiSpecs
          && v.deviceInfos == w.deviceInfos + if n.multus then InfoKeys(prep.devices) else {})
    && (!prep.ok ==>
          && Undone(n, w.sys.bus, w, v, results, prep.failedBind)
          && (prep.failedBind.Some? ==> BindFailed(n, w, claim, index, prep.failedBind.value))
          && (v.tally.failedCleanups == w.tally.failedCleanups ==> v.deviceInfos <= w.deviceInfos))
  }

  lemma ProgressFrame(devices: Devices, start: Bus, bus: Bus, ds: seq<DeviceInfo>, results: seq<AllocationResult>)
    requires Progress(devices, start, bus, ds, results)
    ensures SameOutside(start, bus, ClaimAddresses(devices, results))
    ensures ds == [] ==> bus == start
  {
    assert ds == [] ==> Rebound(ds) == {};
  }

  /** A preparation that ends before any file is written. */
  lemma EndedEarly(n: Node, w: World, claim: ResourceClaim, index: nat, prep: Prep)
    requires claim.reservedFor != [] && claim.allocation.Some? && (prep.ok ==> prep.devices == [])
    requires Prepares(n, w.sys.bus, w, claim.allocation.value.results, prep)
    requires prep.failedBind.Some? ==> BindFailed(n, w, claim, index, prep.failedBind.value)
    ensures PreparesClaim(n, w, claim, index, prep.(ok := false))
  {
    if prep.ok {
      ProgressFrame(n.devices, w.sys.bus, prep.world.sys.bus, prep.devices, claim.allocation.value.results);
    }
  }

  /** The end of a preparation whose devices are all bound. */
  lemma EndedWithFiles(n: Node, w: World, claim: ResourceClaim, index: nat, prep: Prep)
    requires claim.reservedFor != [] && claim.allocation.Some? && prep.ok && prep.devices != []
    requires Prepares(n, w.sys.bus, w, claim.allocation.value.results, prep)
    ensures var done := WritingFiles(n, prep.world, claim.uid, prep.devices);
            PreparesClaim(n, w, claim, index,
                          prep.(world := done.world, ok := done.ok, devices := if done.ok then prep.devices else []))
  {
    var results := claim.allocation.value.results;
    var done := WritingFiles(n, prep.world, claim.uid, prep.devices);
    WritingFilesWrites(n, w.sys.bus, prep.world, claim.uid, prep.devices, results);
    ProgressFrame(n.devices, w.sys.bus, prep.world.sys.bus, prep.devices, results);
    assert Calm(n.script, w.sys.tick, done.world.sys.tick) ==> Calm(n.script, prep.world.sys.tick, done.world.sys.tick);
    if !done.ok {
      UndoneEarlier(n, w.sys.bus, w, prep.world, done.world, results, None);
    }
  }

  lemma PrepareIsAllOrNothing(n: Node, w: World, claim: ResourceClaim, index: nat)
    requires claim.reservedFor != [] && claim.allocation.Some?
    ensures PreparesClaim(n, w, claim, index, PreparingClaim(n, w, claim, index))
  {
    var configs, results := claim.allocation.value.configs, claim.allocation.value.results;
    if Foldable(configs) {
      var prep := PreparingRest(n, w, claim, FoldedMap(configs), results, [], index, claim.statuses);
      NoProgress(n.devices, w.sys.bus);
      PreparingRestPrepares(n, w.sys.bus, w, claim, FoldedMap(configs), [], results, [], index, claim.statuses);
      assert [] + results == results;
      if prep.failedBind.Some? {
        var i := FailedBindFailed(n, w, claim, FoldedMap(configs), results, [], index, claim.statuses, prep);
        assert BindFailed(n, w, claim, index, prep.failedBind.value);
      }
      if prep.ok && prep.devices != [] {
        EndedWithFiles(n, w, claim, index, prep);
      } else {
        EndedEarly(n, w, claim, index, prep);
      }
    }
  }

  // ----- Unprepare -----

  /** What unpreparing a claim achieves: every part is attempted, only the devices' drivers and
      files and the claim's and pod's specs change, and success means that all is undone. */
  ghost predicate Unprepares(n: Node, w: World, uid: string, ds: seq<DeviceInfo>, done: Done) {
    var v := done.world;
    && v.tally == w.tally && w.sys.tick <= v.sys.tick
    && SameOutside(w.sys.bus, v.sys.bus, Rebound(ds))
    && (Agree(ds) ==> NoneLost(w.sys.bus, v.sys.bus, ds) && (DriversBack(n, w, ds) ==> AllRestored(v.sys.bus, ds)))
    && w.deviceInfos - InfoKeys(ds) <= v.deviceInfos <= w.deviceInfos
    && w.cdiSpecs - {uid} - (if ds == [] then {} else {ds[0].podUID}) <= v.cdiSpecs <= w.cdiSpecs
    && (done.ok ==>
          && DriversBack(n, w, ds)
          && v.deviceInfos == w.deviceInfos - (if n.multus then InfoKeys(ds) else {})
          && v.cdiSpecs == w.cdiSpecs - {uid} - (if ds == [] then {} else {ds[0].podUID}))
    && (Calm(n.script, w.sys.tick, v.sys.tick) && Restorable(w.sys.bus, ds) ==> done.ok)
  }

  lemma UnpreparingUnprepares(n: Node, w: World, uid: string, ds: seq<DeviceInfo>)
    ensures Unprepares(n, w, uid, ds, Unpreparing(n, w, uid, ds))
  {
    var cleaned := CleaningInfos(n, w, ds);
    CleaningAllCleans(n.script, w.deviceInfos, w.sys.tick, ds);
    RestoringAllRestores(n.script, cleaned.world.sys, ds);
  }

  // ----- One device per result, under its configuration -----

  /** The results that this driver serves, in order. */
  function OwnResults(results: seq<AllocationResult>): seq<AllocationResult> {
    if results == [] then []
    else (if results[0].driver == DRIVER_NAME then [results[0]] else []) + OwnResults(results[1..])
  }

  predicate SetsString(attrs: Attrs, key: QualifiedName) {
    key in attrs && attrs[key].stringValue.Some? && attrs[key].stringValue != Some("")
  }

  /** A file is for a device in MULTUS mode that has both Multus attributes. */
  predicate GetsFile(multus: bool, attrs: Attrs) {
    multus && SetsString(attrs, MULTUS_RESOURCE_NAME) && SetsString(attrs, MULTUS_DEVICE_ID)
  }

  /** The record carries the attributes that name the file, or names no file. */
  predicate RecordsMultus(multus: bool, attrs: Attrs, info: DeviceInfo) {
    if GetsFile(multus, attrs) then
      && attrs[MULTUS_RESOURCE_NAME].stringValue == Some(info.multusResourceName)
      && attrs[MULTUS_DEVICE_ID].stringValue == Some(info.multusDeviceID)
    else info.multusResourceName == "" && info.multusDeviceID == ""
  }

  /** The prepared device of one result, under the request's configuration. */
  ghost predicate MatchesResult(n: Node, info: DeviceInfo, claim: ResourceClaim, configs: map<string, Settings>,
                                r: AllocationResult) {
    var config := Effective(configs, r.request);
    && r.device in n.devices && info.pciAddress == Address(n.devices, r.device)
    && RecordsMultus(n.multus, n.devices[r.device].attributes, info)
    && info.deviceName == r.device && info.request == r.request && info.pool == r.pool
    && info.driver == Some(config.driver)
    && info.claimUID == claim.uid && claim.reservedFor != [] && info.podUID == claim.reservedFor[0]
    && info.claimName == claim.name && info.claimNamespace == claim.namespace
    && (n.multus || config.ifName != "" ==> info.ifName == config.ifName)
  }

  /** One prepared device per served result, in order. */
  ghost predicate Matches(n: Node, ds: seq<DeviceInfo>, claim: ResourceClaim, configs: map<string, Settings>,
                          own: seq<AllocationResult>) {
    |ds| == |own| && forall k :: 0 <= k < |ds| ==> MatchesResult(n, ds[k], claim, configs, own[k])
  }

  lemma AppliedMatches(n: Node, w: World, claim: ResourceClaim, configs: map<string, Settings>, r: AllocationResult,
                       index: nat)
    requires claim.reservedFor != [] && ApplyingConfig(n, w, claim, Effective(configs, r.request), r,
                                                       index).device.Some?
    ensures MatchesResult(n, ApplyingConfig(n, w, claim, Effective(configs, r.request), r, index).device.value, claim,
                          configs, r)
  {
  }

  lemma MatchesOneMore(n: Node, ds: seq<DeviceInfo>, d: DeviceInfo, claim: ResourceClaim,
                       configs: map<string, Settings>,
                       own: seq<AllocationResult>, r: AllocationResult)
    requires Matches(n, ds, claim, configs, own) && MatchesResult(n, d, claim, configs, r)
    ensures Matches(n, ds + [d], claim, configs, own + [r])
  {
  }

  lemma OwnFirst(own: seq<AllocationResult>, results: seq<AllocationResult>)
    requires results != []
    ensures own + OwnResults(results) ==
            (if results[0].driver == DRIVER_NAME then own + [results[0]] else own) + OwnResults(results[1..])
  {
  }

  lemma {:induction false} PreparedMatch(n: Node, w: World, claim: ResourceClaim, configs: map<string, Settings>,
                                         results: seq<AllocationResult>,
                                         before: seq<DeviceInfo>, own: seq<AllocationResult>, index: nat,
                                           statuses: Statuses, prep: Prep)
    requires claim.reservedFor != [] && Matches(n, before, claim, configs, own)
    requires prep == PreparingRest(n, w, claim, configs, results, before, index, statuses) && prep.ok
    ensures Matches(n, prep.devices, claim, configs, own + OwnResults(results))
    decreases |results|
  {
    if results == [] {
      assert own + OwnResults(results) == own;
    } else {
      var r, rest := results[0], results[1..];
      OwnFirst(own, results);
      if r.driver != DRIVER_NAME {
        PreparedMatch(n, w, claim, configs, rest, before, own, index, statuses, prep);
      } else {
        var a := ApplyingConfig(n, w, claim, Effective(configs, r.request), r, index);
        AppliedMatches(n, w, claim, configs, r, index);
        MatchesOneMore(n, before, a.device.value, claim, configs, own, r);
        PreparedMatch(n, a.world, claim, configs, rest, before + [a.device.value], own + [r], a.index,
                      Upserted(statuses, StatusOf(r)), prep);
      }
    }
  }

  /** A prepared claim has one device per served result, in order, as configured for its request. */
  lemma PreparedClaimMatches(n: Node, w: World, claim: ResourceClaim, index: nat)
    requires claim.reservedFor != [] && claim.allocation.Some? && PreparingClaim(n, w, claim, index).ok
    ensures Matches(n, PreparingClaim(n, w, claim, index).devices, claim, FoldedMap(claim.allocation.value.configs),
                    OwnResults(claim.allocation.value.results))
  {
    var results := claim.allocation.value.results;
    var configs := FoldedMap(claim.allocation.value.configs);
    PreparedMatch(n, w, claim, configs, results, [], [], index, claim.statuses,
                  PreparingRest(n, w, claim, configs, results, [], index, claim.statuses));
    assert [] + OwnResults(results) == OwnResults(results);
  }

  /** Reporting a device touches no other driver's entry and doubles no key. */
  ghost predicate ReportsOwn(before: Statuses, after: Statuses) {
    Foreign(after, DRIVER_NAME) == Foreign(before, DRIVER_NAME) && (UniqueKeys(before) ==> UniqueKeys(after))
  }

  lemma {:induction false} PreparedReports(n: Node, w: World, claim: ResourceClaim, configs: map<string, Settings>,
                                           results: seq<AllocationResult>,
                                           before: seq<DeviceInfo>, index: nat, statuses: Statuses)
    requires claim.reservedFor != []
    ensures ReportsOwn(statuses, PreparingRest(n, w, claim, configs, results, before, index, statuses).statuses)
    decreases |results|
  {
    if results != [] {
      var r := results[0];
      if r.driver != DRIVER_NAME {
        PreparedReports(n, w, claim, configs, results[1..], before, index, statuses);
      } else {
        var a := ApplyingConfig(n, w, claim, Effective(configs, r.request), r, index);
        if a.device.Some? {
          UpsertKeepsForeign(statuses, StatusOf(r));
          if UniqueKeys(statuses) {
            UpsertedUnique(statuses, StatusOf(r));
          }
          PreparedReports(n, a.world, claim, configs, results[1..], before + [a.device.value], a.index,
                          Upserted(statuses, StatusOf(r)));
        }
      }
    }
  }
}
