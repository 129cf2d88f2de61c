/** When preparing a claim succeeds: without faults, exactly on inputs that can be read off the
    claim, the node's devices and its bus (pkg/devicestate/state.go, pkg/devicestate/deviceinfo.go). */
module PrepareSuccess {
  import opened Attributes
  import opened ClaimStatus
  import opened Environment
  import opened HostDriver
  import opened PodManager
  import opened Preparation
  import opened VfConfigs
  import opened AllOrNothing

  // ----- Drivers -----

  /** The device is known, and its driver can be changed as its request is configured: not at all, or
      on the bus and to a driver whose kernel module is known. */
  predicate Bindable(n: Node, bus: Bus, configs: map<string, Settings>, r: AllocationResult) {
    r.device in n.devices &&
    var asked := Effective(configs, r.request).driver;
    asked == "" || (Address(n.devices, r.device) in bus && asked != "uio_pci_generic" && asked != "igb_uio")
  }

  ghost predicate AllBindable(n: Node, bus: Bus, configs: map<string, Settings>, results: seq<AllocationResult>) {
    forall r :: r in results && r.driver == DRIVER_NAME ==> Bindable(n, bus, configs, r)
  }

  lemma CalmApplying(n: Node, w: World, claim: ResourceClaim, configs: map<string, Settings>, r: AllocationResult,
                     index: nat, a: Applied)
    requires claim.reservedFor != [] && a == ApplyingConfig(n, w, claim, Effective(configs, r.request), r, index)
    requires Calm(n.script, w.sys.tick, a.world.sys.tick)
    ensures a.device.Some? <==> Bindable(n, w.sys.bus, configs, r)
  {
    if r.device in n.devices {
      var p, found, config := Address(n.devices, r.device), LookingUp(n, w), Effective(configs, r.request);
      var bound := Binding(n.script, found.sys, p, config.driver);
      BindingBinds(n.script, found.sys, p, config.driver);
      RestoringRestores(n.script, Read(n.script, bound.sys).sys, p, Reported(w.sys, p, config.driver, true));
    }
  }

  /** A device whose driver is left alone needs its network looked up in STANDALONE mode, and the steps
      after the bind; in MULTUS mode only the latter. */
  lemma UnboundNeeds(n: Node, w: World, claim: ResourceClaim, config: Settings, r: AllocationResult, index: nat,
                     a: Applied)
    requires claim.reservedFor != [] && a == ApplyingConfig(n, w, claim, config, r, index)
    requires config.driver == "" && r.device in n.devices
    ensures a.device.Some? <==>
            !n.script(w.sys.tick).error && (n.multus || !n.script(w.sys.tick + 1).error)
    ensures a.device.Some? ==> a.world.sys == Sys(w.sys.bus, w.sys.tick + if n.multus then 1 else 2)
  {
  }

  lemma RollingBackKeepsTime(n: Node, w: World, ds: seq<DeviceInfo>)
    ensures w.sys.tick <= RollingBack(n, w, ds).sys.tick
  {
    RestoringAllFrame(n.script, w.sys, ds);
  }

  lemma ApplyingKeepsKeys(n: Node, w: World, claim: ResourceClaim, config: Settings, r: AllocationResult, index: nat,
                          a: Applied)
    requires claim.reservedFor != [] && a == ApplyingConfig(n, w, claim, config, r, index)
    ensures w.sys.tick <= a.world.sys.tick && a.world.sys.bus.Keys == w.sys.bus.Keys
  {
    ApplyingConfigApplies(n, w, claim, config, r, index);
  }

  lemma {:induction false} PreparingKeepsTime(n: Node, w: World, claim: ResourceClaim, configs: map<string, Settings>,
                                              results: seq<AllocationResult>, before: seq<DeviceInfo>, index: nat,
                                              statuses: Statuses, prep: Prep)
    requires claim.reservedFor != []
    requires prep == PreparingRest(n, w, claim, configs, results, before, index, statuses)
    ensures w.sys.tick <= prep.world.sys.tick
    decreases |results|
  {
    if results != [] {
      var r, rest := results[0], results[1..];
      if r.driver != DRIVER_NAME {
        PreparingKeepsTime(n, w, claim, configs, rest, before, index, statuses, prep);
      } else {
        var config := Effective(configs, r.request);
        var a := ApplyingConfig(n, w, claim, config, r, index);
        ApplyingKeepsKeys(n, w, claim, config, r, index, a);
        if a.device.None? {
          RollingBackKeepsTime(n, a.world, before);
        } else {
          PreparingKeepsTime(n, a.world, claim, configs, rest, before + [a.device.value], a.index,
                             Upserted(statuses, StatusOf(r)), prep);
        }
      }
    }
  }

  lemma BindableKeys(n: Node, a: Bus, b: Bus, configs: map<string, Settings>, results: seq<AllocationResult>)
    requires a.Keys == b.Keys
    ensures AllBindable(n, a, configs, results) <==> AllBindable(n, b, configs, results)
  {
    assert forall r :: Bindable(n, a, configs, r) <==> Bindable(n, b, configs, r);
  }

  lemma BindableFirst(n: Node, bus: Bus, configs: map<string, Settings>, results: seq<AllocationResult>)
    requires results != []
    ensures AllBindable(n, bus, configs, results) <==>
            (results[0].driver == DRIVER_NAME ==> Bindable(n, bus, configs, results[0])) &&
            AllBindable(n, bus, configs, results[1..])
  {
    assert results == [results[0]] + results[1..];
  }

  /** Without faults the drivers of a claim are all changed exactly when each can be. */
  lemma {:induction false} CalmPreparing(n: Node, w: World, claim: ResourceClaim, configs: map<string, Settings>,
                                         results: seq<AllocationResult>, before: seq<DeviceInfo>, index: nat,
                                         statuses: Statuses, prep: Prep)
    requires claim.reservedFor != []
    requires prep == PreparingRest(n, w, claim, configs, results, before, index, statuses)
    requires Calm(n.script, w.sys.tick, prep.world.sys.tick)
    ensures prep.ok <==> AllBindable(n, w.sys.bus, configs, results)
    decreases |results|
  {
    if results != [] {
      var r, rest := results[0], results[1..];
      BindableFirst(n, w.sys.bus, configs, results);
      if r.driver != DRIVER_NAME {
        CalmPreparing(n, w, claim, configs, rest, before, index, statuses, prep);
      } else {
        var config := Effective(configs, r.request);
        var a := ApplyingConfig(n, w, claim, config, r, index);
        ApplyingKeepsKeys(n, w, claim, config, r, index, a);
        if a.device.None? {
          RollingBackKeepsTime(n, a.world, before);
          CalmApplying(n, w, claim, configs, r, index, a);
        } else {
          var more, reported := before + [a.device.value], Upserted(statuses, StatusOf(r));
          PreparingKeepsTime(n, a.world, claim, configs, rest, more, a.index, reported, prep);
          CalmApplying(n, w, claim, configs, r, index, a);
          CalmPreparing(n, a.world, claim, configs, rest, more, a.index, reported, prep);
          BindableKeys(n, w.sys.bus, a.world.sys.bus, configs, rest);
        }
      }
    }
  }

  // ----- Files -----

  /** In MULTUS mode a device with both Multus attributes gets a file, for which it needs an address. */
  predicate Savable(n: Node, r: AllocationResult) {
    r.device in n.devices && (GetsFile(n.multus, n.devices[r.device].attributes) ==> Address(n.devices, r.device) != "")
  }

  ghost predicate AllSavable(n: Node, results: seq<AllocationResult>) {
    forall r :: r in results && r.driver == DRIVER_NAME ==> Savable(n, r)
  }

  lemma {:induction false} OwnMembers(results: seq<AllocationResult>, r: AllocationResult)
    ensures r in OwnResults(results) <==> r in results && r.driver == DRIVER_NAME
  {
    if results != [] {
      OwnMembers(results[1..], r);
      assert results == [results[0]] + results[1..];
    }
  }

  lemma SavableDevice(n: Node, d: DeviceInfo, claim: ResourceClaim, configs: map<string, Settings>,
                      r: AllocationResult)
    requires MatchesResult(n, d, claim, configs, r)
    ensures Savable(n, r) <==> (HasInfoKey(d) ==> d.pciAddress != "")
  {
  }

  /** The devices of a claim can get their files exactly when its results can. */
  lemma AddressedExactly(n: Node, ds: seq<DeviceInfo>, claim: ResourceClaim, configs: map<string, Settings>,
                         results: seq<AllocationResult>)
    requires Matches(n, ds, claim, configs, OwnResults(results))
    ensures Addressed(ds) <==> AllSavable(n, results)
  {
    var own := OwnResults(results);
    forall k | 0 <= k < |own|
      ensures Savable(n, own[k]) <==> (HasInfoKey(ds[k]) ==> ds[k].pciAddress != "")
    {
      SavableDevice(n, ds[k], claim, configs, own[k]);
    }
    forall r
      ensures r in own <==> r in results && r.driver == DRIVER_NAME
    {
      OwnMembers(results, r);
    }
    if Addressed(ds) {
      forall r | r in own
        ensures Savable(n, r)
      {
        var k :| 0 <= k < |own| && own[k] == r;
        assert ds[k] in ds;
      }
    }
    if AllSavable(n, results) {
      forall d | d in ds && HasInfoKey(d)
        ensures d.pciAddress != ""
      {
        var k :| 0 <= k < |ds| && ds[k] == d;
        assert own[k] in own;
      }
    }
  }

  lemma UndoingKeepsTime(n: Node, w: World, ds: seq<DeviceInfo>)
    ensures w.sys.tick <= UndoingFiles(n, w, ds).sys.tick
  {
    CleaningAllCleans(n.script, w.deviceInfos, w.sys.tick, ds);
    var cleaned := CleaningInfos(n, w, ds);
    RollingBackKeepsTime(n, cleaned.world.(tally := CountCleanup(w.tally, cleaned.ok)), ds);
  }

  lemma CalmWriting(n: Node, w: World, uid: string, ds: seq<DeviceInfo>, done: Done)
    requires done == WritingFiles(n, w, uid, ds) && Calm(n.script, w.sys.tick, done.world.sys.tick)
    ensures w.sys.tick <= done.world.sys.tick
    ensures done.ok <==> (n.multus ==> Addressed(ds))
  {
    var synced := SyncingInfos(n, w, ds);
    SavingAllSaves(n.script, w.deviceInfos, w.sys.tick, ds);
    var created := CreatingSpec(n, synced.world, uid);
    if !synced.ok {
      UndoingKeepsTime(n, synced.world, ds);
    } else if !created.ok {
      UndoingKeepsTime(n, created.world, ds);
    }
  }

  // ----- The claim -----

  /** The claim can be prepared on this node: its configurations fold, it has a result of this driver,
      and every such result can be bound and saved. */
  ghost predicate Servable(n: Node, bus: Bus, claim: ResourceClaim)
    requires claim.allocation.Some?
  {
    var configs, results := claim.allocation.value.configs, claim.allocation.value.results;
    && Foldable(configs) && (exists r :: r in results && r.driver == DRIVER_NAME)
    && AllBindable(n, bus, FoldedMap(configs), results) && AllSavable(n, results)
  }

  /** Without faults a claim is prepared exactly when it can be. */
  lemma CalmPrepareExactly(n: Node, w: World, claim: ResourceClaim, index: nat, prep: Prep)
    requires claim.reservedFor != [] && claim.allocation.Some? && prep == PreparingClaim(n, w, claim, index)
    requires Calm(n.script, w.sys.tick, prep.world.sys.tick)
    ensures prep.ok <==> Servable(n, w.sys.bus, claim)
  {
    var configs, results := claim.allocation.value.configs, claim.allocation.value.results;
    if Foldable(configs) {
      var bound := PreparingRest(n, w, claim, FoldedMap(configs), results, [], index, claim.statuses);
      PreparingKeepsTime(n, w, claim, FoldedMap(configs), results, [], index, claim.statuses, bound);
      if bound.ok {
        PreparedMatch(n, w, claim, FoldedMap(configs), results, [], [], index, claim.statuses, bound);
        assert [] + OwnResults(results) == OwnResults(results);
        AddressedExactly(n, bound.devices, claim, FoldedMap(configs), results);
        HasOwnExactly(results);
      }
      if bound.ok && bound.devices != [] {
        WritingEndsLater(n, bound.world, claim.uid, bound.devices);
        CalmWriting(n, bound.world, claim.uid, bound.devices,
                    WritingFiles(n, bound.world, claim.uid, bound.devices));
      }
      CalmPreparing(n, w, claim, FoldedMap(configs), results, [], index, claim.statuses, bound);
    }
  }

  lemma WritingEndsLater(n: Node, w: World, uid: string, ds: seq<DeviceInfo>)
    ensures w.sys.tick <= WritingFiles(n, w, uid, ds).world.sys.tick
  {
    var synced := SyncingInfos(n, w, ds);
    SavingAllSaves(n.script, w.deviceInfos, w.sys.tick, ds);
    UndoingKeepsTime(n, synced.world, ds);
    UndoingKeepsTime(n, CreatingSpec(n, synced.world, uid).world, ds);
  }

  lemma HasOwnExactly(results: seq<AllocationResult>)
    ensures OwnResults(results) != [] <==> exists r :: r in results && r.driver == DRIVER_NAME
  {
    var own := OwnResults(results);
    if own != [] {
      OwnMembers(results, own[0]);
    }
    if r :| r in results && r.driver == DRIVER_NAME {
      OwnMembers(results, r);
    }
  }

  // ----- What is reported -----

  /** The entry is the result's own: its driver, pool, device and share, without network data yet. */
  predicate IsEntryOf(x: DeviceStatus, r: AllocationResult) {
    && x.driver == r.driver && x.pool == r.pool && x.device == r.device && x.networkData.None?
    && (x.shareID == r.shareID || {x.shareID, r.shareID} == {None, Some("")})
  }

  ghost predicate IsReported(list: Statuses, r: AllocationResult) { exists x :: x in list && IsEntryOf(x, r) }

  lemma UpsertedReports(list: Statuses, r: AllocationResult)
    ensures IsReported(Upserted(list, StatusOf(r)), r)
    ensures forall q :: IsReported(list, q) ==> IsReported(Upserted(list, StatusOf(r)), q)
    ensures forall x :: x in Upserted(list, StatusOf(r)) ==> x in list || IsEntryOf(x, r)
  {
    var s := StatusOf(r);
    UpsertedMembers(list, s);
    assert IsEntryOf(s, r);
    forall q | IsReported(list, q)
      ensures IsReported(Upserted(list, s), q)
    {
      var x :| x in list && IsEntryOf(x, q);
      if KeyOf(x) == KeyOf(s) {
        assert IsEntryOf(s, q);
      }
    }
  }

  /** Every served result of a prepared claim is reported under its own name, whatever was reported
      stays so, and every entry is an earlier one or that of a served result. */
  lemma {:induction false} PreparedIsReported(n: Node, w: World, claim: ResourceClaim, configs: map<string, Settings>,
                                              results: seq<AllocationResult>, before: seq<DeviceInfo>, index: nat,
                                              statuses: Statuses, prep: Prep)
    requires claim.reservedFor != []
    requires prep == PreparingRest(n, w, claim, configs, results, before, index, statuses)
    ensures prep.ok ==> forall r :: r in results && r.driver == DRIVER_NAME ==> IsReported(prep.statuses, r)
    ensures forall r :: IsReported(statuses, r) ==> IsReported(prep.statuses, r)
    ensures forall x :: x in prep.statuses ==>
              x in statuses || exists r :: r in results && r.driver == DRIVER_NAME && IsEntryOf(x, r)
    decreases |results|
  {
    if results != [] {
      var r, rest := results[0], results[1..];
      assert results == [r] + rest;
      if r.driver != DRIVER_NAME {
        PreparedIsReported(n, w, claim, configs, rest, before, index, statuses, prep);
      } else {
        var a := ApplyingConfig(n, w, claim, Effective(configs, r.request), r, index);
        if a.device.Some? {
          UpsertedReports(statuses, r);
          PreparedIsReported(n, a.world, claim, configs, rest, before + [a.device.value], a.index,
                             Upserted(statuses, StatusOf(r)), prep);
        }
      }
    }
  }

  // ----- What happens after a failure -----

  /** Restoring stops at the first device that cannot be restored. */
  lemma {:induction false} RestoringStops(e: Script, s: Sys, a: seq<DeviceInfo>, b: seq<DeviceInfo>)
    ensures var first := RestoringAll(e, s, a);
            RestoringAll(e, s, a + b) == if first.ok then RestoringAll(e, first.sys, b) else first
    decreases |a|
  {
    if a == [] {
      assert a + b == b;
    } else {
      assert (a + b)[0] == a[0] && (a + b)[1..] == a[1..] + b;
      if Rebinds(a[0]) {
        RestoringStops(e, Restoring(e, s, a[0].pciAddress, a[0].originalDriver).sys, a[1..], b);
      } else {
        RestoringStops(e, s, a[1..], b);
      }
    }
  }

  /** Cleaning and saving go on after a failure, and report it in the end. */
  lemma {:induction false} CleaningGoesOn(e: Script, keys: set<InfoKey>, tick: nat, a: seq<DeviceInfo>,
                                          b: seq<DeviceInfo>)
    ensures var first := CleaningAll(e, keys, tick, a);
            var rest := CleaningAll(e, first.keys, first.tick, b);
            CleaningAll(e, keys, tick, a + b) == rest.(ok := first.ok && rest.ok)
    decreases |a|
  {
    if a == [] {
      assert a + b == b;
    } else {
      assert (a + b)[0] == a[0] && (a + b)[1..] == a[1..] + b;
      if HasInfoKey(a[0]) {
        var first := Cleaning(e, keys, tick, InfoKeyOf(a[0]));
        CleaningGoesOn(e, first.keys, first.tick, a[1..], b);
      } else {
        CleaningGoesOn(e, keys, tick, a[1..], b);
      }
    }
  }

  lemma {:induction false} SavingGoesOn(e: Script, keys: set<InfoKey>, tick: nat, a: seq<DeviceInfo>,
                                        b: seq<DeviceInfo>)
    ensures var first := SavingAll(e, keys, tick, a);
            var rest := SavingAll(e, first.keys, first.tick, b);
            SavingAll(e, keys, tick, a + b) == rest.(ok := first.ok && rest.ok)
    decreases |a|
  {
    if a == [] {
      assert a + b == b;
    } else {
      assert (a + b)[0] == a[0] && (a + b)[1..] == a[1..] + b;
      if HasInfoKey(a[0]) {
        var first := Saving(e, keys, tick, a[0]);
        SavingGoesOn(e, first.keys, first.tick, a[1..], b);
      } else {
        SavingGoesOn(e, keys, tick, a[1..], b);
      }
    }
  }

  /** An unprepare goes on after a failure: when only the files cannot be removed, the drivers are back and
      the specs gone all the same, and when the drivers cannot be restored either, the specs are gone. */
  lemma UnprepareGoesOn(n: Node, w: World, uid: string, ds: seq<DeviceInfo>, done: Done)
    requires done == Unpreparing(n, w, uid, ds)
    ensures var cleaned := CleaningInfos(n, w, ds);
            var restored := RestoringAll(n.script, cleaned.world.sys, ds);
            && (Calm(n.script, cleaned.world.sys.tick, restored.sys.tick) && Restorable(w.sys.bus, ds) && Agree(ds) ==>
                  AllRestored(done.world.sys.bus, ds))
            && (Calm(n.script, restored.sys.tick, done.world.sys.tick) ==>
                  done.world.cdiSpecs == w.cdiSpecs - {uid} - (if ds == [] then {} else {ds[0].podUID}))
  {
    var cleaned := CleaningInfos(n, w, ds);
    RestoringAllRestores(n.script, cleaned.world.sys, ds);
  }
}
