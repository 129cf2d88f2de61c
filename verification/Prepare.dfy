/** The operations that prepare and unprepare the devices of a claim (pkg/devicestate/state.go
    and deviceinfo.go), each proved to compute its function in `Preparation`. */
module Prepare {
  import opened AllOrNothing
  import opened Attributes
  import opened ClaimStatus
  import opened Environment
  import opened HostDriver
  import opened Naming
  import opened PodManager
  import opened Preparation
  import opened VfConfigs

  class ClaimManager {
    const host: Host
    const env: Environment
    const multus: bool
    const prefix: string
    var allocatable: Devices
    var deviceInfos: set<InfoKey>
    var cdiSpecs: set<string>
    ghost var tally: Tally

    constructor (host: Host, multus: bool, prefix: string, allocatable: Devices)
      ensures this.host == host && env == host.env && this.multus == multus && this.prefix == prefix
      ensures this.allocatable == allocatable && deviceInfos == {} && cdiSpecs == {} && tally == Tally(0, 0, 0)
    {
      this.host, this.env, this.multus, this.prefix, this.allocatable := host, host.env, multus, prefix, allocatable;
      deviceInfos, cdiSpecs, tally := {}, {}, Tally(0, 0, 0);
    }

    ghost predicate Wired() { env == host.env }

    ghost function TheNode(): Node
      reads this
    {
      Node(allocatable, multus, prefix, env.script)
    }

    ghost function TheWorld(): World
      reads this, host, host.env
    {
      World(host.State(), deviceInfos, cdiSpecs, tally)
    }

    /** Restores the recorded drivers in order and stops at the first failure. */
    method UnprepareDevices(ds: PreparedDevices) returns (ok: bool)
      requires Wired()
      modifies host, env
      ensures Step(host.State(), ok) == RestoringAll(env.script, old(host.State()), InfoList(ds))
    {
      ghost var infos, start := InfoList(ds), host.State();
      for i := 0 to |ds|
        invariant RestoringAll(env.script, start, infos) == RestoringAll(env.script, host.State(), infos[i..])
      {
        assert infos[i..][0] == ds[i].info && infos[i..][1..] == infos[i + 1..];
        if Rebinds(ds[i].info) {
          var restored := host.RestoreDeviceDriver(ds[i].info.pciAddress, ds[i].info.originalDriver);
          if !restored {
            return false;
          }
        }
      }
      return true;
    }

    // ----- Device-info files -----

    /** Deletes one file; a failed deletion may have happened all the same. */
    method CleanDeviceInfo(key: InfoKey) returns (ok: bool)
      modifies this`deviceInfos, env
      ensures Files(deviceInfos, env.tick, ok) == Cleaning(env.script, old(deviceInfos), old(env.tick), key)
    {
      var reply := env.Access();
      if Takes(reply) {
        deviceInfos := deviceInfos - {key};
      }
      return !reply.error;
    }

    method SaveDeviceInfo(info: DeviceInfo) returns (ok: bool)
      modifies this`deviceInfos, env
      ensures Files(deviceInfos, env.tick, ok) == Saving(env.script, old(deviceInfos), old(env.tick), info)
    {
      if info.pciAddress == "" {
        return false;
      }
      var cleaned := CleanDeviceInfo(InfoKeyOf(info));
      if !cleaned {
        return false;
      }
      var reply := env.Access();
      if Takes(reply) {
        deviceInfos := deviceInfos + {InfoKeyOf(info)};
      }
      return !reply.error;
    }

    /** Writes the files of all eligible devices in MULTUS mode, going on after an error. */
    method SyncDeviceInfos(ds: PreparedDevices) returns (ok: bool)
      requires Wired()
      modifies this`deviceInfos, env
      ensures Done(TheWorld(), ok) == SyncingInfos(TheNode(), old(TheWorld()), InfoList(ds))
      ensures ok && multus ==> deviceInfos == old(deviceInfos) + InfoKeys(InfoList(ds))
    {
      ok := true;
      if !multus {
        return;
      }
      ghost var infos := InfoList(ds);
      ghost var whole := SavingAll(env.script, deviceInfos, env.tick, infos);
      SavingAllSaves(env.script, deviceInfos, env.tick, infos);
      for i := 0 to |ds|
        invariant var rest := SavingAll(env.script, deviceInfos, env.tick, infos[i..]);
                  whole == rest.(ok := ok && rest.ok)
      {
        assert infos[i..][0] == ds[i].info && infos[i..][1..] == infos[i + 1..];
        if HasInfoKey(ds[i].info) {
          var saved := SaveDeviceInfo(ds[i].info);
          ok := ok && saved;
        }
      }
    }

    /** Deletes the files of all eligible devices in MULTUS mode, going on after an error. */
    method CleanDeviceInfos(ds: PreparedDevices) returns (ok: bool)
      requires Wired()
      modifies this`deviceInfos, env
      ensures Done(TheWorld(), ok) == CleaningInfos(TheNode(), old(TheWorld()), InfoList(ds))
      ensures ok && multus ==> deviceInfos == old(deviceInfos) - InfoKeys(InfoList(ds))
    {
      ok := true;
      if !multus {
        return;
      }
      ghost var infos := InfoList(ds);
      ghost var whole := CleaningAll(env.script, deviceInfos, env.tick, infos);
      CleaningAllCleans(env.script, deviceInfos, env.tick, infos);
      for i := 0 to |ds|
        invariant var rest := CleaningAll(env.script, deviceInfos, env.tick, infos[i..]);
                  whole == rest.(ok := ok && rest.ok)
      {
        assert infos[i..][0] == ds[i].info && infos[i..][1..] == infos[i + 1..];
        if HasInfoKey(ds[i].info) {
          var cleaned := CleanDeviceInfo(InfoKeyOf(ds[i].info));
          ok := ok && cleaned;
        }
      }
    }

    // ----- One device -----

    /** A step outside the model that may fail. */
    method OutsideStep() returns (ok: bool)
      requires Wired()
      modifies env
      ensures Step(host.State(), ok) == Read(env.script, old(host.State()))
    {
      var reply := env.Access();
      return !reply.error;
    }

    /** Binds one device and describes it. A step that fails after binding restores the
        driver; a bind that fails leaves its device as it is. */
    method ApplyConfigOnDevice(claim: ResourceClaim, config: Settings, r: AllocationResult, index: nat)
      returns (device: PreparedDevice?, index': nat, ghost failedBind: Option<string>)
      requires Wired() && claim.reservedFor != []
      modifies host, env, this`tally
      ensures device != null ==> fresh(device) && device.networkData == None
      ensures Applied(TheWorld(), if device == null then None else Some(device.info), index', failedBind) ==
              ApplyingConfig(TheNode(), old(TheWorld()), claim, config, r, index)
    {
      device, index', failedBind := null, index, None;
      if r.device !in allocatable {
        return;
      }
      var p := Address(allocatable, r.device);
      var names := if multus then MultusAttributes(allocatable[r.device].attributes) else ("", "");
      if !multus {
        var found := OutsideStep();
        if !found {
          return;
        }
      }
      var original, bound := host.BindDeviceDriver(p, config.driver);
      if !bound {
        failedBind := Some(p);
        tally := CountDirty(tally, DriverOf(host.bus, p) != DriverOf(old(host.bus), p));
        return;
      }
      var completed := OutsideStep();
      if !completed {
        if config.driver != "" {
          var restored := host.RestoreDeviceDriver(p, original);
          tally := CountRollback(tally, restored);
        }
        return;
      }
      var ifName := config.ifName;
      if !multus && ifName == "" {
        ifName, index' := AutoName(prefix, index), index + 1;
      }
      device := new PreparedDevice(
        DeviceInfo(claim.reservedFor[0], claim.uid, claim.name, claim.namespace, r.request, r.pool, r.device, p,
                   Some(config.driver), original, names.0, names.1, ifName), None);
    }

    // ----- All devices of a claim -----

    /** Restores the drivers of prepared devices and counts a failure. */
    method RollBack(ds: PreparedDevices)
      requires Wired()
      modifies host, env, this`tally
      ensures TheWorld() == RollingBack(TheNode(), old(TheWorld()), InfoList(ds))
    {
      var undone := UnprepareDevices(ds);
      tally := CountRollback(tally, undone);
    }

    /** Prepares the device of one result, or rolls back the earlier ones. */
    method PrepareNext(claim: ResourceClaim, configs: map<string, Settings>, r: AllocationResult,
                       before: PreparedDevices,
                       index: nat, reported: Statuses, ghost rest: seq<AllocationResult>)
      returns (ds: PreparedDevices, ok: bool, index': nat, statuses: Statuses, ghost failedBind: Option<string>)
      requires Wired() && claim.reservedFor != [] && r.driver == DRIVER_NAME
      modifies host, env, this`tally
      ensures var whole := PreparingRest(TheNode(), old(TheWorld()), claim, configs, [r] + rest, InfoList(before),
                                         index, reported);
              if ok then whole == PreparingRest(TheNode(), TheWorld(), claim, configs, rest, InfoList(ds), index',
                                                statuses) && failedBind.None?
              else whole == Prep(TheWorld(), InfoList(ds), false, index', statuses, failedBind)
    {
      var device;
      assert ([r] + rest)[0] == r && ([r] + rest)[1..] == rest;
      device, index', failedBind := ApplyConfigOnDevice(claim, Effective(configs, r.request), r, index);
      if device == null {
        RollBack(before);
        return [], false, index', reported, failedBind;
      }
      statuses := UpsertDeviceStatus(reported, StatusOf(r));
      assert InfoList(before + [device]) == InfoList(before) + [device.info];
      ds, ok := before + [device], true;
    }

    /** Prepares the devices in order; on an error the ones prepared so far are restored. */
    method PrepareDevices(claim: ResourceClaim, configs: map<string, Settings>, results: seq<AllocationResult>,
                          index: nat)
      returns (ds: PreparedDevices, ok: bool, index': nat, statuses: Statuses, ghost failedBind: Option<string>)
      requires Wired() && claim.reservedFor != []
      modifies host, env, this`tally
      ensures Prep(TheWorld(), InfoList(ds), ok, index', statuses, failedBind) ==
              PreparingRest(TheNode(), old(TheWorld()), claim, configs, results, [], index, claim.statuses)
      ensures ReportsOwn(claim.statuses, statuses)
    {
      ds, ok, index', statuses, failedBind := [], true, index, claim.statuses, None;
      ghost var n := TheNode();
      ghost var whole := PreparingRest(n, TheWorld(), claim, configs, results, [], index, statuses);
      PreparedReports(n, TheWorld(), claim, configs, results, [], index, statuses);
      assert results[0..] == results && InfoList(ds) == [];
      for i := 0 to |results|
        invariant whole == PreparingRest(n, TheWorld(), claim, configs, results[i..], InfoList(ds), index', statuses)
        invariant failedBind.None? && ok
      {
        assert results[i..] == [results[i]] + results[i + 1..];
        if results[i].driver == DRIVER_NAME {
          ds, ok, index', statuses, failedBind := PrepareNext(claim, configs, results[i], ds, index', statuses,
                                                              results[i + 1..]);
          if !ok {
            return;
          }
        }
      }
    }

    // ----- The whole claim -----

    method CreateSpecFile(uid: string) returns (ok: bool)
      requires Wired()
      modifies this`cdiSpecs, env
      ensures Done(TheWorld(), ok) == CreatingSpec(TheNode(), old(TheWorld()), uid)
    {
      var reply := env.Access();
      if Takes(reply) {
        cdiSpecs := cdiSpecs + {uid};
      }
      return !reply.error;
    }

    method DeleteSpecFile(uid: string) returns (ok: bool)
      requires Wired()
      modifies this`cdiSpecs, env
      ensures Done(TheWorld(), ok) == DeletingSpec(TheNode(), old(TheWorld()), uid)
    {
      var reply := env.Access();
      if Takes(reply) {
        cdiSpecs := cdiSpecs - {uid};
      }
      return !reply.error;
    }

    /** Undoes a preparation whose device-info files or CDI spec could not be written. */
    method UndoFiles(ds: PreparedDevices)
      requires Wired()
      modifies host, env, this`deviceInfos, this`tally
      ensures TheWorld() == UndoingFiles(TheNode(), old(TheWorld()), InfoList(ds))
    {
      var cleaned := CleanDeviceInfos(ds);
      tally := CountCleanup(tally, cleaned);
      RollBack(ds);
    }

    /** Writes the device-info files and the CDI spec of bound devices, or undoes it all. */
    method WriteFiles(uid: string, ds: PreparedDevices) returns (ok: bool)
      requires Wired()
      modifies host, env, this`deviceInfos, this`cdiSpecs, this`tally
      ensures Done(TheWorld(), ok) == WritingFiles(TheNode(), old(TheWorld()), uid, InfoList(ds))
    {
      ok := SyncDeviceInfos(ds);
      if ok {
        ok := CreateSpecFile(uid);
      }
      if !ok {
        UndoFiles(ds);
      }
    }

    /** Prepares a claim, all or nothing. */
    method PrepareDevicesForClaim(claim: ResourceClaim, index: nat)
      returns (ds: PreparedDevices, ok: bool, index': nat, statuses: Statuses, ghost failedBind: Option<string>)
      requires Wired() && claim.reservedFor != [] && claim.allocation.Some?
      modifies host, env, this`deviceInfos, this`cdiSpecs, this`tally
      ensures var prep := Prep(TheWorld(), InfoList(ds), ok, index', statuses, failedBind);
              prep == PreparingClaim(TheNode(), old(TheWorld()), claim, index) &&
                PreparesClaim(TheNode(), old(TheWorld()), claim, index, prep)
    {
      PrepareIsAllOrNothing(TheNode(), TheWorld(), claim, index);
      ds, ok, index', statuses, failedBind := [], false, index, claim.statuses, None;
      var folded := GetMapOfOpaqueDeviceConfigForDevice(claim.allocation.value.configs);
      if folded.FoldFailed? {
        return;
      }
      ds, ok, index', statuses, failedBind := PrepareDevices(claim, folded.value, claim.allocation.value.results,
                                                             index);
      if !ok {
        return;
      }
      if ds == [] {
        ok := false;
        return;
      }
      ok := WriteFiles(claim.uid, ds);
      ds := if ok then ds else [];
    }

    /** Undoes a prepared claim: device-info files, drivers, and the claim's and pod's CDI
        specs. Every part is attempted. */
    method Unprepare(claimUID: string, ds: PreparedDevices) returns (ok: bool)
      requires Wired()
      modifies host, env, this`deviceInfos, this`cdiSpecs
      ensures Done(TheWorld(), ok) == Unpreparing(TheNode(), old(TheWorld()), claimUID, InfoList(ds))
      ensures Unprepares(TheNode(), old(TheWorld()), claimUID, InfoList(ds), Done(TheWorld(), ok))
    {
      UnpreparingUnprepares(TheNode(), TheWorld(), claimUID, InfoList(ds));
      var cleaned := CleanDeviceInfos(ds);
      var undone := UnprepareDevices(ds);
      var claimSpecGone := DeleteSpecFile(claimUID);
      var podSpecGone := true;
      if ds != [] {
        podSpecGone := DeleteSpecFile(ds[0].info.podUID);
      }
      return cleaned && undone && claimSpecGone && podSpecGone;
    }
  }
}
