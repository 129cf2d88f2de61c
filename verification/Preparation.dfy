/** Preparing and unpreparing the devices of a claim (pkg/devicestate/state.go and
    deviceinfo.go) as functions of the environment's script: driver binding, device-info files
    and the CDI spec, with rollback. `Prepare` holds the operations that compute them. */
module Preparation {
  import opened Attributes
  import opened ClaimStatus
  import opened Environment
  import opened HostDriver
  import opened Naming
  import opened PodManager
  import opened VfConfigs

  datatype AllocationResult = AllocationResult(
    driver: string, request: string, pool: string, device: string, shareID: Option<string>)

  /** The allocation is None until the claim is allocated. */
  datatype ResourceClaim = ResourceClaim(
    uid: string, name: string, namespace: string, reservedFor: seq<string>,
    allocation: Option<Allocation>, statuses: Statuses)

  datatype Allocation = Allocation(configs: seq<Configuration>, results: seq<AllocationResult>)

  predicate HasAddress(d: Device) {
    PCI_ADDRESS in d.attributes && d.attributes[PCI_ADDRESS].stringValue.Some?
  }

  /** Discovery gives every device its address. */
  type Devices = m: map<string, Device> | forall d :: d in m ==> HasAddress(m[d]) witness map[]

  /** What does not change while a node runs; the other mode than MULTUS is STANDALONE. */
  datatype Node = Node(devices: Devices, multus: bool, prefix: string, script: Script)

  type InfoKey = (string, string)

  /** Restores that failed while rolling back, failed binds that changed their device's driver,
      and clean-ups that failed while rolling back. */
  datatype Tally = Tally(failedRollbacks: nat, dirtyBinds: nat, failedCleanups: nat)

  /** Drivers, device-info files and CDI specs. */
  datatype World = World(sys: Sys, deviceInfos: set<InfoKey>, cdiSpecs: set<string>, tally: Tally)

  // ----- Names -----

  function Address(devices: Devices, device: string): string
    requires device in devices
  {
    devices[device].attributes[PCI_ADDRESS].stringValue.value
  }

  function StringAttribute(attrs: Attrs, key: QualifiedName): Option<string> {
    if key in attrs && attrs[key].stringValue.Some? && attrs[key].stringValue.value != ""
    then attrs[key].stringValue else None
  }

  /** Both Multus attributes, or neither. */
  function MultusAttributes(attrs: Attrs): InfoKey {
    var name, id := StringAttribute(attrs, MULTUS_RESOURCE_NAME), StringAttribute(attrs, MULTUS_DEVICE_ID);
    if name.Some? && id.Some? then (name.value, id.value) else ("", "")
  }

  /** A name is generated in STANDALONE mode when none is configured. */
  predicate AutoNamed(n: Node, config: Settings) { !n.multus && config.ifName == "" }

  /** What is recorded about a device. */
  function InfoOf(n: Node, claim: ResourceClaim, config: Settings, r: AllocationResult, original: string,
                  index: nat): DeviceInfo
    requires claim.reservedFor != [] && r.device in n.devices
  {
    var names := if n.multus then MultusAttributes(n.devices[r.device].attributes) else ("", "");
    DeviceInfo(claim.reservedFor[0], claim.uid, claim.name, claim.namespace, r.request, r.pool, r.device,
               Address(n.devices, r.device), Some(config.driver), original, names.0, names.1,
               if AutoNamed(n, config) then AutoName(n.prefix, index) else config.ifName)
  }

  predicate HasInfoKey(info: DeviceInfo) { info.multusResourceName != "" && info.multusDeviceID != "" }

  function InfoKeyOf(info: DeviceInfo): InfoKey { (info.multusResourceName, info.multusDeviceID) }

  predicate Rebinds(info: DeviceInfo) { info.driver.Some? && info.driver.value != "" }

  // ----- Drivers -----

  /** Restores the recorded drivers in order and stops at the first failure. */
  function RestoringAll(e: Script, s: Sys, ds: seq<DeviceInfo>): Step
    decreases |ds|
  {
    if ds == [] then Step(s, true)
    else if !Rebinds(ds[0]) then RestoringAll(e, s, ds[1..])
    else
      var first := Restoring(e, s, ds[0].pciAddress, ds[0].originalDriver);
      if !first.ok then first else RestoringAll(e, first.sys, ds[1..])
  }

  function CountRollback(t: Tally, ok: bool): Tally { t.(failedRollbacks := t.failedRollbacks + if ok then 0 else 1) }

  /** Rolls back the drivers of devices that were prepared. */
  function RollingBack(n: Node, w: World, ds: seq<DeviceInfo>): World {
    var undone := RestoringAll(n.script, w.sys, ds);
    w.(sys := undone.sys, tally := CountRollback(w.tally, undone.ok))
  }

  // ----- Device-info files -----

  /** The files, the time, and whether all went well. */
  datatype Files = Files(keys: set<InfoKey>, tick: nat, ok: bool)

  function Cleaning(e: Script, keys: set<InfoKey>, tick: nat, key: InfoKey): Files {
    Files(if Takes(e(tick)) then keys - {key} else keys, tick + 1, !e(tick).error)
  }

  /** A file is written anew after a stale one is removed. */
  function Saving(e: Script, keys: set<InfoKey>, tick: nat, info: DeviceInfo): Files {
    if info.pciAddress == "" then Files(keys, tick, false) else
    var cleaned := Cleaning(e, keys, tick, InfoKeyOf(info));
    if !cleaned.ok then cleaned
    else Files(if Takes(e(tick + 1)) then cleaned.keys + {InfoKeyOf(info)}
               else cleaned.keys, tick + 2, !e(tick + 1).error)
  }

  /** One eligible device after another, going on after an error. */
  function CleaningAll(e: Script, keys: set<InfoKey>, tick: nat, ds: seq<DeviceInfo>): Files
    decreases |ds|
  {
    if ds == [] then Files(keys, tick, true)
    else if !HasInfoKey(ds[0]) then CleaningAll(e, keys, tick, ds[1..])
    else
      var first := Cleaning(e, keys, tick, InfoKeyOf(ds[0]));
      var rest := CleaningAll(e, first.keys, first.tick, ds[1..]);
      rest.(ok := first.ok && rest.ok)
  }

  function SavingAll(e: Script, keys: set<InfoKey>, tick: nat, ds: seq<DeviceInfo>): Files
    decreases |ds|
  {
    if ds == [] then Files(keys, tick, true)
    else if !HasInfoKey(ds[0]) then SavingAll(e, keys, tick, ds[1..])
    else
      var first := Saving(e, keys, tick, ds[0]);
      var rest := SavingAll(e, first.keys, first.tick, ds[1..]);
      rest.(ok := first.ok && rest.ok)
  }

  /** A world, and whether the operation that led to it succeeded. */
  datatype Done = Done(world: World, ok: bool)

  function WithFiles(w: World, f: Files): Done { Done(w.(sys := w.sys.(tick := f.tick), deviceInfos := f.keys), f.ok) }

  /** Files exist in MULTUS mode only. */
  function SyncingInfos(n: Node, w: World, ds: seq<DeviceInfo>): Done {
    if n.multus then WithFiles(w, SavingAll(n.script, w.deviceInfos, w.sys.tick, ds)) else Done(w, true)
  }

  function CleaningInfos(n: Node, w: World, ds: seq<DeviceInfo>): Done {
    if n.multus then WithFiles(w, CleaningAll(n.script, w.deviceInfos, w.sys.tick, ds)) else Done(w, true)
  }

  function Pass(w: World): World { w.(sys := w.sys.(tick := w.sys.tick + 1)) }

  function CreatingSpec(n: Node, w: World, uid: string): Done {
    var reply := n.script(w.sys.tick);
    Done(Pass(w).(cdiSpecs := if Takes(reply) then w.cdiSpecs + {uid} else w.cdiSpecs), !reply.error)
  }

  function DeletingSpec(n: Node, w: World, uid: string): Done {
    var reply := n.script(w.sys.tick);
    Done(Pass(w).(cdiSpecs := if Takes(reply) then w.cdiSpecs - {uid} else w.cdiSpecs), !reply.error)
  }

  // ----- One device -----

  datatype Applied = Applied(world: World, device: Option<DeviceInfo>, index: nat, failedBind: Option<string>)

  /** The configuration of the network is looked up in STANDALONE mode. */
  function LookingUp(n: Node, w: World): Step { if n.multus then Step(w.sys, true) else Read(n.script, w.sys) }

  /** Steps after binding may fail: kernel modules, VFIO and RDMA look-ups. Then the driver is
      restored. A bind that fails leaves its device as it is. */
  function Completing(n: Node, w: World, claim: ResourceClaim, config: Settings, r: AllocationResult,
                      original: string, index: nat): Applied
    requires claim.reservedFor != [] && r.device in n.devices
  {
    var completed := Read(n.script, w.sys);
    if completed.ok then
      Applied(w.(sys := completed.sys), Some(InfoOf(n, claim, config, r, original, index)),
              if AutoNamed(n, config) then index + 1 else index, None)
    else if config.driver == "" then Applied(w.(sys := completed.sys), None, index, None) else
    var restored := Restoring(n.script, completed.sys, Address(n.devices, r.device), original);
    Applied(w.(sys := restored.sys, tally := CountRollback(w.tally, restored.ok)), None, index, None)
  }

  function CountDirty(t: Tally, dirty: bool): Tally { t.(dirtyBinds := t.dirtyBinds + if dirty then 1 else 0) }

  function ApplyingConfig(n: Node, w: World, claim: ResourceClaim, config: Settings, r: AllocationResult,
                          index: nat): Applied
    requires claim.reservedFor != []
  {
    if r.device !in n.devices then Applied(w, None, index, None) else
    var p, found := Address(n.devices, r.device), LookingUp(n, w);
    if !found.ok then Applied(w.(sys := found.sys), None, index, None) else
    var bound := Binding(n.script, found.sys, p, config.driver);
    var dirty := !bound.ok && DriverOf(bound.sys.bus, p) != DriverOf(w.sys.bus, p);
    if !bound.ok then Applied(w.(sys := bound.sys, tally := CountDirty(w.tally, dirty)), None, index, Some(p))
    else Completing(n, w.(sys := bound.sys), claim, config, r, Reported(w.sys, p, config.driver, true), index)
  }

  // ----- All devices of a claim -----

  /** `failedBind` is the address whose bind returned an error, if that is what failed. */
  datatype Prep = Prep(world: World, devices: seq<DeviceInfo>, ok: bool, index: nat, statuses: Statuses,
                       failedBind: Option<string>)

  /** The status entry of a prepared device; its data is the marshalled configuration, whose
      text is left abstract. */
  function StatusOf(r: AllocationResult): DeviceStatus {
    DeviceStatus(r.driver, r.pool, r.device, r.shareID, Some("config"), None)
  }

  /** Prepares the remaining results; `before` are the devices prepared so far, which an error
      rolls back. */
  function PreparingRest(n: Node, w: World, claim: ResourceClaim, configs: map<string, Settings>,
                         results: seq<AllocationResult>,
                         before: seq<DeviceInfo>, index: nat, statuses: Statuses): Prep
    requires claim.reservedFor != []
    decreases |results|
  {
    if results == [] then Prep(w, before, true, index, statuses, None)
    else if results[0].driver != DRIVER_NAME then PreparingRest(n, w, claim, configs, results[1..], before, index,
                                                                statuses)
    else
      var a := ApplyingConfig(n, w, claim, Effective(configs, results[0].request), results[0], index);
      if a.device.None? then Prep(RollingBack(n, a.world, before), [], false, a.index, statuses, a.failedBind)
      else PreparingRest(n, a.world, claim, configs, results[1..], before + [a.device.value], a.index,
                         Upserted(statuses, StatusOf(results[0])))
  }

  function CountCleanup(t: Tally, ok: bool): Tally { t.(failedCleanups := t.failedCleanups + if ok then 0 else 1) }

  /** Cleans up files and drivers after the files of a claim could not be written. */
  function UndoingFiles(n: Node, w: World, ds: seq<DeviceInfo>): World {
    var cleaned := CleaningInfos(n, w, ds);
    RollingBack(n, cleaned.world.(tally := CountCleanup(w.tally, cleaned.ok)), ds)
  }

  function WritingFiles(n: Node, w: World, uid: string, ds: seq<DeviceInfo>): Done {
    var synced := SyncingInfos(n, w, ds);
    if !synced.ok then Done(UndoingFiles(n, synced.world, ds), false) else
    var created := CreatingSpec(n, synced.world, uid);
    if !created.ok then Done(UndoingFiles(n, created.world, ds), false) else created
  }

  ghost function PreparingClaim(n: Node, w: World, claim: ResourceClaim, index: nat): Prep
    requires claim.reservedFor != [] && claim.allocation.Some?
  {
    var failed := Prep(w, [], false, index, claim.statuses, None);
    if !Foldable(claim.allocation.value.configs) then failed else
    var prep := PreparingRest(n, w, claim, FoldedMap(claim.allocation.value.configs), claim.allocation.value.results,
                              [], index, claim.statuses);
    if !prep.ok || prep.devices == [] then prep.(ok := false) else
    var written := WritingFiles(n, prep.world, claim.uid, prep.devices);
    prep.(world := written.world, ok := written.ok, devices := if written.ok then prep.devices else [])
  }

  /** Whether an unprepare restores every driver. */
  predicate DriversBack(n: Node, w: World, ds: seq<DeviceInfo>) {
    RestoringAll(n.script, CleaningInfos(n, w, ds).world.sys, ds).ok
  }

  /** Every part of an unprepare is attempted. */
  function Unpreparing(n: Node, w: World, uid: string, ds: seq<DeviceInfo>): Done {
    var cleaned := CleaningInfos(n, w, ds);
    var undone := RestoringAll(n.script, cleaned.world.sys, ds);
    var spec := DeletingSpec(n, cleaned.world.(sys := undone.sys), uid);
    var podSpec := if ds == [] then Done(spec.world, true) else DeletingSpec(n, spec.world, ds[0].podUID);
    Done(podSpec.world, cleaned.ok && undone.ok && spec.ok && podSpec.ok)
  }
}
