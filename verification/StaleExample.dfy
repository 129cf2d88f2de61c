/** One run of a hook that ends in a stale claim: the checkpoint cannot be written after a
    device was bound. */
module StaleExample {
  import opened AllOrNothing
  import opened Attributes
  import opened ClaimStatus
  import opened Environment
  import opened HookOutcomes
  import opened HostDriver
  import opened Hooks
  import opened PodManager
  import opened Preparation
  import opened VfConfigs

  const VFIO := DEFAULTS.(driver := "vfio-pci")

  const CONFIG := Configuration(FromClaim, ["vf"], Opaque(DRIVER_NAME, Decoded(VFIO)))

  const RESULT := AllocationResult(DRIVER_NAME, "vf", "node", "vf0", None)

  /** A claim for one device that asks for vfio-pci. */
  const CLAIM := ResourceClaim("uid", "claim", "ns", ["pod"], Some(Allocation([CONFIG], [RESULT])), [])

  /** The only device, found on ixgbevf. */
  const FOUND := PciDevice("ixgbevf", "", true, "ixgbevf")

  const START := State(World(Sys(map["0000:01:00.1" := FOUND], 0), {}, {}, Tally(0, 0, 0)), map[], map[], map[])

  /** Only the eleventh access fails; it is the checkpoint write. */
  function NodeOf(): Node {
    Node(map["vf0" := Device("vf0", map[PCI_ADDRESS := OfString("0000:01:00.1")])], true, "net",
         n => Reply(n == 10, true))
  }

  lemma FromOne(c: Configuration, source: Source)
    ensures From([c], source) == if c.source == source then [c] else []
  {
    assert [c][..0] == [] && From([], source) == [];
  }

  lemma ApplicableOne(c: Configuration, r: string)
    ensures Applicable([c], r) == if AppliesTo(c, r) then [c.parameters.decoded.settings] else []
  {
    ApplicableLast([], c, r);
    assert [] + [c] == [c];
  }

  lemma ResolvedOne(v: Settings)
    requires !v.addVhostMount && v.netAttachDefNamespace == ""
    ensures Resolved([v]) == v
  {
    ResolvedLast([], v);
    assert [] + [v] == [v];
  }

  lemma ConfigFolds()
    ensures Foldable([CONFIG]) && Effective(FoldedMap([CONFIG]), "vf") == VFIO
  {
    FromOne(CONFIG, FromClass);
    FromOne(CONFIG, FromClaim);
    assert Candidates([CONFIG]) == [CONFIG];
    ResolvesIsUnique([CONFIG], FoldedMap([CONFIG]));
    ApplicableOne(CONFIG, "vf");
    ResolvedOne(VFIO);
  }

  lemma Unbinds(e: Script, s: Sys, p: string)
    requires p in s.bus && s.bus[p].driver != "" && Calm(e, s.tick, s.tick + 2)
    ensures Unbinding(e, s, p) == Step(Sys(WithDriver(s.bus, p, ""), s.tick + 2), true)
  {
  }

  /** Binding a bound device to vfio-pci takes eight accesses. */
  lemma BindsInEight(e: Script, s: Sys, p: string)
    requires p in s.bus && s.bus[p].driver != "" && s.bus[p].driver != "vfio-pci" && s.bus[p].overridable &&
             s.bus[p].override == ""
    requires Calm(e, s.tick, s.tick + 8)
    ensures Binding(e, s, p, "vfio-pci") == Step(Sys(s.bus[p := s.bus[p].(driver := "vfio-pci")], s.tick + 8), true)
  {
    var loaded := Sys(s.bus, s.tick + 3);
    Unbinds(e, loaded, p);
    var unbound := Sys(WithDriver(s.bus, p, ""), s.tick + 5);
    var bound := BindingUnbound(e, unbound, p, "vfio-pci");
    assert bound.sys.tick == s.tick + 8 && bound.ok;
    BindingBinds(e, s, p, "vfio-pci");
  }

  /** The device as it is recorded once it is bound. */
  const INFO := DeviceInfo("pod", "uid", "claim", "ns", "vf", "node", "vf0", "0000:01:00.1", Some("vfio-pci"),
                           "ixgbevf", "", "", "")

  /** The device is bound after eight accesses, and described after nine. */
  lemma DeviceApplied()
    ensures var a := ApplyingConfig(NodeOf(), START.world, CLAIM, VFIO, RESULT, 0);
            a.device == Some(INFO) && a.index == 0 && a.failedBind.None? &&
            a.world == START.world.(sys := Sys(map["0000:01:00.1" := FOUND.(driver := "vfio-pci")], 9))
  {
    var n, p := NodeOf(), "0000:01:00.1";
    assert Address(n.devices, "vf0") == p;
    BindsInEight(n.script, START.world.sys, p);
    assert MultusAttributes(n.devices["vf0"].attributes) == ("", "");
  }

  /** Preparing a single result. */
  lemma OneResult(n: Node, w: World, claim: ResourceClaim, configs: map<string, Settings>, r: AllocationResult,
                  a: Applied)
    requires claim.reservedFor != [] && r.driver == DRIVER_NAME
    requires a == ApplyingConfig(n, w, claim, Effective(configs, r.request), r, 0) && a.device.Some?
    ensures PreparingRest(n, w, claim, configs, [r], [], 0, claim.statuses) ==
            Prep(a.world, [a.device.value], true, a.index, Upserted(claim.statuses, StatusOf(r)), None)
  {
    assert [r][1..] == [] && [] + [a.device.value] == [a.device.value];
  }

  /** A device without Multus attributes needs no file, only the CDI spec. */
  lemma OnlySpecWritten(n: Node, w: World, uid: string, info: DeviceInfo)
    requires !HasInfoKey(info) && !n.script(w.sys.tick).error
    ensures WritingFiles(n, w, uid, [info]) == CreatingSpec(n, w, uid) && CreatingSpec(n, w, uid).ok
    ensures CleaningInfos(n, w, [info]) == Done(w, true)
  {
    var keys, tick := w.deviceInfos, w.sys.tick;
    assert [info][1..] == [];
    assert SavingAll(n.script, keys, tick, [info]) == SavingAll(n.script, keys, tick, []) == Files(keys, tick, true);
    assert CleaningAll(n.script, keys, tick, [info]) == CleaningAll(n.script, keys, tick, []) ==
             Files(keys, tick, true);
  }

  /** The claim is prepared after ten accesses. */
  lemma ClaimPrepared(n: Node, prep: Prep)
    requires n == NodeOf() && prep == PreparingClaim(n, START.world, CLAIM, 0)
    ensures prep.ok && prep.devices == [INFO] && prep.world.sys.tick == 10 && prep.world.tally == START.world.tally
  {
    ConfigFolds();
    DeviceApplied();
    var a := ApplyingConfig(n, START.world, CLAIM, VFIO, RESULT, 0);
    OneResult(n, START.world, CLAIM, FoldedMap([CONFIG]), RESULT, a);
    OnlySpecWritten(n, a.world, "uid", INFO);
  }

  lemma RestoredWhenCalm(n: Node, w: World)
    requires "0000:01:00.1" in w.sys.bus && forall k :: k >= w.sys.tick ==> !n.script(k).error
    ensures DriversBack(n, w, [INFO])
  {
    OnlySpecWritten(n, w, "uid", INFO);
    RestoringAllRestores(n.script, w.sys, [INFO]);
  }

  /** Nothing fails after the checkpoint write, so the device is restored. */
  lemma Restored(n: Node, prep: Prep)
    requires n == NodeOf() && prep == PreparingClaim(n, START.world, CLAIM, 0)
    ensures DriversBack(n, Pass(prep.world), [INFO])
  {
    ClaimPrepared(n, prep);
    PrepareIsAllOrNothing(n, START.world, CLAIM, 0);
    RestoredWhenCalm(n, Pass(prep.world));
  }

  /** The call fails, the device is back on ixgbevf, and a retry reports the claim as prepared. */
  lemma StaleClaim(n: Node, first: Claimed, retry: Claimed)
    requires n == NodeOf() && first == PreparingOne(n, START, CLAIM, 0) &&
             retry == PreparingOne(n, first.state, CLAIM, 0)
    ensures first.devices.None? && retry.devices == Some([INFO])
    ensures DriverOf(retry.state.world.sys.bus, "0000:01:00.1") == "ixgbevf"
  {
    var prep := PreparingClaim(n, START.world, CLAIM, 0);
    ClaimPrepared(n, prep);
    Restored(n, prep);
    StaleExactly(n, START, CLAIM, 0, first);
    RetryReportsStale(n, START, CLAIM, 0, 0, first);
    UnpreparingUnprepares(n, Pass(prep.world), "uid", [INFO]);
    StaleIsRolledBack(n, START, CLAIM, 0, first);
  }
}
