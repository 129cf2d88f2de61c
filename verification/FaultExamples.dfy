/** Concrete cases of what the code does not guarantee: a bind that fails half way, a driver that
    cannot be restored, a claim that comes back after a successful unprepare, and two calls that
    give out the same interface name. */
module FaultExamples {
  import opened AllOrNothing
  import opened Attributes
  import opened Environment
  import opened HookOutcomes
  import opened Hooks
  import opened HostDriver
  import opened PodManager
  import opened Preparation
  import opened StaleExample
  import opened VfConfigs

  // ----- A bind that fails half way -----

  const VF := "0000:01:00.1"

  /** Writing the override fails once the device is detached, and leaves it without a driver. */
  lemma HalfBound(e: Script, r: Step)
    requires forall k :: e(k).error <==> k == 5
    requires r == Binding(e, Sys(map[VF := FOUND], 0), VF, "vfio-pci")
    ensures !r.ok && DriverOf(r.sys.bus, VF) == ""
  {
    var bus: Bus := map[VF := FOUND];
    Unbinds(e, Sys(bus, 3), VF);
    var unbound := Sys(WithDriver(bus, VF, ""), 5);
    assert !BindingUnbound(e, unbound, VF, "vfio-pci").ok;
    MovesOnceUnbound(e, unbound, VF, "vfio-pci");
    assert r == BindingUnbound(e, unbound, VF, "vfio-pci");
  }

  // ----- A driver that cannot be restored -----

  /** Without any fault a device found on igb_uio is bound to vfio-pci and stays there. */
  lemma NeverBackOnIgbUio(e: Script, bound: Step, restored: Step)
    requires forall k :: !e(k).error
    requires bound == Binding(e, Sys(map[VF := FOUND.(driver := "igb_uio")], 0), VF, "vfio-pci")
    requires restored == Restoring(e, bound.sys, VF, "igb_uio")
    ensures bound.ok && !restored.ok && DriverOf(restored.sys.bus, VF) == "vfio-pci"
  {
    BindsInEight(e, Sys(map[VF := FOUND.(driver := "igb_uio")], 0), VF);
  }

  // ----- A claim that comes back -----

  /** The claim is prepared, in memory and in the file. */
  function Tracked(): State {
    var table: InfoTable := map["pod" := map["uid" := [INFO]]];
    State(World(Sys(map[VF := FOUND.(driver := "vfio-pci")], 0), {}, {"uid", "pod"}, Tally(0, 0, 0)), table, table,
          map[VF := ("pod", "uid")])
  }

  /** Restoring a kernel driver takes six accesses. */
  lemma RestoresInSix(e: Script, s: Sys, p: string)
    requires p in s.bus && s.bus[p].driver == "vfio-pci" && Calm(e, s.tick, s.tick + 6)
    ensures var r := Restoring(e, s, p, "ixgbevf"); r.ok && r.sys.tick == s.tick + 6
  {
    Unbinds(e, Sys(s.bus, s.tick + 1), p);
    var unbound := Sys(WithDriver(s.bus, p, ""), s.tick + 3);
    assert Restoring(e, s, p, "ixgbevf") == BindingUnbound(e, unbound, p, "ixgbevf");
  }

  /** Unpreparing it takes eight, so the ninth is the write that forgets it. */
  lemma UnpreparesInEight(n: Node)
    requires n == NodeOf().(script := n.script) && Calm(n.script, 0, 8)
    ensures var done := Unpreparing(n, Tracked().world, "uid", [INFO]); done.ok && done.world.sys.tick == 8
  {
    var w := Tracked().world;
    OnlySpecWritten(n, w, "uid", INFO);
    RestoresInSix(n.script, w.sys, VF);
    var restored := Restoring(n.script, w.sys, VF, "ixgbevf");
    assert [INFO][1..] == [];
    assert RestoringAll(n.script, w.sys, [INFO]) == restored;
  }

  /** Only that write fails: the retry reports success, and after a restart the claim is reported as
      prepared again although its device is back on ixgbevf. */
  lemma ClaimReturns(n: Node, unprepared: Stored, retried: Stored, restarted: Stored, prepared: Claimed)
    requires n == NodeOf().(script := n.script) && (forall k :: n.script(k).error <==> k == 8)
    requires Finds(Tracked().memory, "uid", Pick("pod", "pod"))
    requires unprepared == UnpreparingOne(n, Tracked(), "uid", Pick("pod", "pod"))
    requires Finds(unprepared.state.memory, "uid", Pick("", ""))
    requires retried == UnpreparingOne(n, unprepared.state, "uid", Pick("", ""))
    requires restarted == Restarting(n, retried.state) && prepared == PreparingOne(n, restarted.state, CLAIM, 0)
    ensures !unprepared.ok && retried.ok && restarted.ok && prepared.devices == Some([INFO])
    ensures DriverOf(prepared.state.world.sys.bus, VF) == "ixgbevf"
  {
    var s := Tracked();
    UnpreparesInEight(n);
    assert Tracks(s.memory, "uid") by {
      assert "uid" in s.memory["pod"];
    }
    assert retried.state.world.sys.tick == 9;
    ForgottenClaimReturns(n, s, CLAIM, Pick("pod", "pod"), Pick("", ""), 0, unprepared, retried, restarted, prepared);
    assert HasOriginal(INFO) && OnOriginal(prepared.state.world.sys.bus, INFO);
  }

  // ----- Two calls with the same name -----

  /** A claim for one device without any configuration. */
  predicate Plain(n: Node, claim: ResourceClaim, r: AllocationResult) {
    Preparable(claim) && claim.allocation == Some(Allocation([], [r])) && r.driver == DRIVER_NAME &&
      r.device in n.devices
  }

  lemma NothingConfigured(request: string)
    ensures Foldable([]) && FoldedMap([]) == map[] && Effective(FoldedMap([]), request) == DEFAULTS
  {
    assert Candidates([]) == [];
  }

  /** In STANDALONE mode and without faults such a claim is prepared. */
  lemma PlainIsPrepared(n: Node, s: State, claim: ResourceClaim, r: AllocationResult, c: Claimed)
    requires !n.multus && (forall k :: !n.script(k).error) && Plain(n, claim, r) && !Known(s.memory, claim)
    requires c == PreparingOne(n, s, claim, 0)
    ensures c.devices.Some?
  {
    NothingConfigured(r.request);
    var a := ApplyingConfig(n, s.world, claim, DEFAULTS, r, 0);
    assert a.device.Some?;
    OneResult(n, s.world, claim, FoldedMap([]), r, a);
    assert WritingFiles(n, a.world, claim.uid, [a.device.value]).ok;
    PreparedIsDurable(n, s, claim, 0, c);
  }

  lemma PlainCall(n: Node, s: State, claim: ResourceClaim, r: AllocationResult, c: Call)
    requires !n.multus && (forall k :: !n.script(k).error) && Plain(n, claim, r) && !Known(s.memory, claim)
    requires c == Call(s, [claim], PreparingEach(n, s, [claim], 0))
    ensures NoneFails(c) && AsksForName(n, s, [claim])
  {
    var one := PreparingOne(n, s, claim, 0);
    PlainIsPrepared(n, s, claim, r, one);
    assert [claim][1..] == [] && c.ends == [one] + [];
    NothingConfigured(r.request);
    assert OwnResults([r]) == [r] + OwnResults([r][1..]);
    assert r in OwnResults([r]);
    assert FirstTime(s, [claim], 0) && NeedsName(n, [claim][0]);
  }

  /** Two such calls, in whatever states, give out the same name. */
  lemma SameNameTwice(n: Node, s: State, c: ResourceClaim, r: AllocationResult, t: State, d: ResourceClaim,
                      q: AllocationResult)
    requires !n.multus && forall k :: !n.script(k).error
    requires Plain(n, c, r) && !Known(s.memory, c) && Plain(n, d, q) && !Known(t.memory, d)
    ensures ShareName(n, Call(s, [c], PreparingEach(n, s, [c], 0)), Call(t, [d], PreparingEach(n, t, [d], 0)))
  {
    var first, second := Call(s, [c], PreparingEach(n, s, [c], 0)), Call(t, [d], PreparingEach(n, t, [d], 0));
    PlainCall(n, s, c, r, first);
    PlainCall(n, t, d, q, second);
    SuccessfulCallsReuseNames(n, first, second);
  }

  /** A node with two functions in STANDALONE mode. */
  function TwoFunctions(script: Script): Node {
    Node(map["vf0" := Device("vf0", map[PCI_ADDRESS := OfString(VF)]),
             "vf1" := Device("vf1", map[PCI_ADDRESS := OfString("0000:01:00.2")])], false, "net", script)
  }

  function ClaimFor(uid: string, pod: string, device: string): ResourceClaim {
    ResourceClaim(uid, uid, "ns", [pod], Some(Allocation([], [RESULT.(device := device)])), [])
  }

  /** Two pods get one function each, in two calls: both interfaces are called net0. */
  lemma TwoPodsOneName(n: Node, first: Call, second: Call)
    requires n == TwoFunctions(n.script) && forall k :: !n.script(k).error
    requires first.start == START && first.claims == [ClaimFor("u0", "p0", "vf0")] && Made(n, first)
    requires second.start == first.ends[0].state && second.claims == [ClaimFor("u1", "p1", "vf1")] && Made(n, second)
    ensures ShareName(n, first, second)
  {
    var c, d := ClaimFor("u0", "p0", "vf0"), ClaimFor("u1", "p1", "vf1");
    var one := PreparingOne(n, START, c, 0);
    assert [c][1..] == [] && first.ends == [one] + [];
    PlainIsPrepared(n, START, c, RESULT.(device := "vf0"), one);
    PreparedIsDurable(n, START, c, 0, one);
    SameNameTwice(n, START, c, RESULT.(device := "vf0"), second.start, d, RESULT.(device := "vf1"));
    assert first == Call(START, [c], PreparingEach(n, START, [c], 0));
    assert second == Call(second.start, [d], PreparingEach(n, second.start, [d], 0));
  }
}
