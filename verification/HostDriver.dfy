/** Driver binding of PCI functions through sysfs (pkg/host/host.go). Every access may fail,
    a write both before and after it takes effect. */
module HostDriver {
  import opened Environment

  /** `driver` is "" while unbound; `override` only counts on an overridable device. */
  datatype PciDevice = PciDevice(driver: string, override: string, overridable: bool, kernelDefault: string)

  type Bus = map<string, PciDevice>

  predicate IsDpdkDriver(driver: string) {
    driver == "vfio-pci" || driver == "uio_pci_generic" || driver == "igb_uio"
  }

  /** The module check knows no kernel module for the other DPDK drivers and rejects them. */
  predicate Loadable(driver: string) { !IsDpdkDriver(driver) || driver == "vfio-pci" }

  function DriverOf(bus: Bus, p: string): string { if p in bus then bus[p].driver else "" }

  /** Only device `p` may differ. */
  ghost predicate SameExcept(a: Bus, b: Bus, p: string) {
    a.Keys == b.Keys && forall q :: q in a && q != p ==> a[q] == b[q]
  }

  // ----- What binding and restoring achieve -----

  /** The override once it is reset, where there is one. */
  function Cleared(d: PciDevice): string { if d.overridable then "" else d.override }

  /** The device after binding to a named driver. */
  function Bound(d: PciDevice, driver: string): PciDevice {
    if d.driver == driver && driver != "" then d
    else d.(driver := driver, override := Cleared(d))
  }

  /** The device keeps a driver of its own, or is probed and may end without one. */
  ghost predicate Defaulted(d: PciDevice, e: PciDevice) {
    if d.driver != "" && !IsDpdkDriver(d.driver) then e == d
    else (e.driver == "" || e.driver == d.kernelDefault) &&
         e == d.(driver := e.driver, override := Cleared(d))
  }

  /** Binding as a claim's configuration asks for: "default" or a driver name. */
  ghost predicate BoundAsAsked(d: PciDevice, asked: string, e: PciDevice) {
    if asked == "default" then Defaulted(d, e) else e == Bound(d, asked)
  }

  /** Restoring to the recorded driver; none recorded means the default. */
  ghost predicate RestoredTo(d: PciDevice, original: string, e: PciDevice) {
    if original == "" then Defaulted(d, e) else e == Bound(d, original)
  }

  // ----- Each operation as a function of the script -----

  datatype Sys = Sys(bus: Bus, tick: nat)

  datatype Step = Step(sys: Sys, ok: bool)

  function Read(e: Script, s: Sys): Step { Step(Sys(s.bus, s.tick + 1), !e(s.tick).error) }

  /** A write that would lead to `bus`. */
  function Written(e: Script, s: Sys, bus: Bus): Step {
    Step(Sys(if Takes(e(s.tick)) then bus else s.bus, s.tick + 1), !e(s.tick).error)
  }

  function WithOverride(bus: Bus, p: string, override: string): Bus {
    if p in bus && bus[p].overridable then bus[p := bus[p].(override := override)] else bus
  }

  function WithDriver(bus: Bus, p: string, driver: string): Bus {
    if p in bus then bus[p := bus[p].(driver := driver)] else bus
  }

  function Overriding(e: Script, s: Sys, p: string, override: string): Step {
    Written(e, s, WithOverride(s.bus, p, override))
  }

  /** Attaching and detaching need the device to exist. */
  function Attaching(e: Script, s: Sys, p: string, driver: string): Step {
    Step(Written(e, s, WithDriver(s.bus, p, driver)).sys, !e(s.tick).error && p in s.bus)
  }

  /** The driver that the kernel tries for an unbound device. */
  function Candidate(d: PciDevice): string { if d.overridable && d.override != "" then d.override else d.kernelDefault }

  /** The probe attaches a driver, or finds none. */
  function Probing(e: Script, s: Sys, p: string): Step {
    var attached := p in s.bus && s.bus[p].driver == "" && e(s.tick).effect;
    Step(Sys(if attached then WithDriver(s.bus, p, Candidate(s.bus[p])) else s.bus, s.tick + 1),
         !e(s.tick).error && p in s.bus)
  }

  function Loading(e: Script, s: Sys, driver: string): Step {
    if !IsDpdkDriver(driver) then Step(s, true) else if driver != "vfio-pci" then Step(s, false) else Read(e, s)
  }

  function Unbinding(e: Script, s: Sys, p: string): Step {
    var read := Read(e, s);
    if !read.ok || DriverOf(s.bus, p) == "" then read else Attaching(e, read.sys, p, "")
  }

  /** The rest of a bind once the device has no driver. */
  function BindingUnbound(e: Script, s: Sys, p: string, driver: string): Step {
    var overridden := Overriding(e, s, p, driver);
    if !overridden.ok then overridden else
    var attached := Attaching(e, overridden.sys, p, driver);
    if !attached.ok then attached else Overriding(e, attached.sys, p, "")
  }

  function BindingTo(e: Script, s: Sys, p: string, driver: string): Step {
    var loaded := Loading(e, s, driver);
    if !loaded.ok then loaded else
    var read := Read(e, loaded.sys);
    var current := DriverOf(s.bus, p);
    if !read.ok || (current != "" && current == driver) then read else
    var unbound := if current == "" then read else Unbinding(e, read.sys, p);
    if !unbound.ok then unbound else BindingUnbound(e, unbound.sys, p, driver)
  }

  function ProbingUnbound(e: Script, s: Sys, p: string): Step {
    var reset := Overriding(e, s, p, "");
    if !reset.ok then reset else Probing(e, reset.sys, p)
  }

  function Defaulting(e: Script, s: Sys, p: string): Step {
    var read := Read(e, s);
    var current := DriverOf(s.bus, p);
    if !read.ok || (current != "" && !IsDpdkDriver(current)) then read else
    var unbound := if current == "" then read else Unbinding(e, read.sys, p);
    if !unbound.ok then unbound else ProbingUnbound(e, unbound.sys, p)
  }

  /** The driver that a bind reports back is the one the device had. */
  function Binding(e: Script, s: Sys, p: string, asked: string): Step {
    if asked == "" then Step(s, true) else
    var read := Read(e, s);
    if !read.ok then read
    else if asked == "default" then Defaulting(e, read.sys, p) else BindingTo(e, read.sys, p, asked)
  }

  function Reported(s: Sys, p: string, asked: string, ok: bool): string {
    if ok && asked != "" then DriverOf(s.bus, p) else ""
  }

  function Restoring(e: Script, s: Sys, p: string, original: string): Step {
    if original == "" then Defaulting(e, s, p) else BindingTo(e, s, p, original)
  }

  // ----- What each of them promises -----

  /** Only the device changes, and time moves on. */
  ghost predicate Moves(s: Sys, r: Step, p: string) { SameExcept(s.bus, r.sys.bus, p) && s.tick <= r.sys.tick }

  /** Binding to a named driver. On failure the device may be left unbound or half bound, but a
      device that already has the driver never loses it. */
  ghost predicate BindsTo(e: Script, s: Sys, p: string, driver: string, r: Step) {
    && Moves(s, r, p)
    && (r.ok ==> p in s.bus && Loadable(driver) && r.sys.bus[p] == Bound(s.bus[p], driver))
    && (Calm(e, s.tick, r.sys.tick) && p in s.bus && Loadable(driver) ==> r.ok)
    && (!Loadable(driver) ==> r.sys.bus == s.bus)
    && (driver != "" && DriverOf(s.bus, p) == driver ==> r.sys.bus == s.bus)
  }

  /** Unless the device has a kernel driver to keep, the last access is the probe: if that attaches a
      driver, it is the kernel's own choice. */
  ghost predicate Probed(e: Script, s: Sys, p: string, r: Step) {
    r.ok && DriverOf(s.bus, p) in {"", "vfio-pci", "uio_pci_generic", "igb_uio"} ==>
      && r.sys.tick > 0 && p in s.bus
      && DriverOf(r.sys.bus, p) == if e(r.sys.tick - 1).effect then s.bus[p].kernelDefault else ""
  }

  ghost predicate BindsDefault(e: Script, s: Sys, p: string, r: Step) {
    && Moves(s, r, p) && Probed(e, s, p, r)
    && (r.ok ==> p in s.bus && Defaulted(s.bus[p], r.sys.bus[p]))
    && (Calm(e, s.tick, r.sys.tick) && p in s.bus ==> r.ok)
    && (DriverOf(s.bus, p) != "" && !IsDpdkDriver(DriverOf(s.bus, p)) ==> r.sys.bus == s.bus)
  }

  ghost predicate Binds(e: Script, s: Sys, p: string, asked: string, r: Step) {
    && Moves(s, r, p)
    && (asked == "" ==> r == Step(s, true))
    && (asked != "" && r.ok ==> p in s.bus && BoundAsAsked(s.bus[p], asked, r.sys.bus[p]))
    && (asked == "default" ==> Probed(e, s, p, r))
    && (r.ok ==> Loadable(asked))
    && (asked != "" && Calm(e, s.tick, r.sys.tick) && p in s.bus ==> (r.ok <==> Loadable(asked)))
    && (Calm(e, s.tick, r.sys.tick) && !r.ok ==> DriverOf(r.sys.bus, p) == DriverOf(s.bus, p))
  }

  ghost predicate Restores(e: Script, s: Sys, p: string, original: string, r: Step) {
    && Moves(s, r, p)
    && (r.ok ==> p in s.bus && Loadable(original) && RestoredTo(s.bus[p], original, r.sys.bus[p]))
    && (original == "" ==> Probed(e, s, p, r))
    && (Calm(e, s.tick, r.sys.tick) && p in s.bus ==> (r.ok <==> Loadable(original)))
    && (original != "" && DriverOf(s.bus, p) == original ==> r.sys.bus == s.bus)
    && (!Loadable(original) ==> r.sys.bus == s.bus)
  }

  /** Detaching leaves the device without a driver, or does nothing and fails. */
  lemma UnbindingDetaches(e: Script, s: Sys, p: string)
    ensures var r := Unbinding(e, s, p);
            && s.tick < r.sys.tick
            && (r.sys.bus == WithDriver(s.bus, p, "") || (!r.ok && r.sys.bus == s.bus))
            && (r.ok <==> Calm(e, s.tick, r.sys.tick))
  {
    var r := Unbinding(e, s, p);
    if DriverOf(s.bus, p) == "" {
      assert p in s.bus ==> s.bus[p].(driver := "") == s.bus[p];
      assert WithDriver(s.bus, p, "") == s.bus;
    }
    assert !Calm(e, s.tick, r.sys.tick) <==> e(s.tick).error || (r.sys.tick == s.tick + 2 && e(s.tick + 1).error);
  }

  lemma BindsUnbound(e: Script, s: Sys, p: string, driver: string)
    requires p in s.bus ==> s.bus[p].driver == ""
    ensures var r := BindingUnbound(e, s, p, driver);
            && Moves(s, r, p)
            && (r.ok ==> p in s.bus)
            && (r.ok ==> r.sys.bus[p] == s.bus[p].(driver := driver, override := Cleared(s.bus[p])))
            && (Calm(e, s.tick, r.sys.tick) && p in s.bus ==> r.ok)
  {
  }

  lemma BindingToBinds(e: Script, s: Sys, p: string, driver: string)
    ensures BindsTo(e, s, p, driver, BindingTo(e, s, p, driver))
  {
    var read := Read(e, Loading(e, s, driver).sys);
    var unbound := if DriverOf(s.bus, p) == "" then read else Unbinding(e, read.sys, p);
    UnbindingDetaches(e, read.sys, p);
    if unbound.ok {
      BindsUnbound(e, unbound.sys, p, driver);
    }
  }

  lemma ProbesUnbound(e: Script, s: Sys, p: string)
    requires p in s.bus ==> s.bus[p].driver == ""
    ensures var r := ProbingUnbound(e, s, p);
            && Moves(s, r, p)
            && (r.ok ==> p in s.bus && Defaulted(s.bus[p], r.sys.bus[p])) && Probed(e, s, p, r)
            && (Calm(e, s.tick, r.sys.tick) && p in s.bus ==> r.ok)
  {
  }

  lemma DefaultingBinds(e: Script, s: Sys, p: string)
    ensures BindsDefault(e, s, p, Defaulting(e, s, p))
  {
    var read := Read(e, s);
    var unbound := if DriverOf(s.bus, p) == "" then read else Unbinding(e, read.sys, p);
    UnbindingDetaches(e, read.sys, p);
    if unbound.ok {
      ProbesUnbound(e, unbound.sys, p);
    }
  }

  lemma BindingBinds(e: Script, s: Sys, p: string, asked: string)
    ensures Binds(e, s, p, asked, Binding(e, s, p, asked))
  {
    var read := Read(e, s);
    DefaultingBinds(e, read.sys, p);
    BindingToBinds(e, read.sys, p, asked);
  }

  lemma RestoringRestores(e: Script, s: Sys, p: string, original: string)
    ensures Restores(e, s, p, original, Restoring(e, s, p, original))
  {
    DefaultingBinds(e, s, p);
    BindingToBinds(e, s, p, original);
  }

  /** The drivers without a known kernel module: no bind to one succeeds, nor does a restore. */
  lemma ModuleCheck(e: Script, s: Sys, p: string, driver: string)
    ensures driver in {"uio_pci_generic", "igb_uio"} ==>
              !Binding(e, s, p, driver).ok && !Restoring(e, s, p, driver).ok
    ensures driver !in {"", "uio_pci_generic", "igb_uio"} && p in s.bus ==>
              && (Calm(e, s.tick, Binding(e, s, p, driver).sys.tick) ==> Binding(e, s, p, driver).ok)
              && (Calm(e, s.tick, Restoring(e, s, p, driver).sys.tick) ==> Restoring(e, s, p, driver).ok)
  {
    BindingBinds(e, s, p, driver);
    RestoringRestores(e, s, p, driver);
  }

  /** The round trip of a device over the life of a claim: bind, then restore. */
  lemma BindThenRestore(e: Script, s: Sys, p: string, asked: string)
    requires asked != ""
    ensures var bound := Binding(e, s, p, asked);
            var restored := Restoring(e, bound.sys, p, Reported(s, p, asked, bound.ok));
            && SameExcept(s.bus, restored.sys.bus, p)
            && (bound.ok ==> p in s.bus)
            // an initially bound device is back on its driver
            && (bound.ok && restored.ok && s.bus[p].driver != "" ==> restored.sys.bus[p].driver == s.bus[p].driver)
            // an initially unbound one is on a kernel driver or none
            && (bound.ok && restored.ok && s.bus[p].driver == "" && !IsDpdkDriver(s.bus[p].kernelDefault) ==>
                  !IsDpdkDriver(restored.sys.bus[p].driver))
            && (bound.ok && restored.ok && s.bus[p].override == "" ==> restored.sys.bus[p].override == "")
            // without faults the round trip completes exactly for drivers the module check knows
            && (bound.ok && restored.ok ==> Loadable(asked) && Loadable(s.bus[p].driver))
            && (Calm(e, s.tick, restored.sys.tick) && p in s.bus ==>
                  (bound.ok && restored.ok <==> Loadable(asked) && Loadable(s.bus[p].driver)))
            // a device found on igb_uio or uio_pci_generic is moved off it and never moved back
            && (bound.ok && !Loadable(s.bus[p].driver) ==> !restored.ok && restored.sys.bus == bound.sys.bus)
  {
    var bound := Binding(e, s, p, asked);
    var original := Reported(s, p, asked, bound.ok);
    BindingBinds(e, s, p, asked);
    RestoringRestores(e, bound.sys, p, original);
  }

  /** Such a device keeps its driver only if it was asked for by name, which is refused, or is
      the kernel's own choice for it. */
  lemma NeverMovedBack(e: Script, s: Sys, p: string, asked: string)
    requires asked != "" && p in s.bus && !Loadable(s.bus[p].driver)
    ensures var bound := Binding(e, s, p, asked);
            bound.ok && DriverOf(bound.sys.bus, p) == s.bus[p].driver ==>
              asked == "default" && s.bus[p].kernelDefault == s.bus[p].driver
  {
    BindingBinds(e, s, p, asked);
  }

  // ----- Binds that fail half way -----

  /** The write that detaches the device takes effect, whether or not it is reported to. */
  predicate Detaches(e: Script, s: Sys, p: string) { DriverOf(Unbinding(e, s, p).sys.bus, p) == "" }

  /** The bind gets as far as detaching the device from its driver. */
  predicate BindDetaches(e: Script, s: Sys, p: string, asked: string) {
    var current, read := DriverOf(s.bus, p), Read(e, s);
    && current != "" && read.ok
    && if asked == "default" then
         IsDpdkDriver(current) && Read(e, read.sys).ok && Detaches(e, Read(e, read.sys).sys, p)
       else
         var loaded := Loading(e, read.sys, asked);
         current != asked && loaded.ok && Read(e, loaded.sys).ok && Detaches(e, Read(e, loaded.sys).sys, p)
  }

  lemma MovesOnceUnbound(e: Script, s: Sys, p: string, driver: string)
    requires p in s.bus && s.bus[p].driver == ""
    ensures DriverOf(BindingUnbound(e, s, p, driver).sys.bus, p) in {"", driver}
    ensures DriverOf(ProbingUnbound(e, s, p).sys.bus, p) in {"", s.bus[p].kernelDefault}
  {
  }

  /** A failed bind leaves a bound device off its driver exactly when it got as far as detaching it;
      with the default driver, the kernel may attach the same driver again. */
  lemma FailedBindMoves(e: Script, s: Sys, p: string, asked: string)
    requires p in s.bus && s.bus[p].driver != "" && asked != "" && !Binding(e, s, p, asked).ok
    ensures var current, after := s.bus[p].driver, DriverOf(Binding(e, s, p, asked).sys.bus, p);
            && (asked != "default" || s.bus[p].kernelDefault != current ==>
                (after != current <==> BindDetaches(e, s, p, asked)))
            && (after != current ==> BindDetaches(e, s, p, asked))
  {
    var read := Read(e, s);
    var ready := if asked == "default" then Read(e, read.sys) else Read(e, Loading(e, read.sys, asked).sys);
    var unbound := Unbinding(e, ready.sys, p);
    UnbindingDetaches(e, ready.sys, p);
    if unbound.ok {
      MovesOnceUnbound(e, unbound.sys, p, asked);
    }
  }

  // ----- The operations -----

  class Host {
    const env: Environment
    var bus: Bus

    constructor (env: Environment, bus: Bus)
      ensures this.env == env && this.bus == bus
    {
      this.env, this.bus := env, bus;
    }

    function State(): Sys
      reads this, env
    {
      Sys(bus, env.tick)
    }

    /** A missing device reads as unbound. */
    method GetDriver(p: string) returns (driver: string, ok: bool)
      modifies env
      ensures Step(State(), ok) == Read(env.script, old(State()))
      ensures driver == if ok then DriverOf(bus, p) else ""
    {
      var reply := env.Access();
      return if reply.error then "" else DriverOf(bus, p), !reply.error;
    }

    method SetDriverOverride(p: string, override: string) returns (ok: bool)
      modifies this, env
      ensures Step(State(), ok) == Overriding(env.script, old(State()), p, override)
      ensures ok ==> bus == WithOverride(old(bus), p, override)
    {
      var reply := env.Access();
      if p in bus && bus[p].overridable && Takes(reply) {
        bus := bus[p := bus[p].(override := override)];
      }
      return !reply.error;
    }

    /** Writes that attach or detach a driver. */
    method WriteDriver(p: string, driver: string) returns (ok: bool)
      modifies this, env
      ensures Step(State(), ok) == Attaching(env.script, old(State()), p, driver)
    {
      var reply := env.Access();
      if p in bus && Takes(reply) {
        bus := bus[p := bus[p].(driver := driver)];
      }
      return !reply.error && p in bus;
    }

    /** Asks the kernel to find a driver; it may find none. */
    method ProbeDriver(p: string) returns (ok: bool)
      modifies this, env
      ensures Step(State(), ok) == Probing(env.script, old(State()), p)
    {
      var reply := env.Access();
      if p in bus && bus[p].driver == "" && reply.effect {
        bus := bus[p := bus[p].(driver := Candidate(bus[p]))];
      }
      return !reply.error && p in bus;
    }

    method EnsureDpdkModuleLoaded(driver: string) returns (ok: bool)
      modifies env
      ensures Step(State(), ok) == Loading(env.script, old(State()), driver)
      ensures ok ==> Loadable(driver)
    {
      if !IsDpdkDriver(driver) {
        return true;
      }
      if driver != "vfio-pci" {
        return false;
      }
      var reply := env.Access();
      return !reply.error;
    }

    method UnbindDriver(p: string) returns (ok: bool)
      modifies this, env
      ensures Step(State(), ok) == Unbinding(env.script, old(State()), p)
      ensures ok ==> bus == WithDriver(old(bus), p, "")
    {
      UnbindingDetaches(env.script, State(), p);
      var driver, read := GetDriver(p);
      if !read || driver == "" {
        return read;
      }
      ok := WriteDriver(p, "");
    }

    method BindDriverByBusAndDevice(p: string, driver: string) returns (ok: bool)
      modifies this, env
      ensures Step(State(), ok) == BindingTo(env.script, old(State()), p, driver)
      ensures BindsTo(env.script, old(State()), p, driver, Step(State(), ok))
    {
      BindingToBinds(env.script, State(), p, driver);
      var loaded := EnsureDpdkModuleLoaded(driver);
      if !loaded { return false; }
      var current, read := GetDriver(p);
      if !read { return false; }
      if current != "" {
        if current == driver { return true; }
        var unbound := UnbindDriver(p);
        if !unbound { return false; }
      }
      var overridden := SetDriverOverride(p, driver);
      if !overridden { return false; }
      var attached := WriteDriver(p, driver);
      if !attached { return false; }
      ok := SetDriverOverride(p, "");
    }

    method BindDefaultDriver(p: string) returns (ok: bool)
      modifies this, env
      ensures Step(State(), ok) == Defaulting(env.script, old(State()), p)
      ensures BindsDefault(env.script, old(State()), p, Step(State(), ok))
    {
      DefaultingBinds(env.script, State(), p);
      var current, read := GetDriver(p);
      if !read { return false; }
      if current != "" {
        if !IsDpdkDriver(current) { return true; }
        var unbound := UnbindDriver(p);
        if !unbound { return false; }
      }
      var reset := SetDriverOverride(p, "");
      if !reset { return false; }
      ok := ProbeDriver(p);
    }

    /** Binds as the configuration asks and reports the driver the device had. */
    method BindDeviceDriver(p: string, asked: string) returns (original: string, ok: bool)
      modifies this, env
      ensures Step(State(), ok) == Binding(env.script, old(State()), p, asked)
      ensures original == Reported(old(State()), p, asked, ok)
      ensures Binds(env.script, old(State()), p, asked, Step(State(), ok))
    {
      BindingBinds(env.script, State(), p, asked);
      if asked == "" { return "", true; }
      var current, read := GetDriver(p);
      if !read { return "", false; }
      if asked == "default" {
        ok := BindDefaultDriver(p);
      } else {
        ok := BindDriverByBusAndDevice(p, asked);
      }
      original := if ok then current else "";
    }

    method RestoreDeviceDriver(p: string, original: string) returns (ok: bool)
      modifies this, env
      ensures Step(State(), ok) == Restoring(env.script, old(State()), p, original)
      ensures Restores(env.script, old(State()), p, original, Step(State(), ok))
    {
      RestoringRestores(env.script, State(), p, original);
      if original == "" {
        ok := BindDefaultDriver(p);
      } else {
        ok := BindDriverByBusAndDevice(p, original);
      }
    }
  }
}
