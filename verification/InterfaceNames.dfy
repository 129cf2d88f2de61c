/** The interface names of prepared devices: configured ones are kept, and generated ones count
    up from the counter that is shared by all claims of a kubelet call. */
module InterfaceNames {
  import opened Attributes
  import opened ClaimStatus
  import opened Naming
  import opened PodManager
  import opened Preparation
  import opened VfConfigs

  /** The device got a generated name, because its request has no configured one. */
  predicate Generated(n: Node, configs: map<string, Settings>, d: DeviceInfo) {
    AutoNamed(n, Effective(configs, d.request))
  }

  /** The generated names among the devices, in order. */
  function GeneratedNames(n: Node, configs: map<string, Settings>, ds: seq<DeviceInfo>): seq<string> {
    if ds == [] then []
    else
      var d := ds[|ds| - 1];
      GeneratedNames(n, configs, ds[..|ds| - 1]) + if Generated(n, configs, d) then [d.ifName] else []
  }

  /** The names that count from `lo` up to `hi`. */
  function Counted(prefix: string, lo: nat, hi: nat): seq<string>
    requires lo <= hi
  {
    seq(hi - lo, i requires 0 <= i => AutoName(prefix, lo + i))
  }

  /** The generated names of the devices are the numbers of the range, each once and in order. */
  ghost predicate Enumerates(n: Node, configs: map<string, Settings>, ds: seq<DeviceInfo>, lo: nat, hi: nat) {
    lo <= hi && GeneratedNames(n, configs, ds) == Counted(n.prefix, lo, hi)
  }

  lemma EnumeratesOneMore(n: Node, configs: map<string, Settings>, ds: seq<DeviceInfo>, d: DeviceInfo, lo: nat, hi: nat)
    requires Enumerates(n, configs, ds, lo, hi)
    requires Generated(n, configs, d) ==> d.ifName == AutoName(n.prefix, hi)
    ensures Enumerates(n, configs, ds + [d], lo, if Generated(n, configs, d) then hi + 1 else hi)
  {
    assert (ds + [d])[..|ds|] == ds;
    assert Counted(n.prefix, lo, hi + 1) == Counted(n.prefix, lo, hi) + [AutoName(n.prefix, hi)];
  }

  /** Where a device's generated name stands in the list. */
  lemma {:induction false} GeneratedAt(n: Node, configs: map<string, Settings>, ds: seq<DeviceInfo>, k: nat)
    requires k < |ds| && Generated(n, configs, ds[k])
    ensures var at := |GeneratedNames(n, configs, ds[..k])|;
            at < |GeneratedNames(n, configs, ds)| && GeneratedNames(n, configs, ds)[at] == ds[k].ifName
  {
    if k < |ds| - 1 {
      GeneratedAt(n, configs, ds[..|ds| - 1], k);
      assert ds[..|ds| - 1][..k] == ds[..k];
    }
  }

  lemma {:induction false} MoreDevicesMoreNames(n: Node, configs: map<string, Settings>, ds: seq<DeviceInfo>, j: nat,
                                                k: nat)
    requires j < k <= |ds|
    ensures |GeneratedNames(n, configs, ds[..j])| + (if Generated(n, configs, ds[j]) then 1 else 0) <=
            |GeneratedNames(n, configs, ds[..k])|
  {
    assert ds[..k][..k - 1] == ds[..k - 1];
    if j < k - 1 {
      MoreDevicesMoreNames(n, configs, ds, j, k - 1);
    }
  }

  /** The number of a generated name lies in the range. */
  lemma NumberInRange(n: Node, configs: map<string, Settings>, ds: seq<DeviceInfo>, lo: nat, hi: nat, k: nat)
    returns (number: nat)
    requires Enumerates(n, configs, ds, lo, hi) && k < |ds| && Generated(n, configs, ds[k])
    ensures lo <= number < hi && ds[k].ifName == AutoName(n.prefix, number)
    ensures number == lo + |GeneratedNames(n, configs, ds[..k])|
  {
    GeneratedAt(n, configs, ds, k);
    number := lo + |GeneratedNames(n, configs, ds[..k])|;
  }

  /** Two devices with generated names have different names. */
  lemma NamesDiffer(n: Node, configs: map<string, Settings>, ds: seq<DeviceInfo>, lo: nat, hi: nat, j: nat, k: nat)
    requires Enumerates(n, configs, ds, lo, hi) && j < k < |ds| && Generated(n, configs, ds[j]) &&
             Generated(n, configs, ds[k])
    ensures ds[j].ifName != ds[k].ifName
  {
    var a := NumberInRange(n, configs, ds, lo, hi, j);
    var b := NumberInRange(n, configs, ds, lo, hi, k);
    MoreDevicesMoreNames(n, configs, ds, j, k);
    AutoNamesDiffer(n.prefix, a, b);
  }

  /** Every number of the range is some device's. */
  lemma {:induction false} NumberIsUsed(n: Node, configs: map<string, Settings>, ds: seq<DeviceInfo>, name: string)
    returns (k: nat)
    requires name in GeneratedNames(n, configs, ds)
    ensures k < |ds| && Generated(n, configs, ds[k]) && ds[k].ifName == name
  {
    var last := ds[|ds| - 1];
    if Generated(n, configs, last) && last.ifName == name {
      k := |ds| - 1;
    } else {
      k := NumberIsUsed(n, configs, ds[..|ds| - 1], name);
    }
  }

  lemma DeviceWithNumber(n: Node, configs: map<string, Settings>, ds: seq<DeviceInfo>, lo: nat, hi: nat, number: nat)
    returns (k: nat)
    requires Enumerates(n, configs, ds, lo, hi) && lo <= number < hi
    ensures k < |ds| && Generated(n, configs, ds[k]) && ds[k].ifName == AutoName(n.prefix, number)
  {
    assert Counted(n.prefix, lo, hi)[number - lo] == AutoName(n.prefix, number);
    k := NumberIsUsed(n, configs, ds, AutoName(n.prefix, number));
  }

  /** What one device adds. */
  lemma AppliedName(n: Node, w: World, claim: ResourceClaim, configs: map<string, Settings>, r: AllocationResult,
                    index: nat, a: Applied)
    requires claim.reservedFor != [] && a == ApplyingConfig(n, w, claim, Effective(configs, r.request), r, index)
    ensures a.device.None? ==> a.index == index
    ensures a.device.Some? ==> a.device.value.request == r.request
    ensures a.device.Some? && Generated(n, configs, a.device.value) ==>
              a.index == index + 1 && a.device.value.ifName == AutoName(n.prefix, index)
    ensures a.device.Some? && !Generated(n, configs, a.device.value) ==> a.index == index
  {
  }

  lemma {:induction false} PreparingEnumerates(n: Node, w: World, claim: ResourceClaim, configs: map<string, Settings>,
                                               results: seq<AllocationResult>, before: seq<DeviceInfo>, first: nat,
                                                 index: nat,
                                               statuses: Statuses, prep: Prep)
    requires claim.reservedFor != [] && Enumerates(n, configs, before, first, index)
    requires prep == PreparingRest(n, w, claim, configs, results, before, index, statuses)
    ensures index <= prep.index
    ensures prep.ok ==> Enumerates(n, configs, prep.devices, first, prep.index)
    decreases |results|
  {
    if results != [] {
      var r, rest := results[0], results[1..];
      if r.driver != DRIVER_NAME {
        PreparingEnumerates(n, w, claim, configs, rest, before, first, index, statuses, prep);
      } else {
        var a := ApplyingConfig(n, w, claim, Effective(configs, r.request), r, index);
        AppliedName(n, w, claim, configs, r, index, a);
        if a.device.Some? {
          EnumeratesOneMore(n, configs, before, a.device.value, first, index);
          PreparingEnumerates(n, a.world, claim, configs, rest, before + [a.device.value], first, a.index,
                              Upserted(statuses, StatusOf(r)), prep);
        }
      }
    }
  }

  /** The names of a claim: the counter moves on by exactly the generated ones. */
  lemma ClaimEnumerates(n: Node, w: World, claim: ResourceClaim, index: nat)
    requires claim.reservedFor != [] && claim.allocation.Some?
    ensures var prep := PreparingClaim(n, w, claim, index);
            index <= prep.index && (prep.ok ==> Enumerates(n, FoldedMap(claim.allocation.value.configs), prep.devices,
                                                           index, prep.index))
  {
    var configs, results := FoldedMap(claim.allocation.value.configs), claim.allocation.value.results;
    PreparingEnumerates(n, w, claim, configs, results, [], index, index, claim.statuses,
                        PreparingRest(n, w, claim, configs, results, [], index, claim.statuses));
  }

  /** The names given out while a claim is prepared, also when it fails later on. */
  function NamesGiven(n: Node, w: World, claim: ResourceClaim, configs: map<string, Settings>,
                      results: seq<AllocationResult>, index: nat): seq<string>
    requires claim.reservedFor != []
    decreases |results|
  {
    if results == [] then []
    else if results[0].driver != DRIVER_NAME then NamesGiven(n, w, claim, configs, results[1..], index)
    else
      var a := ApplyingConfig(n, w, claim, Effective(configs, results[0].request), results[0], index);
      if a.device.None? then []
      else (if Generated(n, configs, a.device.value) then [a.device.value.ifName] else []) +
           NamesGiven(n, a.world, claim, configs, results[1..], a.index)
  }

  /** The counter counts the names given out, whether or not the preparation succeeds. */
  lemma {:induction false} CounterCountsNames(n: Node, w: World, claim: ResourceClaim, configs: map<string, Settings>,
                                              results: seq<AllocationResult>, before: seq<DeviceInfo>, index: nat,
                                                statuses: Statuses, prep: Prep)
    requires claim.reservedFor != [] && prep == PreparingRest(n, w, claim, configs, results, before, index, statuses)
    ensures index <= prep.index && NamesGiven(n, w, claim, configs, results, index) ==
              Counted(n.prefix, index, prep.index)
    decreases |results|
  {
    if results != [] {
      var r, rest := results[0], results[1..];
      if r.driver != DRIVER_NAME {
        CounterCountsNames(n, w, claim, configs, rest, before, index, statuses, prep);
      } else {
        var a := ApplyingConfig(n, w, claim, Effective(configs, r.request), r, index);
        AppliedName(n, w, claim, configs, r, index, a);
        if a.device.Some? {
          CounterCountsNames(n, a.world, claim, configs, rest, before + [a.device.value], a.index,
                             Upserted(statuses, StatusOf(r)), prep);
          CountedFirst(n.prefix, index, prep.index);
        }
      }
    }
  }

  lemma CountedFirst(prefix: string, lo: nat, hi: nat)
    ensures lo < hi ==> Counted(prefix, lo, hi) == [AutoName(prefix, lo)] + Counted(prefix, lo + 1, hi)
  {
  }
}
