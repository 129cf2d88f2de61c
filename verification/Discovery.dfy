/** Device names and attribute keys that discovery derives per virtual function
    (pkg/devicestate/discovery.go). */
module Discovery {
  import opened Attributes
  import opened PolicyDevices
  import opened PolicyMatching

  datatype PFInfo = PFInfo(pciAddress: string, netName: string, vendorID: string, deviceID: string,
                           eswitchMode: string, pcieRoot: string, linkType: string, numaNode: int)

  datatype VFInfo = VFInfo(pciAddress: string, vfID: int, deviceID: string, rdmaCapable: bool)

  predicate HexDigit(c: char) { '0' <= c <= '9' || 'a' <= c <= 'f' || 'A' <= c <= 'F' }

  /** `domain:bus:device.function`, with a domain of any width. */
  predicate WellFormed(address: string) {
    && |address| >= 8
    && forall i :: 0 <= i < |address| ==>
         if i == |address| - 2 then address[i] == '.'
         else if i == |address| - 5 || i == |address| - 8 then address[i] == ':'
         else HexDigit(address[i])
  }

  function ReplaceAll(s: string, from: char, to: char): (r: string)
    ensures |r| == |s|
    ensures forall i :: 0 <= i < |s| ==> r[i] == if s[i] == from then to else s[i]
  {
    if s == [] then [] else [if s[0] == from then to else s[0]] + ReplaceAll(s[1..], from, to)
  }

  function DeviceName(pciAddress: string): string {
    ReplaceAll(ReplaceAll(pciAddress, ':', '-'), '.', '-')
  }

  /** Equal device names come from equal addresses. */
  lemma DeviceNameIsInjective(a: string, b: string)
    requires WellFormed(a) && WellFormed(b)
    ensures DeviceName(a) == DeviceName(b) ==> a == b
  {
    if DeviceName(a) == DeviceName(b) {
      forall i | 0 <= i < |a|
        ensures a[i] == b[i]
      {
        assert DeviceName(a)[i] == DeviceName(b)[i];
      }
    }
  }

  /** Colons and dots become dashes, and nothing else changes. */
  lemma DeviceNameExactly(a: string, i: nat)
    requires i < |a|
    ensures |DeviceName(a)| == |a| && DeviceName(a)[i] == if a[i] == ':' || a[i] == '.' then '-' else a[i]
  {
  }

  /** Without the format the name can be ambiguous. */
  lemma DeviceNameNeedsTheFormat()
    ensures DeviceName("0000:01:00.0") == DeviceName("0000.01:00.0") && "0000:01:00.0" != "0000.01:00.0"
  {
    assert "0000:01:00.0"[4] != "0000.01:00.0"[4];
  }

  function VfAttributes(pf: PFInfo, vf: VFInfo): Attrs {
    map[VENDOR_ID := OfString(pf.vendorID),
        DEVICE_ID := OfString(vf.deviceID),
        PF_DEVICE_ID := OfString(pf.deviceID),
        PCI_ADDRESS := OfString(vf.pciAddress),
        MULTUS_DEVICE_ID := OfString(vf.pciAddress),
        PF_NAME := OfString(pf.netName),
        ESWITCH_MODE := OfString(pf.eswitchMode),
        VF_ID := OfInt(vf.vfID),
        PCIE_ROOT := OfString(pf.pcieRoot),
        PF_PCI_ADDRESS := OfString(pf.pciAddress),
        STANDARD_PCI_ADDRESS := OfString(vf.pciAddress),
        LINK_TYPE := OfString(pf.linkType),
        RDMA_CAPABLE := OfBool(vf.rdmaCapable),
        NUMA_NODE := OfInt(pf.numaNode)]
  }

  /** Discovery sets exactly the reserved keys. */
  lemma VfAttributesAreReserved(pf: PFInfo, vf: VFInfo)
    ensures VfAttributes(pf, vf).Keys == RESERVED
  {
  }

  /** No two keys are equal: their lengths differ, or a character does. */
  lemma KeysDiffer()
    ensures |VF_ID| == 41 && |PF_NAME| == |VENDOR_ID| == 43 && |DEVICE_ID| == |LINK_TYPE| == 45
    ensures |PCI_ADDRESS| == |PF_DEVICE_ID| == 47 && |ESWITCH_MODE| == |RDMA_CAPABLE| == 48 && |PF_PCI_ADDRESS| == 49
    ensures |MULTUS_DEVICE_ID| == 24 && |STANDARD_PCI_ADDRESS| == |PCIE_ROOT| == 31 && |NUMA_NODE| == 16
    ensures PF_NAME != VENDOR_ID && DEVICE_ID != LINK_TYPE && ESWITCH_MODE != RDMA_CAPABLE
    ensures PCI_ADDRESS != PF_DEVICE_ID && STANDARD_PCI_ADDRESS != PCIE_ROOT
  {
    var p := |DRIVER_NAME| + 1;
    assert PF_NAME[p] != VENDOR_ID[p] && DEVICE_ID[p] != LINK_TYPE[p] && ESWITCH_MODE[p] != RDMA_CAPABLE[p];
    assert PCI_ADDRESS[p + 1] != PF_DEVICE_ID[p + 1];
    assert STANDARD_PCI_ADDRESS[26] != PCIE_ROOT[26];
  }

  /** Every attribute holds the property of the physical or virtual function that its key names. */
  lemma VfAttributesExact(pf: PFInfo, vf: VFInfo, a: Attrs)
    requires a == VfAttributes(pf, vf)
    ensures {VENDOR_ID, DEVICE_ID, PF_DEVICE_ID, PF_NAME, PCI_ADDRESS, MULTUS_DEVICE_ID, STANDARD_PCI_ADDRESS,
             PF_PCI_ADDRESS, PCIE_ROOT, ESWITCH_MODE, LINK_TYPE, VF_ID, NUMA_NODE, RDMA_CAPABLE} == a.Keys
    ensures a[VENDOR_ID] == OfString(pf.vendorID) && a[DEVICE_ID] == OfString(vf.deviceID)
    ensures a[PF_DEVICE_ID] == OfString(pf.deviceID) && a[PF_NAME] == OfString(pf.netName)
    ensures a[PCI_ADDRESS] == a[MULTUS_DEVICE_ID] == a[STANDARD_PCI_ADDRESS] == OfString(vf.pciAddress)
    ensures a[PF_PCI_ADDRESS] == OfString(pf.pciAddress) && a[PCIE_ROOT] == OfString(pf.pcieRoot)
    ensures a[ESWITCH_MODE] == OfString(pf.eswitchMode) && a[LINK_TYPE] == OfString(pf.linkType)
    ensures a[VF_ID] == OfInt(vf.vfID) && a[NUMA_NODE] == OfInt(pf.numaNode)
    ensures a[RDMA_CAPABLE] == OfBool(vf.rdmaCapable)
  {
    KeysDiffer();
  }

  /** A filter accepts a discovered function exactly when each of its lists is empty or names the
      property that the list is about. */
  lemma DiscoveredMatches(pf: PFInfo, vf: VFInfo, f: ResourceFilter)
    ensures MatchesFilter(VfAttributes(pf, vf), f) <==>
            && (f.vendors == [] || pf.vendorID in f.vendors) && (f.devices == [] || vf.deviceID in f.devices)
            && (f.pciAddresses == [] || vf.pciAddress in f.pciAddresses)
            && (f.pfNames == [] || pf.netName in f.pfNames)
            && (f.pfPciAddresses == [] || pf.pciAddress in f.pfPciAddresses)
            && (f.linkType == "" || pf.linkType == NormalizeLinkType(f.linkType))
  {
    VfAttributesExact(pf, vf, VfAttributes(pf, vf));
  }

  /** A physical function and one of the virtual functions listed for it. */
  type Listed = (PFInfo, VFInfo)

  function DeviceOf(l: Listed): Device { Device(DeviceName(l.1.pciAddress), VfAttributes(l.0, l.1)) }

  function Functions(pf: PFInfo, list: seq<VFInfo>): set<Listed> { set vf | vf in list :: (pf, vf) }

  /** Every listed function has its device, and every device is that of a listed function. */
  ghost predicate Covers(resources: map<string, Device>, listed: set<Listed>) {
    && (forall l :: l in listed ==> DeviceOf(l).name in resources)
    && (forall name :: name in resources ==>
          exists l :: l in listed && resources[name] == DeviceOf(l) && name == DeviceOf(l).name)
  }

  method AddFunctions(pf: PFInfo, list: seq<VFInfo>, before: map<string, Device>, ghost listed: set<Listed>)
    returns (found: map<string, Device>)
    requires Covers(before, listed)
    ensures Covers(found, listed + Functions(pf, list))
  {
    found := before;
    assert Functions(pf, list[..0]) == {} && listed + {} == listed;
    for j := 0 to |list|
      invariant Covers(found, listed + Functions(pf, list[..j]))
    {
      var vf := list[j];
      ghost var known, more := listed + Functions(pf, list[..j]), listed + Functions(pf, list[..j + 1]);
      assert more == known + {(pf, vf)} by { assert list[..j + 1] == list[..j] + [vf]; }
      CoversOneMore(found, known, (pf, vf));
      var name := DeviceName(vf.pciAddress);
      found := found[name := Device(name, VfAttributes(pf, vf))];
    }
    assert list[..|list|] == list;
  }

  lemma CoversOneMore(found: map<string, Device>, known: set<Listed>, l: Listed)
    requires Covers(found, known)
    ensures Covers(found[DeviceOf(l).name := DeviceOf(l)], known + {l})
  {
    var after, more := found[DeviceOf(l).name := DeviceOf(l)], known + {l};
    forall name | name in after
      ensures exists k :: k in more && after[name] == DeviceOf(k) && name == DeviceOf(k).name
    {
      if name == DeviceOf(l).name {
        assert l in more;
      } else {
        var k :| k in known && found[name] == DeviceOf(k) && name == DeviceOf(k).name;
        assert k in more;
      }
    }
  }

  function AllListed(pfs: seq<PFInfo>, vfs: seq<Option<seq<VFInfo>>>): set<Listed>
    requires |pfs| == |vfs|
  {
    if vfs == [] then {}
    else
      var last := |vfs| - 1;
      AllListed(pfs[..last], vfs[..last]) + (if vfs[last].Some? then Functions(pfs[last], vfs[last].value) else {})
  }

  /** Builds the device map. `vfs[i]` is what listing the functions of `pfs[i]` returned;
      a missing list is a listing error, which fails the whole discovery. */
  method CollectDevices(pfs: seq<PFInfo>, vfs: seq<Option<seq<VFInfo>>>)
    returns (resources: Option<map<string, Device>>)
    requires |pfs| == |vfs|
    ensures resources.None? <==> None in vfs
    ensures resources.Some? ==> Covers(resources.value, AllListed(pfs, vfs))
  {
    var found: map<string, Device> := map[];
    for i := 0 to |pfs|
      invariant None !in vfs[..i]
      invariant Covers(found, AllListed(pfs[..i], vfs[..i]))
    {
      if vfs[i].None? {
        return None;
      }
      assert vfs[..i + 1][..i] == vfs[..i] && vfs[..i + 1][i] == vfs[i];
      assert pfs[..i + 1][..i] == pfs[..i] && pfs[..i + 1][i] == pfs[i];
      found := AddFunctions(pfs[i], vfs[i].value, found, AllListed(pfs[..i], vfs[..i]));
    }
    assert vfs[..|vfs|] == vfs && pfs[..|pfs|] == pfs;
    return Some(found);
  }

  /** The listed functions are those of the lists. */
  lemma {:induction false} ListedExactly(pfs: seq<PFInfo>, vfs: seq<Option<seq<VFInfo>>>, l: Listed)
    requires |pfs| == |vfs|
    ensures l in AllListed(pfs, vfs) <==>
            exists i :: 0 <= i < |vfs| && pfs[i] == l.0 && vfs[i].Some? && l.1 in vfs[i].value
  {
    if vfs != [] {
      var last := |vfs| - 1;
      ListedExactly(pfs[..last], vfs[..last], l);
      if i :| 0 <= i < last && pfs[..last][i] == l.0 && vfs[..last][i].Some? && l.1 in vfs[..last][i].value {
        assert pfs[i] == l.0 && vfs[i].Some? && l.1 in vfs[i].value;
      }
      if i :| 0 <= i < |vfs| && pfs[i] == l.0 && vfs[i].Some? && l.1 in vfs[i].value {
        if i < last {
          assert pfs[..last][i] == l.0 && vfs[..last][i].Some? && l.1 in vfs[..last][i].value;
        }
      }
    }
  }

  /** The device named after `address` carries `address`. */
  ghost predicate RecordsAddress(resources: map<string, Device>, address: string) {
    && DeviceName(address) in resources
    && PCI_ADDRESS in resources[DeviceName(address)].attributes
    && resources[DeviceName(address)].attributes[PCI_ADDRESS] == OfString(address)
  }

  /** No two functions are listed under one address. */
  ghost predicate OneFunctionPerAddress(listed: set<Listed>) {
    forall k, l :: k in listed && l in listed && k.1.pciAddress == l.1.pciAddress ==> k == l
  }

  /** Discovery keeps to the reserved keys, and merges no two well-formed addresses: each address is
      found again under its own device name, with the attributes of its function. */
  lemma DiscoveryIsFaithful(resources: map<string, Device>, listed: set<Listed>)
    requires Covers(resources, listed)
    ensures DiscoveryReserved(resources)
    ensures (forall l :: l in listed ==> WellFormed(l.1.pciAddress)) ==>
              forall l :: l in listed ==>
                && RecordsAddress(resources, l.1.pciAddress)
                && (OneFunctionPerAddress(listed) ==> resources[DeviceName(l.1.pciAddress)] == DeviceOf(l))
  {
    forall name | name in resources
      ensures resources[name].attributes.Keys == RESERVED
    {
      var l :| l in listed && resources[name] == DeviceOf(l) && name == DeviceOf(l).name;
      VfAttributesAreReserved(l.0, l.1);
    }
    if forall l :: l in listed ==> WellFormed(l.1.pciAddress) {
      forall l | l in listed
        ensures RecordsAddress(resources, l.1.pciAddress)
        ensures OneFunctionPerAddress(listed) ==> resources[DeviceName(l.1.pciAddress)] == DeviceOf(l)
      {
        var name := DeviceOf(l).name;
        var k :| k in listed && resources[name] == DeviceOf(k) && name == DeviceOf(k).name;
        DeviceNameIsInjective(l.1.pciAddress, k.1.pciAddress);
        VfAttributesExact(k.0, k.1, VfAttributes(k.0, k.1));
      }
    }
  }
}
