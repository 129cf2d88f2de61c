/** Which devices a set of policies advertises, and with which attributes
    (pkg/controller/resourcepolicycontroller.go). Label selection is a library
    call; it is a parameter here, `selects`, that rejects malformed selectors. */
module PolicyMatching {
  import opened Attributes
  import opened Ordering
  import opened PolicyDevices

  type Labels = map<string, string>
  type Selector = string
  type Selection = (Selector, Labels) -> bool

  datatype ResourceFilter = ResourceFilter(
    vendors: seq<string>, devices: seq<string>, pciAddresses: seq<string>,
    pfNames: seq<string>, pfPciAddresses: seq<string>, drivers: seq<string>, linkType: string)

  datatype PolicyConfig = PolicyConfig(attributesSelector: Option<Selector>, filters: seq<ResourceFilter>)

  /** `nodeTerms` are ORed; none at all matches every node. */
  datatype Policy = Policy(name: string, nodeTerms: seq<Selector>, configs: seq<PolicyConfig>)

  datatype AttributesObject = AttributesObject(name: string, labels: Labels, attributes: Attrs)

  function LowerChar(c: char): char {
    if 'A' <= c <= 'Z' then (c as int + 32) as char else c
  }

  function Lower(s: string): string { seq(|s|, i requires 0 <= i < |s| => LowerChar(s[i])) }

  function NormalizeLinkType(linkType: string): string {
    var l := Lower(linkType);
    if l == "eth" || l == "ethernet" then "ethernet"
    else if l == "ib" || l == "infiniband" then "infiniband"
    else l
  }

  predicate HasString(attrs: Attrs, key: QualifiedName, values: seq<string>) {
    key in attrs && attrs[key].stringValue.Some? && attrs[key].stringValue.value in values
  }

  /** Every non-empty criterion must accept the device; `drivers` is ignored. */
  predicate MatchesFilter(attrs: Attrs, f: ResourceFilter) {
    && (f.vendors != [] ==> HasString(attrs, VENDOR_ID, f.vendors))
    && (f.devices != [] ==> HasString(attrs, DEVICE_ID, f.devices))
    && (f.pciAddresses != [] ==> HasString(attrs, PCI_ADDRESS, f.pciAddresses))
    && (f.pfNames != [] ==> HasString(attrs, PF_NAME, f.pfNames))
    && (f.pfPciAddresses != [] ==> HasString(attrs, PF_PCI_ADDRESS, f.pfPciAddresses))
    && (f.linkType != "" ==> HasString(attrs, LINK_TYPE, [NormalizeLinkType(f.linkType)]))
  }

  predicate MatchesFilters(attrs: Attrs, filters: seq<ResourceFilter>) {
    filters == [] || exists i :: 0 <= i < |filters| && MatchesFilter(attrs, filters[i])
  }

  /** Both spellings of a link type, in any case; other types are only lower-cased. */
  lemma LinkTypeNames()
    ensures NormalizeLinkType("eth") == NormalizeLinkType("ETHERNET") == "ethernet"
    ensures NormalizeLinkType("IB") == NormalizeLinkType("InfiniBand") == "infiniband"
    ensures NormalizeLinkType("Other") == "other"
  {
    assert Lower("eth") == "eth" && Lower("ETHERNET") == "ethernet" && Lower("IB") == "ib";
    assert Lower("InfiniBand") == "infiniband" && Lower("Other") == "other";
  }

  /** Filters read reserved keys only, so they cannot see policy attributes. */
  lemma FiltersReadReservedOnly(a: Attrs, b: Attrs, filters: seq<ResourceFilter>)
    requires AgreeOnReserved(a, b)
    ensures MatchesFilters(a, filters) == MatchesFilters(b, filters)
  {
    assert {VENDOR_ID, DEVICE_ID, PCI_ADDRESS, PF_NAME, PF_PCI_ADDRESS, LINK_TYPE} <= RESERVED;
    assert forall i :: 0 <= i < |filters| ==> MatchesFilter(a, filters[i]) == MatchesFilter(b, filters[i]);
  }

  // ----- Resolving attribute objects -----

  predicate Picks(selects: Selection, selector: Option<Selector>, o: AttributesObject) {
    selector.Some? && selects(selector.value, o.labels)
  }

  /** `o` supplies the value of `key`: no selected object with a later name sets it. */
  ghost predicate Supplies(selects: Selection, selector: Option<Selector>, objects: seq<AttributesObject>,
                           key: QualifiedName, o: AttributesObject) {
    && o in objects && Picks(selects, selector, o) && key in o.attributes
    && forall p :: p in objects && Picks(selects, selector, p) && key in p.attributes ==> !Before(o.name, p.name)
  }

  /** `attrs` is the merge of the selected objects in which the last name wins. */
  ghost predicate Resolves(selects: Selection, selector: Option<Selector>, objects: seq<AttributesObject>,
                           attrs: Attrs) {
    && (forall k :: k in attrs <==> exists o :: o in objects && Picks(selects, selector, o) && k in o.attributes)
    && (forall k :: k in attrs ==>
          exists o :: Supplies(selects, selector, objects, k, o) && attrs[k] == o.attributes[k])
  }

  /** Without a selector there are no attributes; with one, those of every object it selects. */
  lemma ResolvedKeys(selects: Selection, selector: Option<Selector>, objects: seq<AttributesObject>, attrs: Attrs,
                     key: QualifiedName)
    requires Resolves(selects, selector, objects, attrs)
    ensures selector.None? ==> attrs == map[]
    ensures selector.Some? ==>
              (key in attrs <==> exists o :: o in objects && selects(selector.value, o.labels) && key in o.attributes)
  {
    if selector.None? {
      assert attrs.Keys == {};
    } else if key in attrs {
      var o :| Supplies(selects, selector, objects, key, o);
    } else if o :| o in objects && selects(selector.value, o.labels) && key in o.attributes {
      assert Picks(selects, selector, o);
      assert false;
    }
  }

  /** Object `i` is the last of the list to set `key`. */
  ghost predicate LastSetter(objects: seq<AttributesObject>, key: QualifiedName, i: nat) {
    && i < |objects| && key in objects[i].attributes
    && forall j :: i < j < |objects| ==> key !in objects[j].attributes
  }

  method MergeInOrder(objects: seq<AttributesObject>) returns (merged: Attrs)
    ensures forall k :: k in merged <==> exists i: nat :: LastSetter(objects, k, i)
    ensures forall k, i: nat :: LastSetter(objects, k, i) ==> merged[k] == objects[i].attributes[k]
  {
    merged := map[];
    for n := 0 to |objects|
      invariant forall k :: k in merged ==> exists i: nat :: LastSetter(objects[..n], k, i)
      invariant forall k, i: nat :: LastSetter(objects[..n], k, i) ==>
                  k in merged && merged[k] == objects[i].attributes[k]
    {
      MergeOneMore(objects, n, merged);
      merged := merged + objects[n].attributes;
    }
    assert objects[..|objects|] == objects;
  }

  lemma MergeOneMore(objects: seq<AttributesObject>, n: nat, merged: Attrs)
    requires n < |objects|
    ensures forall k, i: nat :: LastSetter(objects[..n], k, i) && k !in objects[n].attributes ==>
              LastSetter(objects[..n + 1], k, i)
    ensures forall k, i: nat :: LastSetter(objects[..n + 1], k, i) ==>
              if k in objects[n].attributes then i == n else LastSetter(objects[..n], k, i)
    ensures forall k :: k in objects[n].attributes ==> LastSetter(objects[..n + 1], k, n)
  {
    assert objects[..n + 1] == objects[..n] + [objects[n]];
    forall k, i: nat | LastSetter(objects[..n + 1], k, i)
      ensures if k in objects[n].attributes then i == n else LastSetter(objects[..n], k, i)
    {
      assert i < n ==> k !in objects[..n + 1][n].attributes;
      assert forall j :: i < j < n ==> objects[..n + 1][j] == objects[..n][j];
    }
  }

  method SelectObjects(selects: Selection, selector: Selector, objects: seq<AttributesObject>)
    returns (matched: seq<AttributesObject>)
    ensures forall o :: o in matched <==> o in objects && Picks(selects, Some(selector), o)
  {
    matched := [];
    for i := 0 to |objects|
      invariant forall o :: o in matched <==> o in objects[..i] && Picks(selects, Some(selector), o)
    {
      if selects(selector, objects[i].labels) {
        matched := matched + [objects[i]];
      }
      assert objects[..i + 1] == objects[..i] + [objects[i]];
    }
    assert objects[..|objects|] == objects;
  }

  function ObjectName(o: AttributesObject): string { o.name }

  method ResolveDeviceAttributes(selects: Selection, selector: Option<Selector>, objects: seq<AttributesObject>)
    returns (merged: Attrs)
    ensures Resolves(selects, selector, objects, merged)
  {
    if selector.None? {
      return map[];
    }
    var matched := SelectObjects(selects, selector.value, objects);
    var sorted := SortByName(matched, ObjectName);
    SameElements(matched, sorted);
    merged := MergeInOrder(sorted);
    LastNameWins(selects, selector, objects, sorted, merged);
  }

  lemma SameElements<T>(xs: seq<T>, ys: seq<T>)
    requires multiset(xs) == multiset(ys)
    ensures forall x :: x in xs <==> x in ys
  {
    assert forall x :: x in xs <==> x in multiset(xs);
    assert forall x :: x in ys <==> x in multiset(ys);
  }

  lemma {:induction false} HasLastSetter(objects: seq<AttributesObject>, k: QualifiedName, from: nat)
    requires from < |objects| && k in objects[from].attributes
    ensures exists i: nat :: LastSetter(objects, k, i)
    decreases |objects| - from
  {
    if j :| from < j < |objects| && k in objects[j].attributes {
      HasLastSetter(objects, k, j);
    } else {
      assert LastSetter(objects, k, from);
    }
  }

  lemma LastNameWins(selects: Selection, selector: Option<Selector>, objects: seq<AttributesObject>,
                     sorted: seq<AttributesObject>, merged: Attrs)
    requires forall o :: o in sorted <==> o in objects && Picks(selects, selector, o)
    requires SortedByName(sorted, ObjectName)
    requires forall k :: k in merged <==> exists i: nat :: LastSetter(sorted, k, i)
    requires forall k, i: nat :: LastSetter(sorted, k, i) ==> merged[k] == sorted[i].attributes[k]
    ensures Resolves(selects, selector, objects, merged)
  {
    forall k, o | o in objects && Picks(selects, selector, o) && k in o.attributes
      ensures k in merged
    {
      var i :| 0 <= i < |sorted| && sorted[i] == o;
      HasLastSetter(sorted, k, i);
    }
    forall k | k in merged
      ensures exists o :: Supplies(selects, selector, objects, k, o) && merged[k] == o.attributes[k]
    {
      var i: nat :| LastSetter(sorted, k, i);
      LastSetterSupplies(selects, selector, objects, sorted, k, i);
    }
  }

  lemma LastSetterSupplies(selects: Selection, selector: Option<Selector>, objects: seq<AttributesObject>,
                           sorted: seq<AttributesObject>, k: QualifiedName, at: nat)
    requires forall o :: o in sorted <==> o in objects && Picks(selects, selector, o)
    requires SortedByName(sorted, ObjectName) && LastSetter(sorted, k, at)
    ensures Supplies(selects, selector, objects, k, sorted[at])
  {
    assert sorted[at] in sorted;
    forall p | p in objects && Picks(selects, selector, p) && k in p.attributes
      ensures !Before(sorted[at].name, p.name)
    {
      var j :| 0 <= j < |sorted| && sorted[j] == p;
      assert j <= at;
      BeforeIsTotal(p.name, p.name);
      assert j < at ==> !Before(ObjectName(sorted[at]), ObjectName(sorted[j]));
    }
  }

  // ----- First match -----

  /** A configuration of a policy, by position. */
  predicate MatchesAt(p: Policy, j: nat, attrs: Attrs) {
    j < |p.configs| && MatchesFilters(attrs, p.configs[j].filters)
  }

  /** Configuration `j` of `p` is the first match by policy name, then position. */
  ghost predicate FirstMatch(policies: seq<Policy>, attrs: Attrs, p: Policy, j: nat) {
    && p in policies && MatchesAt(p, j, attrs)
    && forall q, i: nat :: q in policies && MatchesAt(q, i, attrs) ==>
         !Before(q.name, p.name) && (q == p ==> j <= i)
  }

  ghost predicate Matched(policies: seq<Policy>, attrs: Attrs) {
    exists p, j: nat :: p in policies && MatchesAt(p, j, attrs)
  }

  /** `attrs` comes from the first match of a device. */
  ghost predicate FromFirstMatch(selects: Selection, policies: seq<Policy>, objects: seq<AttributesObject>,
                                 device: Attrs, attrs: Attrs) {
    exists p, j: nat :: FirstMatch(policies, device, p, j) &&
      Resolves(selects, p.configs[j].attributesSelector, objects, attrs)
  }

  /** `pd` advertises exactly the matched devices, each with its first match's attributes. */
  ghost predicate IsPolicyMap(selects: Selection, policies: seq<Policy>, objects: seq<AttributesObject>,
                              devices: map<string, Device>, pd: PolicyMap) {
    && (forall d :: d in pd <==> d in devices && Matched(policies, devices[d].attributes))
    && (forall d :: d in pd ==> FromFirstMatch(selects, policies, objects, devices[d].attributes, pd[d]))
  }

  /** Of two policies that match a device, the one with the alphabetically smaller name decides. */
  lemma SmallerNameDecides(policies: seq<Policy>, attrs: Attrs, p: Policy, i: nat, q: Policy, j: nat, k: nat)
    requires p in policies && MatchesAt(p, i, attrs) && FirstMatch(policies, attrs, q, j)
    ensures !DiffersAt(p.name, q.name, k)
  {
    BeforeIsAlphabetical(p.name, q.name);
  }

  /** Of two selected objects that set a key, the one with the alphabetically larger name supplies it. */
  lemma LargerNameSupplies(selects: Selection, selector: Option<Selector>, objects: seq<AttributesObject>,
                           key: QualifiedName, o: AttributesObject, p: AttributesObject, k: nat)
    requires Supplies(selects, selector, objects, key, o)
    requires p in objects && Picks(selects, selector, p) && key in p.attributes
    ensures !DiffersAt(o.name, p.name, k)
  {
    BeforeIsAlphabetical(o.name, p.name);
  }

  /** A policy "a" and a policy "b" for all devices: every device gets what "a" selects. */
  lemma PolicyAComesFirst(selects: Selection, a: PolicyConfig, b: PolicyConfig, objects: seq<AttributesObject>,
                          devices: map<string, Device>, pd: PolicyMap, d: string)
    requires a.filters == b.filters == [] && d in devices
    requires IsPolicyMap(selects, [Policy("b", [], [b]), Policy("a", [], [a])], objects, devices, pd)
    ensures d in pd && Resolves(selects, a.attributesSelector, objects, pd[d])
  {
    var p, q, attrs := Policy("a", [], [a]), Policy("b", [], [b]), devices[d].attributes;
    var policies := [q, p];
    assert p in policies && MatchesAt(p, 0, attrs);
    assert Before("a", "b");
    var r, j: nat :|
      FirstMatch(policies, attrs, r, j) && Resolves(selects, r.configs[j].attributesSelector, objects, pd[d]);
    assert r == p;
  }

  /** No configuration before position (i, j) of the policy list matches. */
  ghost predicate NoMatchBefore(policies: seq<Policy>, attrs: Attrs, i: nat, j: nat) {
    forall a: nat, b: nat :: a < |policies| && (a < i || (a == i && b < j)) ==> !MatchesAt(policies[a], b, attrs)
  }

  /** `attrs` was recorded for a device at the first matching position, before (i, j). */
  ghost predicate RecordedBefore(selects: Selection, policies: seq<Policy>, objects: seq<AttributesObject>,
                                 device: Attrs, attrs: Attrs, i: nat, j: nat) {
    exists a: nat, b: nat :: a < |policies| && (a < i || (a == i && b < j)) &&
      MatchesAt(policies[a], b, device) && NoMatchBefore(policies, device, a, b) &&
      Resolves(selects, policies[a].configs[b].attributesSelector, objects, attrs)
  }

  /** The policy map after every configuration before position (i, j). */
  ghost predicate MapBefore(selects: Selection, policies: seq<Policy>, objects: seq<AttributesObject>,
                            devices: map<string, Device>, pd: PolicyMap, i: nat, j: nat) {
    && pd.Keys <= devices.Keys
    && (forall d :: d in devices ==>
          if d in pd then RecordedBefore(selects, policies, objects, devices[d].attributes, pd[d], i, j)
          else NoMatchBefore(policies, devices[d].attributes, i, j))
  }

  /** Gives `attrs` to every matching device that has no entry yet. */
  method AddMatches(devices: map<string, Device>, filters: seq<ResourceFilter>, attrs: Attrs, before: PolicyMap)
    returns (pd: PolicyMap)
    ensures pd.Keys == before.Keys + set d | d in devices && MatchesFilters(devices[d].attributes, filters)
    ensures forall d :: d in pd ==> pd[d] == if d in before then before[d] else attrs
  {
    pd := before;
    var names := devices.Keys;
    while names != {}
      invariant names <= devices.Keys
      invariant pd.Keys == before.Keys + set d | d in devices && d !in names &&
                MatchesFilters(devices[d].attributes, filters)
      invariant forall d :: d in pd ==> pd[d] == if d in before then before[d] else attrs
      decreases names
    {
      var name :| name in names;
      names := names - {name};
      if name !in pd && MatchesFilters(devices[name].attributes, filters) {
        pd := pd[name := attrs];
      }
    }
  }

  function PolicyName(p: Policy): string { p.name }

  method GetPolicyDeviceMap(selects: Selection, policies: seq<Policy>, objects: seq<AttributesObject>,
                            devices: map<string, Device>)
    returns (pd: PolicyMap)
    ensures IsPolicyMap(selects, policies, objects, devices, pd)
  {
    pd := map[];
    if policies == [] {
      return;
    }
    var sorted := SortByName(policies, PolicyName);
    SameElements(policies, sorted);
    for i := 0 to |sorted|
      invariant MapBefore(selects, sorted, objects, devices, pd, i, 0)
    {
      for j := 0 to |sorted[i].configs|
        invariant MapBefore(selects, sorted, objects, devices, pd, i, j)
      {
        var config := sorted[i].configs[j];
        var resolved := ResolveDeviceAttributes(selects, config.attributesSelector, objects);
        ghost var before := pd;
        pd := AddMatches(devices, config.filters, resolved, pd);
        NextConfig(selects, sorted, objects, devices, before, resolved, pd, i, j);
      }
      NextPolicy(selects, sorted, objects, devices, pd, i);
    }
    WholeMap(selects, policies, sorted, objects, devices, pd);
  }

  lemma NextConfig(selects: Selection, policies: seq<Policy>, objects: seq<AttributesObject>,
                   devices: map<string, Device>, before: PolicyMap, resolved: Attrs, pd: PolicyMap, i: nat, j: nat)
    requires i < |policies| && j < |policies[i].configs|
    requires MapBefore(selects, policies, objects, devices, before, i, j)
    requires Resolves(selects, policies[i].configs[j].attributesSelector, objects, resolved)
    requires pd.Keys == before.Keys + set d | d in devices &&
             MatchesFilters(devices[d].attributes, policies[i].configs[j].filters)
    requires forall d :: d in pd ==> pd[d] == if d in before then before[d] else resolved
    ensures MapBefore(selects, policies, objects, devices, pd, i, j + 1)
  {
    forall d | d in devices
      ensures if d in pd then RecordedBefore(selects, policies, objects, devices[d].attributes, pd[d], i, j + 1)
              else NoMatchBefore(policies, devices[d].attributes, i, j + 1)
    {
      var attrs := devices[d].attributes;
      if d in before {
        var a: nat, b: nat :| a < |policies| && (a < i || (a == i && b < j)) &&
          MatchesAt(policies[a], b, attrs) && NoMatchBefore(policies, attrs, a, b) &&
          Resolves(selects, policies[a].configs[b].attributesSelector, objects, before[d]);
        assert RecordedBefore(selects, policies, objects, attrs, pd[d], i, j + 1);
      } else if d in pd {
        assert MatchesAt(policies[i], j, attrs) && NoMatchBefore(policies, attrs, i, j);
      }
    }
  }

  lemma NextPolicy(selects: Selection, policies: seq<Policy>, objects: seq<AttributesObject>,
                   devices: map<string, Device>, pd: PolicyMap, i: nat)
    requires i < |policies| && MapBefore(selects, policies, objects, devices, pd, i, |policies[i].configs|)
    ensures MapBefore(selects, policies, objects, devices, pd, i + 1, 0)
  {
    forall d | d in devices && d in pd
      ensures RecordedBefore(selects, policies, objects, devices[d].attributes, pd[d], i + 1, 0)
    {
      var attrs := devices[d].attributes;
      var a: nat, b: nat :| a < |policies| && (a < i || (a == i && b < |policies[i].configs|)) &&
        MatchesAt(policies[a], b, attrs) && NoMatchBefore(policies, attrs, a, b) &&
        Resolves(selects, policies[a].configs[b].attributesSelector, objects, pd[d]);
      assert a < i + 1;
    }
  }

  /** The first matching position in name order is the first match by name. */
  lemma WholeMap(selects: Selection, policies: seq<Policy>, sorted: seq<Policy>, objects: seq<AttributesObject>,
                 devices: map<string, Device>, pd: PolicyMap)
    requires forall p :: p in policies <==> p in sorted
    requires SortedByName(sorted, PolicyName)
    requires MapBefore(selects, sorted, objects, devices, pd, |sorted|, 0)
    ensures IsPolicyMap(selects, policies, objects, devices, pd)
  {
    forall d | d in devices
      ensures d in pd <==> Matched(policies, devices[d].attributes)
      ensures d in pd ==> FromFirstMatch(selects, policies, objects, devices[d].attributes, pd[d])
    {
      var attrs := devices[d].attributes;
      if d in pd {
        var a: nat, b: nat :| a < |sorted| && (a < |sorted| || (a == |sorted| && b < 0)) &&
          MatchesAt(sorted[a], b, attrs) && NoMatchBefore(sorted, attrs, a, b) &&
          Resolves(selects, sorted[a].configs[b].attributesSelector, objects, pd[d]);
        FirstPositionFirstName(policies, sorted, attrs, a, b);
      }
    }
  }

  lemma FirstPositionFirstName(policies: seq<Policy>, sorted: seq<Policy>, attrs: Attrs, a: nat, b: nat)
    requires forall p :: p in policies <==> p in sorted
    requires SortedByName(sorted, PolicyName)
    requires a < |sorted| && MatchesAt(sorted[a], b, attrs) && NoMatchBefore(sorted, attrs, a, b)
    ensures FirstMatch(policies, attrs, sorted[a], b)
  {
    assert sorted[a] in sorted;
    forall q, i: nat | q in policies && MatchesAt(q, i, attrs)
      ensures !Before(q.name, sorted[a].name) && (q == sorted[a] ==> b <= i)
    {
      var c :| 0 <= c < |sorted| && sorted[c] == q;
      assert a <= c;
      BeforeIsTotal(q.name, q.name);
      assert a < c ==> !Before(PolicyName(sorted[c]), PolicyName(sorted[a]));
    }
  }

  // ----- The map depends on the policies as a set, and on discovery data only -----

  ghost predicate UniqueNames<T>(xs: seq<T>, name: T -> string) {
    forall x, y :: x in xs && y in xs && name(x) == name(y) ==> x == y
  }

  lemma ResolvesIsUnique(selects: Selection, selector: Option<Selector>,
                         objects: seq<AttributesObject>, objects': seq<AttributesObject>, a: Attrs, b: Attrs)
    requires UniqueNames(objects, ObjectName) && forall o :: o in objects <==> o in objects'
    requires Resolves(selects, selector, objects, a) && Resolves(selects, selector, objects', b)
    ensures a == b
  {
    assert a.Keys == b.Keys;
    forall k | k in a
      ensures a[k] == b[k]
    {
      var o :| Supplies(selects, selector, objects, k, o) && a[k] == o.attributes[k];
      var p :| Supplies(selects, selector, objects', k, p) && b[k] == p.attributes[k];
      SupplierIsUnique(selects, selector, objects, objects', k, o, p);
    }
  }

  lemma SupplierIsUnique(selects: Selection, selector: Option<Selector>,
                         objects: seq<AttributesObject>, objects': seq<AttributesObject>,
                         k: QualifiedName, o: AttributesObject, p: AttributesObject)
    requires UniqueNames(objects, ObjectName) && forall o :: o in objects <==> o in objects'
    requires Supplies(selects, selector, objects, k, o) && Supplies(selects, selector, objects', k, p)
    ensures o == p
  {
    BeforeIsTotal(o.name, p.name);
    assert ObjectName(o) == ObjectName(p);
  }

  lemma SameMatch(p: Policy, j: nat, attrs: Attrs, attrs': Attrs)
    requires AgreeOnReserved(attrs, attrs')
    ensures MatchesAt(p, j, attrs) <==> MatchesAt(p, j, attrs')
  {
    if j < |p.configs| {
      FiltersReadReservedOnly(attrs, attrs', p.configs[j].filters);
    }
  }

  lemma FirstMatchIsUnique(policies: seq<Policy>, policies': seq<Policy>, attrs: Attrs, attrs': Attrs,
                           p: Policy, j: nat, q: Policy, i: nat)
    requires UniqueNames(policies, PolicyName) && forall x :: x in policies <==> x in policies'
    requires AgreeOnReserved(attrs, attrs')
    requires FirstMatch(policies, attrs, p, j) && FirstMatch(policies', attrs', q, i)
    ensures p == q && j == i
  {
    SameMatch(p, j, attrs, attrs');
    SameMatch(q, i, attrs, attrs');
    assert !Before(q.name, p.name) && !Before(p.name, q.name);
    BeforeIsTotal(p.name, q.name);
    assert PolicyName(p) == PolicyName(q);
  }

  ghost predicate SameDiscovery(devices: map<string, Device>, devices': map<string, Device>) {
    && devices.Keys == devices'.Keys
    && forall d :: d in devices ==> AgreeOnReserved(devices[d].attributes, devices'[d].attributes)
  }

  /** With unique names, the policy map is fixed by the sets of policies and attribute
      objects and by the reserved attributes: neither list order, nor map iteration
      order, nor attributes left by earlier policies can change it. */
  lemma PolicyMapIsUnique(selects: Selection, policies: seq<Policy>, policies': seq<Policy>,
                          objects: seq<AttributesObject>, objects': seq<AttributesObject>,
                          devices: map<string, Device>, devices': map<string, Device>, pd: PolicyMap, pd': PolicyMap)
    requires UniqueNames(policies, PolicyName) && forall x :: x in policies <==> x in policies'
    requires UniqueNames(objects, ObjectName) && forall x :: x in objects <==> x in objects'
    requires SameDiscovery(devices, devices')
    requires IsPolicyMap(selects, policies, objects, devices, pd)
    requires IsPolicyMap(selects, policies', objects', devices', pd')
    ensures pd == pd'
  {
    assert pd.Keys == pd'.Keys by {
      forall d | d in devices
        ensures d in pd <==> d in pd'
      {
        SameMatches(policies, policies', devices[d].attributes, devices'[d].attributes);
      }
    }
    forall d | d in pd
      ensures pd[d] == pd'[d]
    {
      FirstMatchAttributesUnique(selects, policies, policies', objects, objects',
                                 devices[d].attributes, devices'[d].attributes, pd[d], pd'[d]);
    }
  }

  lemma FirstMatchAttributesUnique(selects: Selection, policies: seq<Policy>, policies': seq<Policy>,
                                   objects: seq<AttributesObject>, objects': seq<AttributesObject>,
                                   device: Attrs, device': Attrs, attrs: Attrs, attrs': Attrs)
    requires UniqueNames(policies, PolicyName) && forall x :: x in policies <==> x in policies'
    requires UniqueNames(objects, ObjectName) && forall x :: x in objects <==> x in objects'
    requires AgreeOnReserved(device, device')
    requires FromFirstMatch(selects, policies, objects, device, attrs)
    requires FromFirstMatch(selects, policies', objects', device', attrs')
    ensures attrs == attrs'
  {
    var p, j: nat :| FirstMatch(policies, device, p, j) &&
      Resolves(selects, p.configs[j].attributesSelector, objects, attrs);
    var q, i: nat :| FirstMatch(policies', device', q, i) &&
      Resolves(selects, q.configs[i].attributesSelector, objects', attrs');
    FirstMatchIsUnique(policies, policies', device, device', p, j, q, i);
    ResolvesIsUnique(selects, p.configs[j].attributesSelector, objects, objects', attrs, attrs');
  }

  lemma SameMatches(policies: seq<Policy>, policies': seq<Policy>, attrs: Attrs, attrs': Attrs)
    requires forall x :: x in policies <==> x in policies'
    requires AgreeOnReserved(attrs, attrs')
    ensures Matched(policies, attrs) <==> Matched(policies', attrs')
  {
    forall p: Policy, j: nat
      ensures MatchesAt(p, j, attrs) <==> MatchesAt(p, j, attrs')
    {
      SameMatch(p, j, attrs, attrs');
    }
  }
}
