/** `SriovResourcePolicyReconciler.Reconcile`: from listed objects to the advertised
    set, over the live device maps that earlier reconciles have already edited. */
module Reconcile {
  import opened Attributes
  import opened PolicyDevices
  import opened PolicyMatching

  datatype Inputs = Inputs(nodeLabels: Labels, policies: seq<Policy>, objects: seq<AttributesObject>)

  predicate RunsOn(selects: Selection, labels: Labels, p: Policy) {
    p.nodeTerms == [] || exists i :: 0 <= i < |p.nodeTerms| && selects(p.nodeTerms[i], labels)
  }

  /** The policies whose node selector matches, in list order. */
  function NodePolicies(selects: Selection, labels: Labels, policies: seq<Policy>): (r: seq<Policy>)
    ensures forall p :: p in r <==> p in policies && RunsOn(selects, labels, p)
  {
    if policies == [] then []
    else
      var rest, last := policies[..|policies| - 1], policies[|policies| - 1];
      NodePolicies(selects, labels, rest) + if RunsOn(selects, labels, last) then [last] else []
  }

  datatype NodeLookup = Found(labels: Labels) | NotFound | LookupError
  datatype Outcome = Done | RequeueLater | Failed

  /** `pd` is what `inputs` ask for on the given devices. */
  ghost predicate Target(selects: Selection, inputs: Inputs, devices: map<string, Device>, pd: PolicyMap) {
    IsPolicyMap(selects, NodePolicies(selects, inputs.nodeLabels, inputs.policies), inputs.objects, devices, pd)
  }

  /** The policy is for a node with these labels and its configuration for a device: one of its node
      terms selects the node, or it has none, and one of the filters accepts the device, or there is none. */
  ghost predicate Wants(selects: Selection, labels: Labels, p: Policy, c: PolicyConfig, attrs: Attrs) {
    && c in p.configs && (p.nodeTerms == [] || exists t :: t in p.nodeTerms && selects(t, labels))
    && (c.filters == [] || exists f :: f in c.filters && MatchesFilter(attrs, f))
  }

  lemma WantsExactly(selects: Selection, labels: Labels, p: Policy, attrs: Attrs)
    ensures (exists c :: Wants(selects, labels, p, c, attrs)) <==>
            RunsOn(selects, labels, p) && exists j: nat :: MatchesAt(p, j, attrs)
  {
    if c :| Wants(selects, labels, p, c, attrs) {
      var j :| 0 <= j < |p.configs| && p.configs[j] == c;
      assert MatchesAt(p, j, attrs);
    }
    if RunsOn(selects, labels, p) {
      if j: nat :| MatchesAt(p, j, attrs) {
        assert Wants(selects, labels, p, p.configs[j], attrs);
      }
    }
  }

  /** The devices that a reconcile asks to advertise are those that some policy of the node wants. */
  lemma AdvertisedExactly(selects: Selection, inputs: Inputs, devices: map<string, Device>, pd: PolicyMap, d: string)
    requires Target(selects, inputs, devices, pd)
    ensures d in pd <==> d in devices && exists p, c ::
              p in inputs.policies && Wants(selects, inputs.nodeLabels, p, c, devices[d].attributes)
  {
    var here := NodePolicies(selects, inputs.nodeLabels, inputs.policies);
    if d in devices {
      var attrs := devices[d].attributes;
      forall p
        ensures (exists c :: Wants(selects, inputs.nodeLabels, p, c, attrs)) <==>
                RunsOn(selects, inputs.nodeLabels, p) && exists j: nat :: MatchesAt(p, j, attrs)
      {
        WantsExactly(selects, inputs.nodeLabels, p, attrs);
      }
      if p, j: nat :| p in here && MatchesAt(p, j, attrs) {
        assert p in inputs.policies && exists c :: Wants(selects, inputs.nodeLabels, p, c, attrs);
      }
      if p, c :| p in inputs.policies && Wants(selects, inputs.nodeLabels, p, c, attrs) {
        assert p in here && exists j: nat :: MatchesAt(p, j, attrs);
      }
    }
  }

  /** A lookup or list call that failed is None (or NotFound) and leaves the manager alone. */
  method ReconcileOnce(manager: Manager, selects: Selection, node: NodeLookup,
                       policies: Option<seq<Policy>>, objects: Option<seq<AttributesObject>>, republish: Option<bool>)
    returns (outcome: Outcome, ghost pd: PolicyMap)
    modifies manager
    ensures node.Found? && policies.Some? && objects.Some? ==>
              && Target(selects, Inputs(node.labels, policies.value, objects.value), old(manager.allocatable), pd)
              && manager.State() == Applied(old(manager.State()), pd)
              && manager.publications == old(manager.publications) +
                   (if Changed(old(manager.State()), pd) && republish.Some? then [Advertised(manager.State())] else [])
              && outcome == if Changed(old(manager.State()), pd) && republish == Some(false) then Failed else Done
    ensures !(node.Found? && policies.Some? && objects.Some?) ==>
              unchanged(manager) && outcome == if node.NotFound? then RequeueLater else Failed
  {
    pd := map[];
    if node.NotFound? {
      return RequeueLater, pd;
    }
    if node.LookupError? || policies.None? || objects.None? {
      return Failed, pd;
    }
    var matching: seq<Policy> := [];
    for i := 0 to |policies.value|
      invariant matching == NodePolicies(selects, node.labels, policies.value[..i])
    {
      assert policies.value[..i + 1][..i] == policies.value[..i];
      if RunsOn(selects, node.labels, policies.value[i]) {
        matching := matching + [policies.value[i]];
      }
    }
    assert policies.value[..|policies.value|] == policies.value;
    var devices := GetPolicyDeviceMap(selects, matching, objects.value, manager.allocatable);
    pd := devices;
    var ok := manager.UpdatePolicyDevices(devices, republish);
    return if ok then Done else Failed, pd;
  }

  // ----- Whole runs of the reconciler -----

  datatype Event = Aborted | Reconciled(inputs: Inputs)

  ghost predicate Step(selects: Selection, e: Event, v: View, w: View) {
    match e
    case Aborted => w == v
    case Reconciled(inputs) => exists pd :: Target(selects, inputs, v.allocatable, pd) && w == Applied(v, pd)
  }

  ghost predicate Trace(selects: Selection, events: seq<Event>, views: seq<View>) {
    |views| == |events| + 1 && forall i :: 0 <= i < |events| ==> StepAt(selects, events, views, i)
  }

  ghost predicate StepAt(selects: Selection, events: seq<Event>, views: seq<View>, i: int) {
    0 <= i < |events| && |views| == |events| + 1 && Step(selects, events[i], views[i], views[i + 1])
  }

  /** Object names are unique within the watched namespace. */
  ghost predicate Unambiguous(inputs: Inputs) {
    UniqueNames(inputs.policies, PolicyName) && UniqueNames(inputs.objects, ObjectName)
  }

  /** The inputs of the last reconcile that ran to completion. */
  function LastInputs(events: seq<Event>): Option<Inputs> {
    if events == [] then None
    else match events[|events| - 1]
         case Reconciled(inputs) => Some(inputs)
         case Aborted => LastInputs(events[..|events| - 1])
  }

  /** View `v` is what `inputs` ask for, computed on pristine discovery data. */
  ghost predicate Realizes(selects: Selection, discovered: map<string, Device>, inputs: Option<Inputs>, v: View) {
    match inputs
    case None => v == Start(discovered)
    case Some(i) => exists pd :: Target(selects, i, discovered, pd) && v == InForce(discovered, pd)
  }

  /** Policy attributes never hide what discovery says under a reserved key. */
  lemma InForceKeepsDiscovery(discovered: map<string, Device>, pd: PolicyMap)
    ensures SameDiscovery(InForce(discovered, pd).allocatable, discovered)
    ensures SameDiscovery(discovered, InForce(discovered, pd).allocatable)
  {
  }

  lemma SameTarget(selects: Selection, a: Inputs, b: Inputs, devices: map<string, Device>,
                   devices': map<string, Device>,
                   pd: PolicyMap, pd': PolicyMap)
    requires Unambiguous(a) && SameInputs(a, b) && SameDiscovery(devices, devices')
    requires Target(selects, a, devices, pd) && Target(selects, b, devices', pd')
    ensures pd == pd'
  {
    PolicyMapIsUnique(selects, NodePolicies(selects, a.nodeLabels, a.policies),
                      NodePolicies(selects, b.nodeLabels, b.policies),
                      a.objects, b.objects, devices, devices', pd, pd');
  }

  /** Equal up to the order in which the API lists objects. */
  ghost predicate SameInputs(a: Inputs, b: Inputs) {
    && a.nodeLabels == b.nodeLabels
    && (forall p :: p in a.policies <==> p in b.policies)
    && (forall o :: o in a.objects <==> o in b.objects)
  }

  /** Matching on live maps is matching on pristine ones: agreeing devices have the same target. */
  lemma TargetOnSameDiscovery(selects: Selection, inputs: Inputs, devices: map<string, Device>,
                              devices': map<string, Device>,
                              pd: PolicyMap)
    requires SameDiscovery(devices, devices') && Target(selects, inputs, devices, pd)
    ensures Target(selects, inputs, devices', pd)
  {
    var policies := NodePolicies(selects, inputs.nodeLabels, inputs.policies);
    forall d | d in devices
      ensures Matched(policies, devices[d].attributes) <==> Matched(policies, devices'[d].attributes)
    {
      SameMatches(policies, policies, devices[d].attributes, devices'[d].attributes);
    }
    forall d | d in pd
      ensures FromFirstMatch(selects, policies, inputs.objects, devices'[d].attributes, pd[d])
    {
      FirstMatchOnSameDiscovery(selects, policies, inputs.objects, devices[d].attributes, devices'[d].attributes,
                                pd[d]);
    }
  }

  lemma FirstMatchOnSameDiscovery(selects: Selection, policies: seq<Policy>, objects: seq<AttributesObject>,
                                  device: Attrs, device': Attrs, attrs: Attrs)
    requires AgreeOnReserved(device, device') && FromFirstMatch(selects, policies, objects, device, attrs)
    ensures FromFirstMatch(selects, policies, objects, device', attrs)
  {
    var p, j: nat :| FirstMatch(policies, device, p, j) &&
      Resolves(selects, p.configs[j].attributesSelector, objects, attrs);
    forall q: Policy, i: nat { SameMatch(q, i, device, device'); }
    assert FirstMatch(policies, device', p, j);
  }

  lemma StepFromInForce(selects: Selection, discovered: map<string, Device>, past: PolicyMap, inputs: Inputs, w: View)
    requires DiscoveryReserved(discovered)
    requires Step(selects, Reconciled(inputs), InForce(discovered, past), w)
    ensures Realizes(selects, discovered, Some(inputs), w)
  {
    var v := InForce(discovered, past);
    var pd :| Target(selects, inputs, v.allocatable, pd) && w == Applied(v, pd);
    InForceKeepsDiscovery(discovered, past);
    TargetOnSameDiscovery(selects, inputs, v.allocatable, discovered, pd);
    UpdateForgetsThePast(discovered, past, pd);
  }

  /** In every run, the advertised state is what the last completed reconcile asks for
      on pristine discovery data, whatever came before it. */
  lemma {:induction false} EveryRunRealizesItsLastInputs(selects: Selection, discovered: map<string, Device>,
                                                         events: seq<Event>, views: seq<View>)
    requires DiscoveryReserved(discovered)
    requires Trace(selects, events, views) && views[0] == Start(discovered)
    ensures Realizes(selects, discovered, LastInputs(events), views[|events|])
  {
    if events != [] {
      var n := |events| - 1;
      var earlier := events[..n];
      var prefix := views[..n + 1];
      forall i | 0 <= i < n
        ensures StepAt(selects, earlier, prefix, i)
      {
        assert StepAt(selects, events, views, i);
      }
      EveryRunRealizesItsLastInputs(selects, discovered, earlier, prefix);
      assert StepAt(selects, events, views, n);
      if events[n].Reconciled? {
        var past := SomePolicy(selects, discovered, LastInputs(earlier), views[n]);
        StepFromInForce(selects, discovered, past, events[n].inputs, views[n + 1]);
      }
    }
  }

  lemma SomePolicy(selects: Selection, discovered: map<string, Device>, inputs: Option<Inputs>, v: View)
    returns (pd: PolicyMap)
    requires Realizes(selects, discovered, inputs, v)
    ensures v == InForce(discovered, pd)
  {
    match inputs
    case None =>
      pd := map[];
      StartInForce(discovered);
    case Some(i) =>
      pd :| Target(selects, i, discovered, pd) && v == InForce(discovered, pd);
  }

  lemma RealizesIsUnique(selects: Selection, discovered: map<string, Device>, a: Inputs, b: Inputs, v: View, w: View)
    requires Unambiguous(a) && SameInputs(a, b)
    requires Realizes(selects, discovered, Some(a), v) && Realizes(selects, discovered, Some(b), w)
    ensures v == w
  {
    var pd :| Target(selects, a, discovered, pd) && v == InForce(discovered, pd);
    var pd' :| Target(selects, b, discovered, pd') && w == InForce(discovered, pd');
    SameTarget(selects, a, b, discovered, discovered, pd, pd');
  }

  /** Run `events` from discovery ends in view `v` and its last completed reconcile read `inputs`. */
  ghost predicate EndsIn(selects: Selection, discovered: map<string, Device>, events: seq<Event>, views: seq<View>,
                         inputs: Inputs, v: View) {
    Trace(selects, events, views) && views[0] == Start(discovered) && views[|events|] == v &&
      LastInputs(events) == Some(inputs)
  }

  lemma EndRealizesInputs(selects: Selection, discovered: map<string, Device>, events: seq<Event>, views: seq<View>,
                          inputs: Inputs, v: View)
    requires DiscoveryReserved(discovered) && EndsIn(selects, discovered, events, views, inputs, v)
    ensures Realizes(selects, discovered, Some(inputs), v)
  {
    EveryRunRealizesItsLastInputs(selects, discovered, events, views);
  }

  /** Two runs with any histories agree as soon as their last inputs do, up to list order. */
  lemma ReconcileIsAFunctionOfItsInputs(selects: Selection, discovered: map<string, Device>,
                                        events: seq<Event>, views: seq<View>, a: Inputs, v: View,
                                        events': seq<Event>, views': seq<View>, b: Inputs, w: View)
    requires DiscoveryReserved(discovered)
    requires EndsIn(selects, discovered, events, views, a, v) && EndsIn(selects, discovered, events', views', b, w)
    requires Unambiguous(a) && SameInputs(a, b)
    ensures v == w
  {
    EndRealizesInputs(selects, discovered, events, views, a, v);
    EndRealizesInputs(selects, discovered, events', views', b, w);
    RealizesIsUnique(selects, discovered, a, b, v, w);
  }

  lemma IdleWhenRealized(selects: Selection, discovered: map<string, Device>, a: Inputs, b: Inputs, v: View,
                         pd: PolicyMap)
    requires DiscoveryReserved(discovered)
    requires Unambiguous(a) && SameInputs(a, b)
    requires Realizes(selects, discovered, Some(a), v) && Target(selects, b, v.allocatable, pd)
    ensures Applied(v, pd) == v && !Changed(v, pd)
  {
    var pd' :| Target(selects, a, discovered, pd') && v == InForce(discovered, pd');
    TargetOfInForce(selects, discovered, a, b, pd', pd);
    IdleInForce(discovered, pd);
  }

  lemma TargetOfInForce(selects: Selection, discovered: map<string, Device>, a: Inputs, b: Inputs, pd': PolicyMap,
                        pd: PolicyMap)
    requires Unambiguous(a) && SameInputs(a, b)
    requires Target(selects, a, discovered, pd') && Target(selects, b, InForce(discovered, pd').allocatable, pd)
    ensures pd == pd' && pd.Keys <= discovered.Keys
  {
    InForceKeepsDiscovery(discovered, pd');
    SameTarget(selects, a, b, discovered, InForce(discovered, pd').allocatable, pd', pd);
  }

  /** Reconciling again with equal inputs changes nothing and republishes nothing. */
  lemma RepeatedReconcileIsIdle(selects: Selection, discovered: map<string, Device>,
                                events: seq<Event>, views: seq<View>, a: Inputs, v: View, b: Inputs, pd: PolicyMap)
    requires DiscoveryReserved(discovered)
    requires EndsIn(selects, discovered, events, views, a, v)
    requires Unambiguous(a) && SameInputs(a, b)
    requires Target(selects, b, v.allocatable, pd)
    ensures Applied(v, pd) == v && !Changed(v, pd)
  {
    EndRealizesInputs(selects, discovered, events, views, a, v);
    IdleWhenRealized(selects, discovered, a, b, v, pd);
  }

  lemma IdleInForce(discovered: map<string, Device>, pd: PolicyMap)
    requires DiscoveryReserved(discovered) && pd.Keys <= discovered.Keys
    ensures Applied(InForce(discovered, pd), pd) == InForce(discovered, pd)
    ensures !Changed(InForce(discovered, pd), pd)
  {
    UpdateForgetsThePast(discovered, pd, pd);
    RepeatedUpdate(Start(discovered), pd);
    StartInForce(discovered);
    UpdateForgetsThePast(discovered, map[], pd);
  }
}
