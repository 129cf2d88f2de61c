/** `Manager.UpdatePolicyDevices` and its helpers (pkg/devicestate/state.go): the
    advertised set and the policy attributes are edited in place on live device
    maps, with the manager's own keys tracked per device. */
module PolicyDevices {
  import opened Attributes

  /** Device name to the attributes that the policies resolved for it. */
  type PolicyMap = map<string, Attrs>

  /** The two fields that a policy update reads and writes. */
  datatype View = View(allocatable: map<string, Device>, tracked: map<string, set<QualifiedName>>)

  /** What the resource slice should carry: the policy-matched devices. */
  function Advertised(v: View): map<string, Device> {
    map d | d in v.tracked && d in v.allocatable :: v.allocatable[d]
  }

  function Settable(attrs: Attrs): Attrs { attrs - RESERVED }

  function TrackedKeys(v: View, d: string): set<QualifiedName> {
    if d in v.tracked then v.tracked[d] else {}
  }

  /** The view once the devices in `gone` have been forgotten. */
  function Cleared(v: View, gone: set<string>): View {
    View(map d | d in v.allocatable ::
           if d in gone then Without(v.allocatable[d], TrackedKeys(v, d)) else v.allocatable[d],
         v.tracked - gone)
  }

  function Without(dev: Device, keys: set<QualifiedName>): Device {
    dev.(attributes := dev.attributes - keys)
  }

  /** The attributes policy `pd` leaves on an existing device. */
  function Overlaid(v: View, pd: PolicyMap, d: string): Device
    requires d in v.allocatable && d in pd
  {
    v.allocatable[d].(attributes := v.allocatable[d].attributes - TrackedKeys(v, d) + Settable(pd[d]))
  }

  /** The view once the matched devices in `done` carry their policy attributes. */
  function Overlay(v: View, pd: PolicyMap, done: set<string>): View
    requires done <= pd.Keys
  {
    View(map d | d in v.allocatable :: if d in done then Overlaid(v, pd, d) else v.allocatable[d],
         map d | d in v.tracked.Keys + (done * v.allocatable.Keys) ::
           if d in done && d in v.allocatable then Settable(pd[d]).Keys else v.tracked[d])
  }

  /** What an update leaves on an existing device. */
  function Left(v: View, pd: PolicyMap, d: string): Device
    requires d in v.allocatable
  {
    if d in pd then Overlaid(v, pd, d) else Without(v.allocatable[d], TrackedKeys(v, d))
  }

  /** The view after one update call. */
  function Applied(v: View, pd: PolicyMap): View {
    View(map d | d in v.allocatable :: Left(v, pd, d),
         map d | d in pd.Keys * (v.allocatable.Keys + v.tracked.Keys) ::
           if d in v.allocatable then Settable(pd[d]).Keys else v.tracked[d])
  }

  /** Attribute `k` of device `d` is written by the update. */
  predicate Writes(v: View, pd: PolicyMap, d: string, k: QualifiedName) {
    d in pd && d in v.allocatable && k in Settable(pd[d]) &&
    (k !in v.allocatable[d].attributes || v.allocatable[d].attributes[k] != pd[d][k])
  }

  /** The update touches device `d`: an attribute is written or a stale key dropped. */
  ghost predicate Touches(v: View, pd: PolicyMap, d: string) {
    d in pd && d in v.allocatable &&
    ((exists k :: Writes(v, pd, d, k)) || TrackedKeys(v, d) - Settable(pd[d]).Keys != {})
  }

  /** Forgetting device `d` removes attributes from it. */
  predicate Strips(v: View, pd: PolicyMap, d: string) {
    d in v.tracked && d !in pd && v.tracked[d] != {} && d in v.allocatable
  }

  /** The update reports a change, so it asks for a republish. */
  ghost predicate Changed(v: View, pd: PolicyMap) {
    || (exists d :: Strips(v, pd, d))
    || !(pd.Keys <= v.tracked.Keys)
    || (exists d :: Touches(v, pd, d))
  }

  /** Overlays `wanted` on `before`, skipping reserved keys; reports the keys now owned
      by policy and whether any value was written. */
  method SetAttributes(before: Attrs, wanted: Attrs)
    returns (attrs: Attrs, newKeys: set<QualifiedName>, written: bool)
    ensures attrs == before + Settable(wanted)
    ensures newKeys == Settable(wanted).Keys
    ensures written <==> exists k :: k in newKeys && (k !in before || before[k] != wanted[k])
  {
    attrs, newKeys, written := before, {}, false;
    var keys := wanted.Keys;
    while keys != {}
      invariant keys <= wanted.Keys
      invariant newKeys == Settable(wanted).Keys - keys
      invariant attrs == before + (map k | k in newKeys :: wanted[k])
      invariant written <==> exists k :: k in newKeys && (k !in before || before[k] != wanted[k])
      decreases keys
    {
      var k :| k in keys;
      keys := keys - {k};
      if k !in RESERVED {
        newKeys := newKeys + {k};
        if k !in attrs || attrs[k] != wanted[k] {
          attrs, written := attrs[k := wanted[k]], true;
        }
      }
    }
    assert (map k | k in newKeys :: wanted[k]) == Settable(wanted);
  }

  /** Removes the old policy keys that the new policy no longer sets. */
  method DropStale(before: Attrs, oldKeys: set<QualifiedName>, newKeys: set<QualifiedName>)
    returns (attrs: Attrs, dropped: bool)
    ensures attrs == before - (oldKeys - newKeys)
    ensures dropped <==> !(oldKeys <= newKeys)
  {
    attrs, dropped := before, false;
    var keys := oldKeys;
    while keys != {}
      invariant keys <= oldKeys
      invariant attrs == before - (oldKeys - keys - newKeys)
      invariant dropped <==> oldKeys - keys - newKeys != {}
      decreases keys
    {
      var k :| k in keys;
      keys := keys - {k};
      if k !in newKeys {
        attrs, dropped := attrs - {k}, true;
        assert k in oldKeys - keys - newKeys;
      }
    }
    assert oldKeys - keys - newKeys == oldKeys - newKeys;
    assert forall k :: k in oldKeys && k !in newKeys ==> k in oldKeys - newKeys;
  }

  class Manager {
    var allocatable: map<string, Device>
    var policyAttrKeys: map<string, set<QualifiedName>>
    /** Every device list handed to the republish callback, oldest first. */
    var publications: seq<map<string, Device>>

    ghost function State(): View
      reads this
    {
      View(allocatable, policyAttrKeys)
    }

    constructor (discovered: map<string, Device>)
      ensures State() == View(discovered, map[]) && publications == []
    {
      allocatable, policyAttrKeys, publications := discovered, map[], [];
    }

    method GetAdvertisedDevices() returns (result: map<string, Device>)
      ensures result == Advertised(State())
    {
      result := map[];
      var names := policyAttrKeys.Keys;
      while names != {}
        invariant names <= policyAttrKeys.Keys
        invariant result == map d | d in policyAttrKeys && d !in names && d in allocatable :: allocatable[d]
        decreases names
      {
        var name :| name in names;
        if name in allocatable {
          result := result[name := allocatable[name]];
        }
        names := names - {name};
      }
    }

    /** Forgets a device and removes the attributes that policies set on it. */
    method ClearPolicyAttributes(d: string) returns (cleared: bool)
      modifies this`allocatable, this`policyAttrKeys
      ensures State() == Cleared(old(State()), {d})
      ensures cleared <==> TrackedKeys(old(State()), d) != {} && d in old(allocatable)
    {
      if d !in policyAttrKeys || policyAttrKeys[d] == {} || d !in allocatable {
        assert d in allocatable ==> Without(allocatable[d], {}) == allocatable[d] by {
          assert d in allocatable ==> allocatable[d].attributes - {} == allocatable[d].attributes;
        }
        policyAttrKeys := policyAttrKeys - {d};
        return false;
      }
      var attrs, keys := allocatable[d].attributes, policyAttrKeys[d];
      while keys != {}
        invariant keys <= policyAttrKeys[d]
        invariant attrs == allocatable[d].attributes - (policyAttrKeys[d] - keys)
        decreases keys
      {
        var k :| k in keys;
        attrs, keys := attrs - {k}, keys - {k};
      }
      assert attrs == allocatable[d].attributes - policyAttrKeys[d];
      allocatable := allocatable[d := allocatable[d].(attributes := attrs)];
      policyAttrKeys := policyAttrKeys - {d};
      return true;
    }

    /** Forgets every tracked device that no policy matches any more. */
    method ClearUnmatched(pd: PolicyMap) returns (changed: bool)
      modifies this`allocatable, this`policyAttrKeys
      ensures State() == Cleared(old(State()), old(policyAttrKeys).Keys - pd.Keys)
      ensures changed <==> exists d :: Strips(old(State()), pd, d)
    {
      changed := false;
      var names := policyAttrKeys.Keys;
      ghost var gone: set<string> := {};
      assert State() == Cleared(State(), {});
      while names != {}
        invariant names <= old(policyAttrKeys).Keys
        invariant gone == old(policyAttrKeys).Keys - names - pd.Keys
        invariant State() == Cleared(old(State()), gone)
        invariant changed <==> exists d :: d in gone && Strips(old(State()), pd, d)
        decreases names
      {
        var name :| name in names;
        names := names - {name};
        if name !in pd {
          var before := State();
          assert name in before.allocatable ==> before.allocatable[name] == old(allocatable)[name];
          var cleared := ClearPolicyAttributes(name);
          assert cleared <==> Strips(old(State()), pd, name);
          changed := changed || cleared;
          gone := gone + {name};
        }
      }
    }

    /** Writes the policy attributes of one existing device and drops its stale keys. */
    method ApplyToDevice(d: string, pd: PolicyMap) returns (changed: bool)
      requires d in allocatable && d in pd
      modifies this`allocatable, this`policyAttrKeys
      ensures State() == Overlay(old(State()), pd, {d})
      ensures changed <==> Touches(old(State()), pd, d)
    {
      ghost var before := State();
      var attrs, newKeys, written := SetAttributes(allocatable[d].attributes, pd[d]);
      var dropped := false;
      if d in policyAttrKeys {
        attrs, dropped := DropStale(attrs, policyAttrKeys[d], newKeys);
      }
      WrittenThenDropped(before, pd, d, written, dropped);
      allocatable := allocatable[d := allocatable[d].(attributes := attrs)];
      policyAttrKeys := policyAttrKeys[d := newKeys];
      changed := written || dropped;
      OverlayOne(before, pd, d);
    }

    /** The advertised names differ from the tracked ones, after unmatched ones were dropped. */
    method NamesChanged(pd: PolicyMap) returns (changed: bool)
      requires policyAttrKeys.Keys <= pd.Keys
      ensures changed <==> policyAttrKeys.Keys != pd.Keys
    {
      if |pd| != |policyAttrKeys| {
        assert |pd| == |pd.Keys| && |policyAttrKeys| == |policyAttrKeys.Keys|;
        return true;
      }
      changed := false;
      var names := pd.Keys;
      while names != {} && !changed
        invariant names <= pd.Keys && pd.Keys - names <= policyAttrKeys.Keys
        invariant changed ==> !(pd.Keys <= policyAttrKeys.Keys)
        decreases names, !changed
      {
        var name :| name in names;
        if name !in policyAttrKeys {
          changed := true;
        } else {
          names := names - {name};
        }
      }
    }

    /** Applies the policy attributes of every matched device that exists. */
    method ApplyMatched(pd: PolicyMap) returns (changed: bool)
      modifies this`allocatable, this`policyAttrKeys
      ensures State() == Overlay(old(State()), pd, pd.Keys)
      ensures changed <==> exists d :: Touches(old(State()), pd, d)
    {
      changed := false;
      var names := pd.Keys;
      ghost var before, done: set<string> := State(), {};
      assert before == Overlay(before, pd, {}) by { OverlayNone(before, pd); }
      while names != {}
        invariant names <= pd.Keys && done == pd.Keys - names
        invariant State() == Overlay(before, pd, done)
        invariant changed <==> exists d :: d in done && Touches(before, pd, d)
        decreases names
      {
        var name :| name in names;
        names := names - {name};
        OverlayKeepsOthers(before, pd, done, name);
        if name in allocatable {
          OverlayOneMore(before, pd, done, name);
          var touched := ApplyToDevice(name, pd);
          changed := changed || touched;
        } else {
          OverlayMissing(before, pd, done, name);
        }
        done := done + {name};
      }
      assert done == pd.Keys;
    }

    /** Makes `pd` the advertised set and republishes when something changed.
        `republish` is None when no callback is installed, else its outcome. */
    method UpdatePolicyDevices(pd: PolicyMap, republish: Option<bool>) returns (ok: bool)
      modifies this
      ensures State() == Applied(old(State()), pd)
      ensures publications == old(publications) +
                if Changed(old(State()), pd) && republish.Some? then [Advertised(State())] else []
      ensures ok <==> !(Changed(old(State()), pd) && republish == Some(false))
    {
      ghost var before := State();
      var changed := ClearUnmatched(pd);
      ghost var cleared := State();
      if !changed {
        changed := NamesChanged(pd);
      }
      var touched := ApplyMatched(pd);
      TouchesAfterClear(before, pd);
      AppliedInTwoSteps(before, pd);
      changed := changed || touched;
      if changed && republish.Some? {
        var devices := GetAdvertisedDevices();
        publications := publications + [devices];
        return republish.value;
      }
      return true;
    }
  }

  /** Writing the new keys and then dropping the stale ones overlays the policy on the device. */
  lemma WrittenThenDropped(v: View, pd: PolicyMap, d: string, written: bool, dropped: bool)
    requires d in v.allocatable && d in pd
    requires written <==> exists k :: k in Settable(pd[d]).Keys &&
                            (k !in v.allocatable[d].attributes || v.allocatable[d].attributes[k] != pd[d][k])
    requires dropped <==> !(TrackedKeys(v, d) <= Settable(pd[d]).Keys)
    ensures var both := v.allocatable[d].attributes + Settable(pd[d]);
            && both - (TrackedKeys(v, d) - Settable(pd[d]).Keys) == Overlaid(v, pd, d).attributes
            && (d !in v.tracked ==> both == Overlaid(v, pd, d).attributes)
    ensures written || dropped <==> Touches(v, pd, d)
  {
    assert forall k :: Writes(v, pd, d, k) <==>
      (k in Settable(pd[d]).Keys && (k !in v.allocatable[d].attributes || v.allocatable[d].attributes[k] != pd[d][k]));
    var old', new' := TrackedKeys(v, d), Settable(pd[d]).Keys;
    assert old' - new' == {} ==> forall k :: k in old' ==> k in new' by {
      assert forall k :: k in old' && k !in new' ==> k in old' - new';
    }
    var both, goal := v.allocatable[d].attributes + Settable(pd[d]), Overlaid(v, pd, d).attributes;
    assert both - (old' - new') == goal;
    assert d !in v.tracked ==> both == goal;
  }

  lemma OverlayOne(v: View, pd: PolicyMap, d: string)
    requires d in v.allocatable && d in pd
    ensures View(v.allocatable[d := Overlaid(v, pd, d)], v.tracked[d := Settable(pd[d]).Keys]) == Overlay(v, pd, {d})
  {
    SameView(View(v.allocatable[d := Overlaid(v, pd, d)], v.tracked[d := Settable(pd[d]).Keys]), Overlay(v, pd, {d}));
  }

  lemma OverlayNone(v: View, pd: PolicyMap)
    ensures Overlay(v, pd, {}) == v
  {
    assert Overlay(v, pd, {}).allocatable == v.allocatable;
    assert Overlay(v, pd, {}).tracked == v.tracked;
  }

  lemma OverlayOneMoreTracked(v: View, pd: PolicyMap, done: set<string>, d: string)
    requires done <= pd.Keys && d in pd && d !in done && d in v.allocatable
    ensures Overlay(Overlay(v, pd, done), pd, {d}).tracked == Overlay(v, pd, done + {d}).tracked
  {
    var one, goal := Overlay(Overlay(v, pd, done), pd, {d}).tracked, Overlay(v, pd, done + {d}).tracked;
    assert one.Keys == goal.Keys;
  }

  /** Overlaying device by device gives the same view as overlaying them together. */
  lemma OverlayOneMore(v: View, pd: PolicyMap, done: set<string>, d: string)
    requires done <= pd.Keys && d in pd && d !in done && d in v.allocatable
    ensures Overlay(Overlay(v, pd, done), pd, {d}) == Overlay(v, pd, done + {d})
  {
    OverlayOneMoreTracked(v, pd, done, d);
    var w := Overlay(v, pd, done);
    assert Overlaid(w, pd, d) == Overlaid(v, pd, d) by { OverlayKeepsOthers(v, pd, done, d); }
    assert Overlay(w, pd, {d}).allocatable == Overlay(v, pd, done + {d}).allocatable;
  }

  lemma OverlayMissing(v: View, pd: PolicyMap, done: set<string>, d: string)
    requires done <= pd.Keys && d in pd && d !in v.allocatable
    ensures Overlay(v, pd, done) == Overlay(v, pd, done + {d})
  {
    var w, goal := Overlay(v, pd, done), Overlay(v, pd, done + {d});
    assert w.allocatable == goal.allocatable;
    assert done * v.allocatable.Keys == (done + {d}) * v.allocatable.Keys;
    assert w.tracked == goal.tracked;
  }

  lemma OverlayKeepsOthers(v: View, pd: PolicyMap, done: set<string>, d: string)
    requires done <= pd.Keys && d !in done
    ensures TrackedKeys(Overlay(v, pd, done), d) == TrackedKeys(v, d)
    ensures d in v.allocatable ==> Overlay(v, pd, done).allocatable[d] == v.allocatable[d]
    ensures Touches(Overlay(v, pd, done), pd, d) <==> Touches(v, pd, d)
  {
    var w := Overlay(v, pd, done);
    assert TrackedKeys(w, d) == TrackedKeys(v, d);
    assert forall k :: Writes(w, pd, d, k) <==> Writes(v, pd, d, k);
  }

  lemma TwoStepsAt(v: View, pd: PolicyMap, d: string)
    requires d in v.allocatable
    ensures Overlay(Cleared(v, v.tracked.Keys - pd.Keys), pd, pd.Keys).allocatable[d] == Left(v, pd, d)
  {
    var w := Cleared(v, v.tracked.Keys - pd.Keys);
    if d in pd {
      assert TrackedKeys(w, d) == TrackedKeys(v, d);
    } else if d !in v.tracked {
      assert v.allocatable[d].attributes - {} == v.allocatable[d].attributes;
    }
  }

  lemma TwoStepsTracked(v: View, pd: PolicyMap)
    ensures Overlay(Cleared(v, v.tracked.Keys - pd.Keys), pd, pd.Keys).tracked == Applied(v, pd).tracked
  {
  }

  /** Forgetting the unmatched devices and then overlaying the matched ones is one update. */
  lemma AppliedInTwoSteps(v: View, pd: PolicyMap)
    ensures Overlay(Cleared(v, v.tracked.Keys - pd.Keys), pd, pd.Keys) == Applied(v, pd)
  {
    TwoStepsTracked(v, pd);
    var two := Overlay(Cleared(v, v.tracked.Keys - pd.Keys), pd, pd.Keys);
    assert two.allocatable == Applied(v, pd).allocatable by {
      forall d | d in v.allocatable { TwoStepsAt(v, pd, d); }
    }
  }

  lemma TouchesAfterClear(v: View, pd: PolicyMap)
    ensures var w := Cleared(v, v.tracked.Keys - pd.Keys);
            forall d :: Touches(w, pd, d) <==> Touches(v, pd, d)
  {
    var w := Cleared(v, v.tracked.Keys - pd.Keys);
    forall d | d in pd
      ensures Touches(w, pd, d) <==> Touches(v, pd, d)
    {
      assert TrackedKeys(w, d) == TrackedKeys(v, d);
      assert forall k :: Writes(w, pd, d, k) <==> Writes(v, pd, d, k);
    }
  }

  // ----- Whole runs of policy updates -----

  /** Discovery only ever sets keys that policies cannot touch. */
  ghost predicate DiscoveryReserved(discovered: map<string, Device>) {
    forall d :: d in discovered ==> discovered[d].attributes.Keys <= RESERVED
  }

  /** Reference meaning of "policy map `pd` is in force": discovery data plus the
      policy's own settable attributes, and nothing else. */
  function InForce(discovered: map<string, Device>, pd: PolicyMap): View {
    View(map d | d in discovered ::
           if d in pd then discovered[d].(attributes := discovered[d].attributes + Settable(pd[d])) else discovered[d],
         map d | d in pd && d in discovered :: Settable(pd[d]).Keys)
  }

  /** Key by key: a policy sets the attributes that are not reserved, discovery the others, and exactly
      the devices of the policy that exist are advertised. */
  lemma InForceExactly(discovered: map<string, Device>, pd: PolicyMap, d: string, k: QualifiedName)
    requires d in discovered
    ensures var v := InForce(discovered, pd);
            && d in v.allocatable && (d in Advertised(v) <==> d in pd)
            && var attrs := v.allocatable[d].attributes;
            if d in pd && k in pd[d] && k !in RESERVED then k in attrs && attrs[k] == pd[d][k]
            else (k in attrs <==> k in discovered[d].attributes) &&
                 (k in attrs ==> attrs[k] == discovered[d].attributes[k])
  {
  }

  function Run(v: View, updates: seq<PolicyMap>): View {
    if updates == [] then v else Applied(Run(v, updates[..|updates| - 1]), updates[|updates| - 1])
  }

  function Start(discovered: map<string, Device>): View { View(discovered, map[]) }

  /** Taking the tracked keys off a device gives back its discovery attributes. */
  lemma StripsToDiscovery(discovered: map<string, Device>, past: PolicyMap, d: string)
    requires DiscoveryReserved(discovered) && d in discovered
    ensures var v := InForce(discovered, past);
            v.allocatable[d].attributes - TrackedKeys(v, d) == discovered[d].attributes
  {
    var v := InForce(discovered, past);
    if d in past {
      var base, extra := discovered[d].attributes, Settable(past[d]);
      assert base.Keys !! extra.Keys;
      assert base + extra - extra.Keys == base;
    }
  }

  lemma SameView(v: View, w: View)
    requires v.allocatable.Keys == w.allocatable.Keys && v.tracked.Keys == w.tracked.Keys
    requires forall d :: d in v.allocatable ==> v.allocatable[d] == w.allocatable[d]
    requires forall d :: d in v.tracked ==> v.tracked[d] == w.tracked[d]
    ensures v == w
  {
    assert v.allocatable == w.allocatable;
    assert v.tracked == w.tracked;
  }

  lemma ForgetsAt(discovered: map<string, Device>, past: PolicyMap, pd: PolicyMap, d: string)
    requires DiscoveryReserved(discovered) && d in discovered
    ensures Left(InForce(discovered, past), pd, d) == InForce(discovered, pd).allocatable[d]
  {
    StripsToDiscovery(discovered, past, d);
  }

  /** One update forgets whatever policy was in force before it. */
  lemma UpdateForgetsThePast(discovered: map<string, Device>, past: PolicyMap, pd: PolicyMap)
    requires DiscoveryReserved(discovered)
    ensures Applied(InForce(discovered, past), pd) == InForce(discovered, pd)
  {
    forall d | d in discovered { ForgetsAt(discovered, past, pd, d); }
    SameView(Applied(InForce(discovered, past), pd), InForce(discovered, pd));
  }

  lemma StartInForce(discovered: map<string, Device>)
    ensures Start(discovered) == InForce(discovered, map[])
  {
    assert InForce(discovered, map[]).allocatable == discovered;
    assert InForce(discovered, map[]).tracked == map[];
  }

  lemma {:induction false} RunInForce(discovered: map<string, Device>, updates: seq<PolicyMap>)
    requires DiscoveryReserved(discovered)
    ensures Run(Start(discovered), updates) ==
            InForce(discovered, if updates == [] then map[] else updates[|updates| - 1])
  {
    if updates == [] {
      StartInForce(discovered);
    } else {
      var earlier := updates[..|updates| - 1];
      RunInForce(discovered, earlier);
      UpdateForgetsThePast(discovered, if earlier == [] then map[] else earlier[|earlier| - 1], updates[|updates| - 1]);
    }
  }

  /** The outcome of a run that ends with update `last`, whatever came before. */
  ghost predicate FixedByLast(discovered: map<string, Device>, earlier: seq<PolicyMap>, last: PolicyMap) {
    Run(Start(discovered), earlier + [last]) == InForce(discovered, last)
  }

  ghost predicate HistoryIndependent(discovered: map<string, Device>) {
    forall earlier: seq<PolicyMap>, last: PolicyMap :: FixedByLast(discovered, earlier, last)
  }

  /** The outcome of every run is fixed by its last update exactly when discovery
      keeps to the reserved keys. */
  lemma HistoryIndependence(discovered: map<string, Device>)
    ensures HistoryIndependent(discovered) <==> DiscoveryReserved(discovered)
  {
    if DiscoveryReserved(discovered) {
      forall earlier: seq<PolicyMap>, last: PolicyMap
        ensures FixedByLast(discovered, earlier, last)
      {
        RunInForce(discovered, earlier + [last]);
      }
    } else {
      var d :| d in discovered && !(discovered[d].attributes.Keys <= RESERVED);
      var k :| k in discovered[d].attributes && k !in RESERVED;
      var pd: PolicyMap := map[d := map[k := discovered[d].attributes[k]]];
      LostAfterWithdrawal(discovered, d, k, pd);
    }
  }

  /** A policy that sets an unreserved discovery key and is then withdrawn takes
      the discovered attribute with it. */
  lemma LostAfterWithdrawal(discovered: map<string, Device>, d: string, k: QualifiedName, pd: PolicyMap)
    requires d in discovered && k in discovered[d].attributes && k !in RESERVED
    requires d in pd && k in pd[d]
    ensures !FixedByLast(discovered, [pd], map[])
  {
    assert [pd] + [map[]] == [pd, map[]];
    var one := Applied(Start(discovered), pd);
    assert k in one.tracked[d];
    WithdrawnAt(one, d, k);
    RunTwo(Start(discovered), pd, map[]);
    StartInForce(discovered);
  }

  lemma WithdrawnAt(v: View, d: string, k: QualifiedName)
    requires d in v.allocatable && k in TrackedKeys(v, d)
    ensures k !in Applied(v, map[]).allocatable[d].attributes
  {
  }

  lemma RunTwo(v: View, first: PolicyMap, second: PolicyMap)
    ensures Run(v, [first, second]) == Applied(Applied(v, first), second)
  {
    assert [first, second][..1] == [first] && [first][..0] == [];
    assert Run(v, [first]) == Applied(v, first);
  }

  // ----- When an update republishes -----

  /** An update that stays silent adds no device, leaves every surviving device as
      it was, and drops only devices that carry no policy attribute. */
  lemma SilentUpdate(v: View, pd: PolicyMap)
    requires !Changed(v, pd)
    ensures pd.Keys <= v.tracked.Keys
    ensures forall d :: d in pd && d in v.allocatable ==> Applied(v, pd).allocatable[d] == v.allocatable[d]
    ensures forall d :: d in v.tracked && d !in pd && d in v.allocatable ==> v.tracked[d] == {}
  {
    forall d | d in pd && d in v.allocatable
      ensures Left(v, pd, d) == v.allocatable[d]
    {
      UntouchedDevice(v, pd, d);
    }
    assert forall d :: d in v.tracked && d !in pd && d in v.allocatable ==> !Strips(v, pd, d);
  }

  lemma UntouchedDevice(v: View, pd: PolicyMap, d: string)
    requires d in pd && d in v.allocatable && !Touches(v, pd, d)
    ensures Left(v, pd, d) == v.allocatable[d]
  {
    var attrs, extra := v.allocatable[d].attributes, Settable(pd[d]);
    assert forall k :: k in TrackedKeys(v, d) && k !in extra.Keys ==> k in TrackedKeys(v, d) - extra.Keys;
    assert forall k :: k in extra ==> !Writes(v, pd, d, k);
    assert attrs - TrackedKeys(v, d) + extra == attrs;
  }

  /** Surviving devices look the same to a reader of the resource slice. */
  ghost predicate SurvivorsUnchanged(before: map<string, Device>, after: map<string, Device>) {
    forall d :: d in after ==> d in before && before[d] == after[d]
  }

  /** Every device that leaves the advertised set carries no policy attribute. */
  ghost predicate DropsOnlyBare(v: View, pd: PolicyMap) {
    forall d :: d in v.tracked && d !in pd ==> v.tracked[d] == {}
  }

  /** In every reachable view, an update stays silent exactly when the slice only
      loses devices without policy attributes. */
  lemma RepublishExact(discovered: map<string, Device>, past: PolicyMap, pd: PolicyMap)
    requires DiscoveryReserved(discovered) && pd.Keys <= discovered.Keys
    ensures var v := InForce(discovered, past);
            !Changed(v, pd) <==>
            SurvivorsUnchanged(Advertised(v), Advertised(Applied(v, pd))) && DropsOnlyBare(v, pd)
  {
    var v := InForce(discovered, past);
    if !Changed(v, pd) {
      SilentUpdate(v, pd);
    }
    if SurvivorsUnchanged(Advertised(v), Advertised(Applied(v, pd))) && DropsOnlyBare(v, pd) {
      SurvivorsMeanSilence(discovered, past, pd);
    }
  }

  lemma SurvivorsMeanSilence(discovered: map<string, Device>, past: PolicyMap, pd: PolicyMap)
    requires DiscoveryReserved(discovered) && pd.Keys <= discovered.Keys
    requires var v := InForce(discovered, past);
             SurvivorsUnchanged(Advertised(v), Advertised(Applied(v, pd))) && DropsOnlyBare(v, pd)
    ensures !Changed(InForce(discovered, past), pd)
  {
    var v := InForce(discovered, past);
    UpdateForgetsThePast(discovered, past, pd);
    forall d | d in pd
      ensures d in v.tracked && !Touches(v, pd, d)
    {
      SurvivorUntouched(discovered, past, pd, d);
    }
    assert forall d :: !Strips(v, pd, d);
  }

  lemma SurvivorUntouched(discovered: map<string, Device>, past: PolicyMap, pd: PolicyMap, d: string)
    requires DiscoveryReserved(discovered) && d in pd && d in discovered
    requires SurvivorsUnchanged(Advertised(InForce(discovered, past)), Advertised(InForce(discovered, pd)))
    ensures d in InForce(discovered, past).tracked && !Touches(InForce(discovered, past), pd, d)
  {
    assert d in Advertised(InForce(discovered, pd));
    SameOverlay(discovered, past, pd, d);
  }

  /** A device looks the same under two policies only if they set the same attributes on it. */
  lemma SameOverlay(discovered: map<string, Device>, past: PolicyMap, pd: PolicyMap, d: string)
    requires DiscoveryReserved(discovered)
    requires d in discovered && d in past && d in pd
    requires InForce(discovered, past).allocatable[d] == InForce(discovered, pd).allocatable[d]
    ensures Settable(past[d]) == Settable(pd[d])
    ensures !Touches(InForce(discovered, past), pd, d)
  {
    var base, a, b := discovered[d].attributes, Settable(past[d]), Settable(pd[d]);
    assert base + a == base + b;
    assert forall k :: k in a ==> k in base + a;
    assert forall k :: k in b ==> k in base + b;
    assert a == b;
    assert a.Keys - b.Keys == {};
  }

  /** Surviving devices look the same exactly when their policy attributes stay the same. */
  lemma SurvivorsKeepTheirPolicy(discovered: map<string, Device>, past: PolicyMap, pd: PolicyMap)
    requires DiscoveryReserved(discovered) && pd.Keys <= discovered.Keys
    ensures var v := InForce(discovered, past);
            SurvivorsUnchanged(Advertised(v), Advertised(Applied(v, pd))) <==>
            forall d :: d in pd ==> d in past && Settable(past[d]) == Settable(pd[d])
  {
    var v := InForce(discovered, past);
    UpdateForgetsThePast(discovered, past, pd);
    AdvertisedNames(discovered, past, pd);
    if SurvivorsUnchanged(Advertised(v), Advertised(Applied(v, pd))) {
      forall d | d in pd
        ensures d in past && Settable(past[d]) == Settable(pd[d])
      {
        assert d in Advertised(InForce(discovered, pd));
        SameOverlay(discovered, past, pd, d);
      }
    }
  }

  /** The policies say that devices disappear from the slice, none of which carries a policy
      attribute, while the others keep theirs. */
  ghost predicate OnlyBareDropped(discovered: map<string, Device>, past: PolicyMap, pd: PolicyMap) {
    && (exists d :: d in past && d in discovered && d !in pd)
    && (forall d :: d in past && d in discovered && d !in pd ==> Settable(past[d]) == map[])
    && (forall d :: d in pd ==> d in past && Settable(past[d]) == Settable(pd[d]))
  }

  /** The slice goes stale without a republish exactly when the old and the new policies only
      drop bare devices. */
  lemma RepublishMissed(discovered: map<string, Device>, past: PolicyMap, pd: PolicyMap)
    requires DiscoveryReserved(discovered) && pd.Keys <= discovered.Keys
    ensures var v := InForce(discovered, past);
            !Changed(v, pd) && Advertised(Applied(v, pd)) != Advertised(v) <==> OnlyBareDropped(discovered, past, pd)
  {
    SilentAndStale(discovered, past, pd);
    SurvivorsKeepTheirPolicy(discovered, past, pd);
    BareMeansNoPolicy(discovered, past, pd);
  }

  lemma SilentAndStale(discovered: map<string, Device>, past: PolicyMap, pd: PolicyMap)
    requires DiscoveryReserved(discovered) && pd.Keys <= discovered.Keys
    ensures var v := InForce(discovered, past);
            !Changed(v, pd) && Advertised(Applied(v, pd)) != Advertised(v) <==>
            !(v.tracked.Keys <= pd.Keys) && DropsOnlyBare(v, pd) &&
              SurvivorsUnchanged(Advertised(v), Advertised(Applied(v, pd)))
  {
    var v := InForce(discovered, past);
    RepublishExact(discovered, past, pd);
    if SurvivorsUnchanged(Advertised(v), Advertised(Applied(v, pd))) {
      ShrinkingSlice(Advertised(v), Advertised(Applied(v, pd)));
    }
    AdvertisedNames(discovered, past, pd);
  }

  lemma BareMeansNoPolicy(discovered: map<string, Device>, past: PolicyMap, pd: PolicyMap)
    ensures var v := InForce(discovered, past);
            && (DropsOnlyBare(v, pd) <==> forall d :: d in past && d in discovered && d !in pd ==>
                Settable(past[d]) == map[])
            && (v.tracked.Keys <= pd.Keys <==> !exists d :: d in past && d in discovered && d !in pd)
  {
    var v := InForce(discovered, past);
    assert forall d :: d in v.tracked <==> d in past && d in discovered;
    forall d | d in past
      ensures Settable(past[d]) == map[] <==> Settable(past[d]).Keys == {}
    {
    }
  }

  lemma ShrinkingSlice(before: map<string, Device>, after: map<string, Device>)
    requires SurvivorsUnchanged(before, after)
    ensures after == before <==> before.Keys <= after.Keys
  {
  }

  lemma AdvertisedNames(discovered: map<string, Device>, past: PolicyMap, pd: PolicyMap)
    requires pd.Keys <= discovered.Keys
    ensures var v := InForce(discovered, past);
            Advertised(v).Keys == v.tracked.Keys && Advertised(Applied(v, pd)).Keys == pd.Keys
  {
  }

  lemma RepublishMissedExample(dev: Device)
    requires dev.attributes.Keys <= RESERVED
    ensures var v := InForce(map["vf0" := dev], map["vf0" := map[]]);
            !Changed(v, map[]) && Advertised(Applied(v, map[])) == map[] && Advertised(v) == map["vf0" := dev]
  {
    var v := InForce(map["vf0" := dev], map["vf0" := map[]]);
    assert dev.attributes + Settable(map[]) == dev.attributes;
    assert v.tracked["vf0"] == {};
  }

  /** A repeated update changes nothing, and stays silent exactly when it names only
      known devices; so a republish that failed is not retried by the same call. */
  lemma RepeatedUpdate(v: View, pd: PolicyMap)
    ensures Applied(Applied(v, pd), pd) == Applied(v, pd)
    ensures Changed(Applied(v, pd), pd) <==> !(pd.Keys <= v.allocatable.Keys + v.tracked.Keys)
  {
    var w := Applied(v, pd);
    forall d | d in v.allocatable
      ensures Left(w, pd, d) == w.allocatable[d] && !Touches(w, pd, d)
    {
      if d in pd {
        SettledDevice(v, pd, d);
      } else {
        assert w.allocatable[d].attributes - {} == w.allocatable[d].attributes;
      }
    }
    assert w.tracked.Keys <= pd.Keys;
    SettledView(w, pd);
    assert forall d :: !Strips(w, pd, d);
  }

  lemma SettledView(w: View, pd: PolicyMap)
    requires forall d :: d in w.allocatable ==> Left(w, pd, d) == w.allocatable[d]
    requires w.tracked.Keys <= pd.Keys
    requires forall d :: d in pd && d in w.allocatable ==> d in w.tracked && w.tracked[d] == Settable(pd[d]).Keys
    ensures Applied(w, pd) == w
  {
    SameView(Applied(w, pd), w);
  }

  lemma SettledDevice(v: View, pd: PolicyMap, d: string)
    requires d in v.allocatable && d in pd
    ensures var w := Applied(v, pd); !Touches(w, pd, d) && Left(w, pd, d) == w.allocatable[d]
  {
    var w := Applied(v, pd);
    assert TrackedKeys(w, d) == Settable(pd[d]).Keys;
    assert w.allocatable[d] == Overlaid(v, pd, d);
    assert TrackedKeys(w, d) - Settable(pd[d]).Keys == {};
    UntouchedDevice(w, pd, d);
  }
}
