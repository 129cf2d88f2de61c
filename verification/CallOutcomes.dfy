/** When a kubelet call succeeds, and what it leaves behind when the pod's CDI spec cannot be
    written (pkg/driver/dra_hook.go). */
module CallOutcomes {
  import opened AllOrNothing
  import opened Attributes
  import opened Environment
  import opened DriverLeak
  import opened HostDriver
  import opened Hooks
  import opened HookOutcomes
  import opened PodManager
  import opened Preparation
  import opened PrepareSuccess
  import opened VfConfigs

  // ----- The pod of a call -----

  /** The pod is that of the first claim that is reserved at all. */
  lemma {:induction false} FirstPodIsFirst(claims: seq<ResourceClaim>, i: nat)
    requires i < |claims| && claims[i].reservedFor != [] && forall j :: 0 <= j < i ==> claims[j].reservedFor == []
    ensures FirstPod(claims) == claims[i].reservedFor[0]
  {
    if i > 0 {
      FirstPodIsFirst(claims[1..], i - 1);
    }
  }

  lemma {:induction false} NoClaimNoPod(claims: seq<ResourceClaim>)
    requires forall j :: 0 <= j < |claims| ==> claims[j].reservedFor == []
    ensures FirstPod(claims) == ""
  {
    if claims != [] {
      NoClaimNoPod(claims[1..]);
    }
  }

  // ----- What preparing adds to memory -----

  predicate InTable(t: InfoTable, pod: string, uid: string) { pod in t && uid in t[pod] }

  /** An entry as it is stored: some devices, all known to the node and recorded under the pod. */
  ghost predicate WellRecorded(n: Node, pod: string, ds: seq<DeviceInfo>) {
    ds != [] && forall d :: d in ds ==> d.deviceName in n.devices && d.podUID == pod
  }

  /** One of the claims is this one. */
  ghost predicate Among(claims: seq<ResourceClaim>, pod: string, uid: string) {
    exists claim :: claim in claims && Preparable(claim) && claim.reservedFor[0] == pod && claim.uid == uid
  }

  /** Memory keeps every entry, and gains well-recorded entries of the claims only. */
  ghost predicate Gains(n: Node, t: InfoTable, u: InfoTable, claims: seq<ResourceClaim>) {
    && t.Keys <= u.Keys
    && (forall p, c :: InTable(t, p, c) ==> InTable(u, p, c) && u[p][c] == t[p][c])
    && (forall p, c :: InTable(u, p, c) && !InTable(t, p, c) ==> WellRecorded(n, p, u[p][c]) && Among(claims, p, c))
  }

  lemma ClaimFrame(n: Node, w: World, claim: ResourceClaim, index: nat, prep: Prep)
    requires claim.reservedFor != [] && claim.allocation.Some? && prep == PreparingClaim(n, w, claim, index)
    ensures w.sys.tick <= prep.world.sys.tick && prep.world.sys.bus.Keys == w.sys.bus.Keys
    ensures prep.ok ==> prep.devices != []
  {
    PrepareIsAllOrNothing(n, w, claim, index);
  }

  lemma UnprepareFrame(n: Node, w: World, uid: string, ds: seq<DeviceInfo>)
    ensures var done := Unpreparing(n, w, uid, ds);
            w.sys.tick <= done.world.sys.tick && done.world.sys.bus.Keys == w.sys.bus.Keys
  {
    UnpreparingUnprepares(n, w, uid, ds);
  }

  lemma PreparedIsWellRecorded(n: Node, w: World, claim: ResourceClaim, index: nat, prep: Prep)
    requires Preparable(claim) && prep == PreparingClaim(n, w, claim, index) && prep.ok
    ensures WellRecorded(n, claim.reservedFor[0], prep.devices)
  {
    ClaimFrame(n, w, claim, index, prep);
    PreparedClaimMatches(n, w, claim, index);
    var ds, own := prep.devices, OwnResults(claim.allocation.value.results);
    forall d | d in ds
      ensures d.deviceName in n.devices && d.podUID == claim.reservedFor[0]
    {
      var k :| 0 <= k < |ds| && ds[k] == d;
      assert MatchesResult(n, ds[k], claim, FoldedMap(claim.allocation.value.configs), own[k]);
    }
  }

  lemma WithClaimGains(n: Node, t: InfoTable, claim: ResourceClaim, ds: seq<DeviceInfo>)
    requires Preparable(claim) && !Known(t, claim) && WellRecorded(n, claim.reservedFor[0], ds)
    ensures Gains(n, t, WithClaim(t, claim.reservedFor[0], claim.uid, ds), [claim])
  {
    var u := WithClaim(t, claim.reservedFor[0], claim.uid, ds);
    assert claim in [claim];
    forall p, c | InTable(u, p, c) && !InTable(t, p, c)
      ensures WellRecorded(n, p, u[p][c]) && Among([claim], p, c)
    {
      TrackedEntry(t, claim.reservedFor[0], claim.uid, ds, p, c);
    }
  }

  lemma OneGains(n: Node, s: State, claim: ResourceClaim, index: nat, r: Claimed)
    requires r == PreparingOne(n, s, claim, index)
    ensures Gains(n, s.memory, r.state.memory, [claim])
  {
    if Preparable(claim) && !Known(s.memory, claim) {
      var prep := PreparingClaim(n, s.world, claim, index);
      if prep.ok {
        PreparedIsWellRecorded(n, s.world, claim, index, prep);
        WithClaimGains(n, s.memory, claim, prep.devices);
      }
    }
  }

  lemma GainsMore(n: Node, t: InfoTable, u: InfoTable, v: InfoTable, first: ResourceClaim, rest: seq<ResourceClaim>)
    requires Gains(n, t, u, [first]) && Gains(n, u, v, rest)
    ensures Gains(n, t, v, [first] + rest)
  {
    forall p, c | InTable(v, p, c) && !InTable(t, p, c)
      ensures WellRecorded(n, p, v[p][c]) && Among([first] + rest, p, c)
    {
      if InTable(u, p, c) {
        assert Among([first], p, c);
        assert first in [first] + rest;
      } else {
        var claim :| claim in rest && Preparable(claim) && claim.reservedFor[0] == p && claim.uid == c;
        assert claim in [first] + rest;
      }
    }
  }

  lemma {:induction false} EachGains(n: Node, s: State, claims: seq<ResourceClaim>, index: nat, t: State)
    requires t == Last(s, PreparingEach(n, s, claims, index))
    ensures Gains(n, s.memory, t.memory, claims)
    decreases |claims|
  {
    if claims != [] {
      var first := PreparingOne(n, s, claims[0], index);
      assert t == Last(first.state, PreparingEach(n, first.state, claims[1..], first.index));
      OneGains(n, s, claims[0], index, first);
      EachGains(n, first.state, claims[1..], first.index, t);
      GainsMore(n, s.memory, first.state.memory, t.memory, claims[0], claims[1..]);
      assert claims == [claims[0]] + claims[1..];
    }
  }

  // ----- Which pods are tracked after a call without faults -----

  ghost predicate ServableFor(n: Node, bus: Bus, claim: ResourceClaim, pod: string) {
    Preparable(claim) && claim.reservedFor[0] == pod && Servable(n, bus, claim)
  }

  lemma OneKeepsKeys(n: Node, s: State, claim: ResourceClaim, index: nat, r: Claimed)
    requires r == PreparingOne(n, s, claim, index)
    ensures r.state.world.sys.bus.Keys == s.world.sys.bus.Keys
  {
    if Preparable(claim) && !Known(s.memory, claim) {
      var prep := PreparingClaim(n, s.world, claim, index);
      ClaimFrame(n, s.world, claim, index, prep);
      UnprepareFrame(n, Pass(prep.world), claim.uid, prep.devices);
    }
  }

  /** A claim that is not tracked yet is prepared without faults exactly when the node can serve it. */
  lemma CalmOneExactly(n: Node, s: State, claim: ResourceClaim, index: nat, r: Claimed)
    requires r == PreparingOne(n, s, claim, index) && Calm(n.script, s.world.sys.tick, r.state.world.sys.tick)
    ensures r.devices.Some? <==>
            Preparable(claim) && (Known(s.memory, claim) || Servable(n, s.world.sys.bus, claim))
    ensures forall pod :: pod in r.state.memory <==>
              pod in s.memory || ServableFor(n, s.world.sys.bus, claim, pod)
  {
    if Preparable(claim) && !Known(s.memory, claim) {
      var prep := PreparingClaim(n, s.world, claim, index);
      ClaimFrame(n, s.world, claim, index, prep);
      UnprepareFrame(n, Pass(prep.world), claim.uid, prep.devices);
      CalmPrepareExactly(n, s.world, claim, index, prep);
    }
  }

  lemma ServableKeys(n: Node, a: Bus, b: Bus, claim: ResourceClaim, pod: string)
    requires a.Keys == b.Keys
    ensures ServableFor(n, a, claim, pod) <==> ServableFor(n, b, claim, pod)
  {
    if claim.allocation.Some? {
      BindableKeys(n, a, b, FoldedMap(claim.allocation.value.configs), claim.allocation.value.results);
    }
  }

  lemma {:induction false} CalmEachTracks(n: Node, s: State, claims: seq<ResourceClaim>, index: nat,
                                          t: State, pod: string)
    requires t == Last(s, PreparingEach(n, s, claims, index)) && Calm(n.script, s.world.sys.tick, t.world.sys.tick)
    ensures pod in t.memory <==>
            pod in s.memory || exists claim :: claim in claims && ServableFor(n, s.world.sys.bus, claim, pod)
    decreases |claims|
  {
    if claims != [] {
      var first, rest := PreparingOne(n, s, claims[0], index), claims[1..];
      assert t == Last(first.state, PreparingEach(n, first.state, rest, first.index));
      PreparingOneLater(n, s, claims[0], index, first);
      PreparingEachKeeps(map[], n, first.state, rest, first.index, t);
      CalmOneExactly(n, s, claims[0], index, first);
      CalmEachTracks(n, first.state, rest, first.index, t, pod);
      OneKeepsKeys(n, s, claims[0], index, first);
      forall claim: ResourceClaim
        ensures ServableFor(n, first.state.world.sys.bus, claim, pod) <==> ServableFor(n, s.world.sys.bus, claim, pod)
      {
        ServableKeys(n, first.state.world.sys.bus, s.world.sys.bus, claim, pod);
      }
      assert claims == [claims[0]] + rest;
    }
  }

  // ----- When the call succeeds -----

  /** A call that succeeds leaves the pod's CDI spec in place, and otherwise just what preparing the
      claims left. */
  lemma SuccessWritesSpec(n: Node, s: State, claims: seq<ResourceClaim>, picks: seq<Pick>, r: Stored)
    requires CallFinds(n, s, claims, picks) && r == PreparingCall(n, s, claims, picks) && r.ok && claims != []
    ensures var t, pod := Last(s, PreparingEach(n, s, claims, 0)), FirstPod(claims);
            && pod != "" && pod in t.memory && pod in r.state.world.cdiSpecs
            && r.state.memory == t.memory && r.state.disk == t.disk && r.state.inUse == t.inUse
            && r.state.world.cdiSpecs == t.world.cdiSpecs + {pod} && r.state.world.sys.bus == t.world.sys.bus
            && r.state.world.deviceInfos == t.world.deviceInfos
  {
  }

  /** The devices that the pod had before the call are all known to the node. */
  ghost predicate OldDevicesKnown(n: Node, t: InfoTable, pod: string) {
    forall c, d :: InTable(t, pod, c) && d in t[pod][c] ==> d.deviceName in n.devices
  }

  lemma KnownAfterPreparing(n: Node, t: InfoTable, u: InfoTable, claims: seq<ResourceClaim>, pod: string)
    requires Gains(n, t, u, claims) && pod in u
    ensures AllAllocatable(n, u[pod]) <==> OldDevicesKnown(n, t, pod)
  {
    if AllAllocatable(n, u[pod]) {
      forall c, d | InTable(t, pod, c) && d in t[pod][c]
        ensures d.deviceName in n.devices
      {
        assert InTable(u, pod, c) && d in u[pod][c];
      }
    }
    if OldDevicesKnown(n, t, pod) {
      forall c, d | c in u[pod] && d in u[pod][c]
        ensures d.deviceName in n.devices
      {
        assert InTable(u, pod, c);
        assert !InTable(t, pod, c) ==> WellRecorded(n, pod, u[pod][c]);
      }
    }
  }

  /** The call gets as far as the pod's spec, and the node knows every device of the pod. */
  ghost predicate CallReady(n: Node, s: State, claims: seq<ResourceClaim>) {
    var pod := FirstPod(claims);
    && pod != "" && OldDevicesKnown(n, s.memory, pod)
    && (pod in s.memory || exists claim :: claim in claims && ServableFor(n, s.world.sys.bus, claim, pod))
  }

  lemma RollbackTakesTime(n: Node, s: State, claims: seq<ResourceClaim>, picks: seq<Pick>, spec: Stored, r: Stored)
    requires CallFinds(n, s, claims, picks) && r == PreparingCall(n, s, claims, picks) && claims != []
    requires SpecOf(n, s, claims) == Some(spec)
    ensures spec.state.world.sys.tick <= r.state.world.sys.tick
  {
    if !spec.ok {
      var rolledBack := UnpreparingEach(n, spec.state, UidsOf(claims), picks);
      UnpreparingEachKeeps(map[], n, spec.state, UidsOf(claims), picks, rolledBack);
    }
  }

  /** Without faults a call succeeds exactly when it has no claims, or its pod is tracked before or some
      claim of the pod can be served, and the node knows every device the pod already had. */
  lemma CalmCallExactly(n: Node, s: State, claims: seq<ResourceClaim>, picks: seq<Pick>, r: Stored)
    requires CallFinds(n, s, claims, picks) && r == PreparingCall(n, s, claims, picks)
    requires Calm(n.script, s.world.sys.tick, r.state.world.sys.tick)
    ensures r.ok <==> claims == [] || CallReady(n, s, claims)
  {
    if claims != [] {
      var t, pod, spec := Last(s, PreparingEach(n, s, claims, 0)), FirstPod(claims), SpecOf(n, s, claims);
      PreparingEachKeeps(map[], n, s, claims, 0, t);
      EachGains(n, s, claims, 0, t);
      if spec.Some? {
        RollbackTakesTime(n, s, claims, picks, spec.value, r);
        KnownAfterPreparing(n, s.memory, t.memory, claims, pod);
      }
      CalmEachTracks(n, s, claims, 0, t, pod);
    }
  }

  // ----- What a rollback leaves behind -----

  /** No claim of the call comes before this one among those tracked under the pod. */
  ghost predicate FirstOfPod(t: InfoTable, uids: seq<string>, k: nat, pod: string) {
    k < |uids| && InTable(t, pod, uids[k]) && forall j :: 0 <= j < k ==> uids[j] !in t[pod]
  }

  /** The specs of one claim: its own, and that of the pod its devices are recorded under. */
  predicate SpecOfEntry(uid: string, ds: seq<DeviceInfo>, spec: string) {
    spec == uid || (ds != [] && spec == ds[0].podUID)
  }

  /** A spec that unpreparing the claims removes. */
  ghost predicate Removed(t: InfoTable, uids: seq<string>, spec: string) {
    exists k: nat, pod :: FirstOfPod(t, uids, k, pod) && SpecOfEntry(uids[k], t[pod][uids[k]], spec)
  }

  /** A claim that is tracked is unprepared, and its pod forgotten; another is left alone. */
  lemma OneRemoves(n: Node, s: State, uid: string, pick: Pick, r: Stored)
    requires Finds(s.memory, uid, pick) && r == UnpreparingOne(n, s, uid, pick) && r.ok && OnePodPerClaim(s.memory)
    ensures if Tracks(s.memory, uid) then
              && pick.found == pick.dropped && InTable(s.memory, pick.found, uid)
              && r.state.memory == s.memory - {pick.found}
              && (forall x :: x in r.state.world.cdiSpecs <==>
                    x in s.world.cdiSpecs && !SpecOfEntry(uid, s.memory[pick.found][uid], x))
            else r.state.memory == s.memory && r.state.world == s.world
  {
    if Tracks(s.memory, uid) {
      UnpreparingUnprepares(n, s.world, uid, s.memory[pick.found][uid]);
    }
  }

  lemma FirstOfRest(t: InfoTable, u: InfoTable, uids: seq<string>, gone: string, k: nat, pod: string)
    requires uids != [] && OnePodPerClaim(t)
    requires if Tracks(t, uids[0]) then InTable(t, gone, uids[0]) && u == t - {gone} else u == t
    ensures FirstOfPod(t, uids, k + 1, pod) <==> FirstOfPod(u, uids[1..], k, pod)
  {
    if FirstOfPod(u, uids[1..], k, pod) {
      assert uids[k + 1] == uids[1..][k];
      forall j | 0 <= j < k + 1
        ensures uids[j] !in t[pod]
      {
        if j > 0 {
          assert uids[j] == uids[1..][j - 1];
        }
      }
    }
    if FirstOfPod(t, uids, k + 1, pod) {
      assert uids[0] !in t[pod];
      assert forall j :: 0 <= j < k ==> uids[1..][j] == uids[j + 1];
    }
  }

  lemma RemovedFirst(t: InfoTable, u: InfoTable, uids: seq<string>, gone: string, spec: string)
    requires uids != [] && OnePodPerClaim(t)
    requires if Tracks(t, uids[0]) then InTable(t, gone, uids[0]) && u == t - {gone} else u == t
    ensures Removed(t, uids, spec) <==>
            (Tracks(t, uids[0]) && SpecOfEntry(uids[0], t[gone][uids[0]], spec)) || Removed(u, uids[1..], spec)
  {
    if Tracks(t, uids[0]) && SpecOfEntry(uids[0], t[gone][uids[0]], spec) {
      assert FirstOfPod(t, uids, 0, gone);
    }
    if k: nat, pod :| FirstOfPod(u, uids[1..], k, pod) && SpecOfEntry(uids[1..][k], u[pod][uids[1..][k]], spec) {
      FirstOfRest(t, u, uids, gone, k, pod);
      assert FirstOfPod(t, uids, k + 1, pod) && uids[k + 1] == uids[1..][k];
    }
    if k: nat, pod :| FirstOfPod(t, uids, k, pod) && SpecOfEntry(uids[k], t[pod][uids[k]], spec) {
      if k == 0 {
        assert pod == gone;
      } else {
        FirstOfRest(t, u, uids, gone, k - 1, pod);
        assert uids[k] == uids[1..][k - 1];
      }
    }
  }

  /** When unpreparing claims succeeds, exactly the specs go that belong to the first claim of each pod:
      its own and its pod's. The others of the pod are forgotten before their turn comes. */
  lemma {:induction false} UnpreparingRemoves(n: Node, s: State, uids: seq<string>, picks: seq<Pick>, r: Stored,
                                              spec: string)
    requires FindsEach(n, s, uids, picks) && r == UnpreparingEach(n, s, uids, picks) && r.ok
    requires OnePodPerClaim(s.memory)
    ensures spec in r.state.world.cdiSpecs <==> spec in s.world.cdiSpecs && !Removed(s.memory, uids, spec)
    decreases |uids|
  {
    if uids != [] {
      var first := UnpreparingOne(n, s, uids[0], picks[0]);
      OneRemoves(n, s, uids[0], picks[0], first);
      UnpreparingRemoves(n, first.state, uids[1..], picks[1..], UnpreparingEach(n, first.state, uids[1..], picks[1..]),
                         spec);
      RemovedFirst(s.memory, first.state.memory, uids, picks[0].found, spec);
    }
  }

  /** No claim of the call is tracked, or named twice, under different pods. */
  ghost predicate SamePods(t: InfoTable, claims: seq<ResourceClaim>) {
    && OnePodPerClaim(t)
    && (forall c, p :: c in claims && Preparable(c) && InTable(t, p, c.uid) ==> c.reservedFor[0] == p)
    && (forall c, d :: c in claims && d in claims && Preparable(c) && Preparable(d) && c.uid == d.uid ==>
          c.reservedFor == d.reservedFor)
  }

  lemma GainsKeepsOnePod(n: Node, t: InfoTable, u: InfoTable, claims: seq<ResourceClaim>)
    requires Gains(n, t, u, claims) && SamePods(t, claims)
    ensures OnePodPerClaim(u)
  {
    forall p, q, c | p in u && q in u && c in u[p] && c in u[q]
      ensures p == q
    {
      assert InTable(u, p, c) && InTable(u, q, c);
      assert InTable(t, p, c) || Among(claims, p, c);
      assert InTable(t, q, c) || Among(claims, q, c);
    }
  }

  /** The call prepared its claims, could not write the pod's spec, and unprepared them with success. */
  ghost predicate RolledBackCall(n: Node, s: State, claims: seq<ResourceClaim>, picks: seq<Pick>, t: State,
                                 spec: Stored) {
    && claims != [] && t == Last(s, PreparingEach(n, s, claims, 0)) && SpecOf(n, s, claims) == Some(spec) && !spec.ok
    && FindsEach(n, spec.state, UidsOf(claims), picks) && UnpreparingEach(n, spec.state, UidsOf(claims), picks).ok
  }

  /** Then the call fails, memory tracks none of its claims, and of the specs exactly those are gone that
      belong to the first claim of each pod. */
  lemma RollbackExactly(n: Node, s: State, claims: seq<ResourceClaim>, picks: seq<Pick>, t: State, spec: Stored,
                        r: Stored)
    requires SamePods(s.memory, claims) && RolledBackCall(n, s, claims, picks, t, spec)
    requires r == PreparingCall(n, s, claims, picks)
    ensures !r.ok && forall uid :: uid in UidsOf(claims) ==> !Tracks(r.state.memory, uid)
    ensures forall x :: x in r.state.world.cdiSpecs <==>
              x in spec.state.world.cdiSpecs && !Removed(t.memory, UidsOf(claims), x)
    ensures t.world.cdiSpecs <= spec.state.world.cdiSpecs <= t.world.cdiSpecs + {FirstPod(claims)}
  {
    var uids := UidsOf(claims);
    var rolledBack := UnpreparingEach(n, spec.state, uids, picks);
    EachGains(n, s, claims, 0, t);
    GainsKeepsOnePod(n, s.memory, t.memory, claims);
    UnpreparedIsForgotten(n, spec.state, uids, picks, rolledBack);
    forall x
      ensures x in rolledBack.state.world.cdiSpecs <==>
              x in spec.state.world.cdiSpecs && !Removed(t.memory, uids, x)
    {
      UnpreparingRemoves(n, spec.state, uids, picks, rolledBack, x);
    }
  }

  /** Entries are recorded under their pods, as every preparation stores them. */
  ghost predicate PodsRecorded(t: InfoTable) {
    forall p, c :: InTable(t, p, c) ==> t[p][c] != [] && t[p][c][0].podUID == p
  }

  lemma GainsKeepsPods(n: Node, t: InfoTable, u: InfoTable, claims: seq<ResourceClaim>)
    requires Gains(n, t, u, claims) && PodsRecorded(t)
    ensures PodsRecorded(u)
  {
    forall p, c | InTable(u, p, c)
      ensures u[p][c] != [] && u[p][c][0].podUID == p
    {
      if !InTable(t, p, c) {
        assert WellRecorded(n, p, u[p][c]);
      }
    }
  }

  lemma {:induction false} SomeFirstOfPod(t: InfoTable, uids: seq<string>, k: nat, pod: string) returns (j: nat)
    requires k < |uids| && InTable(t, pod, uids[k])
    ensures j <= k && FirstOfPod(t, uids, j, pod)
    decreases k
  {
    if i :| 0 <= i < k && uids[i] in t[pod] {
      j := SomeFirstOfPod(t, uids, i, pod);
    } else {
      j := k;
    }
  }

  /** The pod's spec is gone whenever a claim of the call was tracked under the pod. */
  lemma RollbackRemovesPodSpec(n: Node, s: State, claims: seq<ResourceClaim>, picks: seq<Pick>, t: State,
                               spec: Stored, r: Stored, k: nat, pod: string)
    requires SamePods(s.memory, claims) && PodsRecorded(s.memory) && RolledBackCall(n, s, claims, picks, t, spec)
    requires r == PreparingCall(n, s, claims, picks)
    requires k < |claims| && InTable(t.memory, pod, claims[k].uid)
    ensures pod !in r.state.world.cdiSpecs
  {
    var uids := UidsOf(claims);
    RollbackExactly(n, s, claims, picks, t, spec, r);
    EachGains(n, s, claims, 0, t);
    GainsKeepsPods(n, s.memory, t.memory, claims);
    var j := SomeFirstOfPod(t.memory, uids, k, pod);
    assert Removed(t.memory, uids, pod);
  }

  /** A claim's own spec is removed exactly when the claim is the first of its pod. */
  lemma OwnSpecRemoved(t: InfoTable, uids: seq<string>, k: nat, pod: string)
    requires OnePodPerClaim(t) && PodsRecorded(t) && k < |uids| && InTable(t, pod, uids[k]) && uids[k] !in t
    requires forall j :: 0 <= j < k ==> uids[j] != uids[k]
    ensures Removed(t, uids, uids[k]) <==> FirstOfPod(t, uids, k, pod)
  {
    if FirstOfPod(t, uids, k, pod) {
      assert SpecOfEntry(uids[k], t[pod][uids[k]], uids[k]);
    }
    if i: nat, p :| FirstOfPod(t, uids, i, p) && SpecOfEntry(uids[i], t[p][uids[i]], uids[k]) {
      assert uids[i] == uids[k] && p == pod && i >= k;
    }
  }

  /** A tracked claim's own spec survives the rollback exactly when it was there and another claim of
      the call comes first in its pod. */
  lemma SpecSurvivesExactly(n: Node, s: State, claims: seq<ResourceClaim>, picks: seq<Pick>, t: State, spec: Stored,
                            r: Stored, k: nat, pod: string)
    requires SamePods(s.memory, claims) && PodsRecorded(s.memory) && RolledBackCall(n, s, claims, picks, t, spec)
    requires r == PreparingCall(n, s, claims, picks)
    requires k < |claims| && InTable(t.memory, pod, claims[k].uid) && claims[k].uid !in t.memory
    requires forall j :: 0 <= j < k ==> claims[j].uid != claims[k].uid
    ensures claims[k].uid in r.state.world.cdiSpecs <==>
            claims[k].uid in spec.state.world.cdiSpecs && exists j :: 0 <= j < k && claims[j].uid in t.memory[pod]
  {
    var uids := UidsOf(claims);
    RollbackExactly(n, s, claims, picks, t, spec, r);
    EachGains(n, s, claims, 0, t);
    GainsKeepsPods(n, s.memory, t.memory, claims);
    GainsKeepsOnePod(n, s.memory, t.memory, claims);
    OwnSpecRemoved(t.memory, uids, k, pod);
    assert forall j :: 0 <= j < k ==> uids[j] == claims[j].uid;
  }

  // ----- A pod with two claims -----

  function ClaimFor(uid: string): ResourceClaim {
    ResourceClaim(uid, uid, "ns", ["pod"], Some(Allocation([], [])), [])
  }

  /** Preparing claims that are tracked touches nothing but the allocation. */
  lemma TwoKnown(n: Node, s: State, one: ResourceClaim, two: ResourceClaim, t: State)
    requires Preparable(one) && Preparable(two) && Known(s.memory, one) && Known(s.memory, two)
    requires t == Last(s, PreparingEach(n, s, [one, two], 0))
    ensures t.world == s.world && t.memory == s.memory && t.disk == s.disk
  {
    var first := PreparingOne(n, s, one, 0);
    assert [one, two][1..] == [two] && [two][1..] == [];
    var second := PreparingOne(n, first.state, two, first.index);
    assert PreparingEach(n, first.state, [two], first.index) == [second] + [];
    assert PreparingEach(n, s, [one, two], 0) == [first] + [second];
  }

  /** Without faults a claim's driver, files and specs are undone, and nothing else. */
  lemma CalmUnprepare(n: Node, w: World, uid: string, ds: seq<DeviceInfo>, done: Done)
    requires ds != [] && Restorable(w.sys.bus, ds) && (forall k :: !n.script(k).error)
    requires done == Unpreparing(n, w, uid, ds)
    ensures done.ok && done.world.cdiSpecs == w.cdiSpecs - {uid} - {ds[0].podUID}
    ensures SameOutside(w.sys.bus, done.world.sys.bus, Rebound(ds))
  {
    UnpreparingUnprepares(n, w, uid, ds);
  }

  lemma FirstOfTwo(w: World, ds: seq<DeviceInfo>)
    requires w == TwoClaims().world && ds == [Moved("one", "a")]
    ensures Restorable(w.sys.bus, ds) && w.cdiSpecs - {"one"} - {ds[0].podUID} == {"two"}
    ensures forall bus :: SameOutside(w.sys.bus, bus, Rebound(ds)) ==> DriverOf(bus, "b") == "vfio-pci"
  {
    assert Rebound(ds) == {"a"};
  }

  lemma FirstOfTwoUnprepared(n: Node, s: State, r: Stored)
    requires s.world == TwoClaims().world && s.memory == TwoClaims().memory && forall k :: !n.script(k).error
    requires Finds(s.memory, "one", Pick("pod", "pod")) && r == UnpreparingOne(n, s, "one", Pick("pod", "pod"))
    ensures r.ok && r.state.memory == map[] && r.state.disk == map[]
    ensures r.state.world.cdiSpecs == {"two"} && DriverOf(r.state.world.sys.bus, "b") == "vfio-pci"
  {
    var ds := s.memory["pod"]["one"];
    assert "one" in s.memory["pod"] && ds == [Moved("one", "a")];
    FirstOfTwo(s.world, ds);
    CalmUnprepare(n, s.world, "one", ds, Unpreparing(n, s.world, "one", ds));
  }

  /** The node has lost the devices of a pod with two prepared claims. The call cannot write the pod's
      spec and rolls both claims back, with success and without any fault: the second claim's spec and
      driver stay, and nothing tracks it any more. */
  lemma RollbackStrandsSibling(n: Node, s: State, claims: seq<ResourceClaim>, picks: seq<Pick>, r: Stored)
    requires n.devices == map[] && forall k :: !n.script(k).error
    requires s == TwoClaims() && claims == [ClaimFor("one"), ClaimFor("two")]
    requires picks == [Pick("pod", "pod"), Pick("", "")]
    ensures CallFinds(n, s, claims, picks)
    ensures r == PreparingCall(n, s, claims, picks) ==>
              && !r.ok && r.state.memory == map[] && r.state.disk == map[]
              && r.state.world.cdiSpecs == {"two"} && DriverOf(r.state.world.sys.bus, "b") == "vfio-pci"
  {
    var t := Last(s, PreparingEach(n, s, claims, 0));
    TwoKnown(n, s, claims[0], claims[1], t);
    var ds := t.memory["pod"]["one"];
    assert ds[0] in ds && !AllAllocatable(n, t.memory["pod"]);
    assert FirstPod(claims) == "pod" && SpecOf(n, s, claims) == Some(Stored(t, false));
    assert UidsOf(claims) == ["one", "two"];
    var first := UnpreparingOne(n, t, "one", picks[0]);
    FirstOfTwoUnprepared(n, t, first);
    assert UidsOf(claims)[1..] == ["two"] && ["two"][1..] == [] && picks[1..] == [Pick("", "")];
    var second := UnpreparingOne(n, first.state, "two", Pick("", ""));
    assert second.ok && second.state.world == first.state.world && second.state.memory == map[];
    assert FindsEach(n, second.state, [], picks[1..][1..]);
    assert FindsEach(n, first.state, ["two"], picks[1..]);
    assert UnpreparingEach(n, first.state, ["two"], picks[1..]).state == second.state;
  }

  // ----- What is left alone -----

  /** A claim that is not reserved for exactly one pod or not allocated is refused, and one that is
      tracked under its pod is answered from memory; neither touches the node, memory or the file. */
  lemma AnsweredFromMemory(n: Node, s: State, claim: ResourceClaim, index: nat, r: Claimed)
    requires r == PreparingOne(n, s, claim, index)
    ensures |claim.reservedFor| != 1 || claim.allocation.None? ==> r.devices.None?
    ensures |claim.reservedFor| == 1 && claim.allocation.Some? && InTable(s.memory, claim.reservedFor[0], claim.uid) ==>
              r.devices == Some(s.memory[claim.reservedFor[0]][claim.uid])
    ensures |claim.reservedFor| != 1 || claim.allocation.None? || InTable(s.memory, claim.reservedFor[0], claim.uid) ==>
              && r.index == index && r.state.world == s.world
              && r.state.memory == s.memory && r.state.disk == s.disk
  {
  }

  /** A call whose pod is unknown or not tracked fails and leaves the claims as they were prepared. */
  lemma CallWithoutPod(n: Node, s: State, claims: seq<ResourceClaim>, picks: seq<Pick>, t: State, r: Stored)
    requires CallFinds(n, s, claims, picks) && r == PreparingCall(n, s, claims, picks) && claims != []
    requires t == Last(s, PreparingEach(n, s, claims, 0)) && (FirstPod(claims) == "" || FirstPod(claims) !in t.memory)
    ensures r == Stored(t, false)
  {
  }

  /** How unpreparing one claim ends: an unknown claim is a success that touches nothing, and a tracked one
      succeeds exactly when everything is undone and the file written. Its pod is forgotten in memory once
      everything is undone, in the file only on success. */
  lemma UnprepareExactly(n: Node, s: State, uid: string, pick: Pick, r: Stored)
    requires Finds(s.memory, uid, pick) && r == UnpreparingOne(n, s, uid, pick)
    ensures !Tracks(s.memory, uid) ==>
              r.ok && r.state.world == s.world && r.state.memory == s.memory && r.state.disk == s.disk
    ensures Tracks(s.memory, uid) ==>
              var done := Unpreparing(n, s.world, uid, s.memory[pick.found][uid]);
              && (r.ok <==> done.ok && !n.script(done.world.sys.tick).error)
              && r.state.memory == (if done.ok then s.memory - {pick.dropped} else s.memory)
              && r.state.disk == (if r.ok then r.state.memory else s.disk)
              && r.state.world.sys.bus == done.world.sys.bus
  {
  }

  // ----- What the kubelet is told -----

  /** Position `k` is the last of the claim. */
  ghost predicate LastOf(uids: seq<string>, uid: string, k: int) {
    0 <= k < |uids| && uids[k] == uid && forall j :: k < j < |uids| ==> uids[j] != uid
  }

  lemma LastOfFront(uids: seq<string>, uid: string, k: int)
    requires LastOf(uids, uid, k) && k < |uids| - 1
    ensures uids[|uids| - 1] != uid && LastOf(uids[..|uids| - 1], uid, k)
  {
  }

  /** Every claim of a call is answered, with how its last unprepare ended. */
  lemma {:induction false} ToldGoneIsLast(uids: seq<string>, oks: seq<bool>, uid: string, k: int)
    requires |oks| == |uids| && LastOf(uids, uid, k)
    ensures uid in ToldGone(uids, oks) && ToldGone(uids, oks)[uid] == oks[k]
    decreases |uids|
  {
    if k < |uids| - 1 {
      LastOfFront(uids, uid, k);
      ToldGoneIsLast(uids[..|uids| - 1], oks[..|uids| - 1], uid, k);
    }
  }

  /** And with how its last preparation ended. */
  lemma {:induction false} ToldIsLast(claims: seq<ResourceClaim>, cs: seq<Claimed>, uid: string, k: int)
    requires |cs| == |claims| && LastOf(UidsOf(claims), uid, k)
    ensures uid in Told(claims, cs) && Told(claims, cs)[uid] == cs[k].devices
    decreases |claims|
  {
    if k < |claims| - 1 {
      LastOfFront(UidsOf(claims), uid, k);
      assert UidsOf(claims)[..|claims| - 1] == UidsOf(claims[..|claims| - 1]);
      ToldIsLast(claims[..|claims| - 1], cs[..|claims| - 1], uid, k);
    }
  }

  /** Restarting rebuilds memory from the file, or changes nothing. */
  lemma RestartRebuilds(n: Node, s: State, r: Stored)
    requires r == Restarting(n, s)
    ensures r.ok <==> !n.script(s.world.sys.tick).error
    ensures r.state.memory == (if r.ok then s.disk else s.memory) && r.state.disk == s.disk
    ensures r.state.world.sys.bus == s.world.sys.bus && r.state.world.cdiSpecs == s.world.cdiSpecs
  {
  }
}
