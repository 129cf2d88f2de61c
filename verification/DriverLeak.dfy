/** No driver leak over whole runs: whatever the hooks, the faults and the restarts, every
    device that is off the driver it started on is held by a tracked claim that records it. */
module DriverLeak {
  import opened AllOrNothing
  import opened Attributes
  import opened Environment
  import opened HostDriver
  import opened Hooks
  import opened PodManager
  import opened Preparation

  /** The driver every device had before any claim, none of them unbound. */
  type Baseline = m: map<string, string> | "" !in m.Values witness map[]

  /** The entry records the baseline driver of its device. */
  predicate Records(b: Baseline, info: DeviceInfo) {
    Rebinds(info) ==> info.pciAddress in b && info.originalDriver == b[info.pciAddress]
  }

  ghost predicate RecordsAll(b: Baseline, ds: seq<DeviceInfo>) { forall d :: d in ds ==> Records(b, d) }

  ghost predicate RecordsBaseline(b: Baseline, t: InfoTable) {
    forall p, c :: p in t && c in t[p] ==> RecordsAll(b, t[p][c])
  }

  /** A tracked claim holds an address. */
  ghost predicate Holds(t: InfoTable, pod: string, claim: string, address: string) {
    pod in t && claim in t[pod] && address in Rebound(t[pod][claim])
  }

  ghost predicate OneClaimPerPod(t: InfoTable) { forall p, c, d :: p in t && c in t[p] && d in t[p] ==> c == d }

  ghost predicate OnePodPerClaim(t: InfoTable) {
    forall p, q, c :: p in t && q in t && c in t[p] && c in t[q] ==> p == q
  }

  predicate OffBaseline(b: Baseline, bus: Bus, p: string) { p in b && DriverOf(bus, p) != b[p] }

  /** Every device off its baseline driver is held, by the claim it is allocated to. */
  ghost predicate Accounted(b: Baseline, bus: Bus, inUse: Allocated, t: InfoTable) {
    forall p :: OffBaseline(b, bus, p) ==> p in inUse && Holds(t, inUse[p].0, inUse[p].1, p)
  }

  /** One table accounts for the drivers, and knows the way back. */
  ghost predicate Accounts(b: Baseline, bus: Bus, inUse: Allocated, t: InfoTable) {
    RecordsBaseline(b, t) && OneClaimPerPod(t) && OnePodPerClaim(t) && Accounted(b, bus, inUse, t)
  }

  /** No driver leak: memory and the checkpoint file both account for the drivers. */
  ghost predicate NoLeak(b: Baseline, s: State) {
    && s.world.sys.bus.Keys == b.Keys
    && Accounts(b, s.world.sys.bus, s.inUse, s.memory) && Accounts(b, s.world.sys.bus, s.inUse, s.disk)
  }

  /** What the scheduler and kubelet guarantee for a claim that is to be prepared: its
      addresses are distinct and not in use by another claim, its pod has no other claim,
      and it is not still tracked under another pod. */
  ghost predicate Exclusive(n: Node, s: State, claim: ResourceClaim) {
    Preparable(claim) ==>
      var pod, results := claim.reservedFor[0], claim.allocation.value.results;
      && Distinct(n.devices, results)
      && (forall p :: p in ClaimAddresses(n.devices, results) && p in s.inUse ==> s.inUse[p] == (pod, claim.uid))
      && (forall q, c :: q in s.memory && c in s.memory[q] ==> (q == pod <==> c == claim.uid))
  }

  // ----- How each change keeps the account -----

  /** Devices that only moved towards their baseline stay accounted for. */
  ghost predicate Towards(b: Baseline, before: Bus, after: Bus) {
    after.Keys == before.Keys && forall p :: OffBaseline(b, after, p) ==> OffBaseline(b, before, p)
  }

  lemma TowardsAccounts(b: Baseline, before: Bus, after: Bus, inUse: Allocated, t: InfoTable)
    requires Accounts(b, before, inUse, t) && Towards(b, before, after)
    ensures Accounts(b, after, inUse, t)
  {
  }

  /** A preparation that was undone moved nothing away from its baseline. */
  lemma UndoneIsTowards(b: Baseline, before: Bus, after: Bus, touched: set<string>)
    requires before.Keys == b.Keys && BackExcept(before, after, None) && SameOutside(before, after, touched)
    ensures Towards(b, before, after)
  {
  }

  /** Restoring tracked devices moves towards the baseline, and all the way if all are back. */
  lemma RestoringIsTowards(b: Baseline, before: Bus, after: Bus, ds: seq<DeviceInfo>)
    requires RecordsAll(b, ds) && SameOutside(before, after, Rebound(ds)) && NoneLost(before, after, ds)
    ensures Towards(b, before, after)
    ensures AllRestored(after, ds) ==> forall p :: p in Rebound(ds) ==> !OffBaseline(b, after, p)
  {
    forall d | d in ds && Rebinds(d)
      ensures HasOriginal(d) && d.pciAddress in b && d.originalDriver == b[d.pciAddress]
    {
      assert Records(b, d) && b[d.pciAddress] in b.Values;
    }
  }

  lemma RecordsAgree(b: Baseline, ds: seq<DeviceInfo>)
    requires RecordsAll(b, ds)
    ensures Agree(ds)
  {
    forall d, e | d in ds && e in ds
      ensures AgreeOn(d, e)
    {
      assert Records(b, d) && Records(b, e);
    }
  }

  /** Granting an exclusive claim its addresses changes no account. */
  lemma GrantAccounts(b: Baseline, n: Node, s: State, t: InfoTable, claim: ResourceClaim)
    requires Accounts(b, s.world.sys.bus, s.inUse, t) && Exclusive(n, s, claim)
    ensures Accounts(b, s.world.sys.bus, Grant(n.devices, s.inUse, claim), t)
  {
  }

  /** The addresses of an exclusive claim that is not tracked are on their baseline. */
  lemma ExclusiveMeansBaseline(b: Baseline, n: Node, s: State, claim: ResourceClaim, p: string)
    requires Accounts(b, s.world.sys.bus, s.inUse, s.memory) && Exclusive(n, s, claim) && Preparable(claim) &&
             !Known(s.memory, claim)
    requires p in ClaimAddresses(n.devices, claim.allocation.value.results)
    ensures !OffBaseline(b, s.world.sys.bus, p)
  {
  }

  lemma TrackedEntry<V>(t: map<string, map<string, V>>, pod: string, claim: string, v: V, q: string, c: string)
    requires var u := WithClaim(t, pod, claim, v); q in u && c in u[q]
    ensures var u := WithClaim(t, pod, claim, v);
            if q == pod && c == claim then u[q][c] == v else q in t && c in t[q] && u[q][c] == t[q][c]
  {
  }

  /** Tracking one more claim: the shape of the table. */
  lemma TrackingKeepsShape(b: Baseline, t: InfoTable, pod: string, claim: string, ds: seq<DeviceInfo>)
    requires RecordsBaseline(b, t) && RecordsAll(b, ds) && OneClaimPerPod(t) && OnePodPerClaim(t)
    requires forall q, c :: q in t && c in t[q] ==> (q == pod <==> c == claim)
    ensures var u := WithClaim(t, pod, claim, ds); RecordsBaseline(b, u) && OneClaimPerPod(u) && OnePodPerClaim(u)
  {
    var u := WithClaim(t, pod, claim, ds);
    forall p, c | p in u && c in u[p]
      ensures RecordsAll(b, u[p][c]) && (p == pod <==> c == claim) && (p != pod ==> p in t && c in t[p])
    {
      TrackedEntry(t, pod, claim, ds, p, c);
    }
  }

  /** Tracking one more claim forgets none. */
  lemma TrackingKeepsAccount(b: Baseline, bus: Bus, inUse: Allocated, t: InfoTable, pod: string, claim: string,
                             ds: seq<DeviceInfo>)
    requires Accounted(b, bus, inUse, t) && !(pod in t && claim in t[pod])
    ensures Accounted(b, bus, inUse, WithClaim(t, pod, claim, ds))
  {
    var u := WithClaim(t, pod, claim, ds);
    forall p | OffBaseline(b, bus, p)
      ensures p in inUse && Holds(u, inUse[p].0, inUse[p].1, p)
    {
      assert Holds(t, inUse[p].0, inUse[p].1, p);
    }
  }

  /** A claim prepared from the baseline records it. */
  lemma PreparedFromBaseline(b: Baseline, n: Node, s: State, claim: ResourceClaim, bus: Bus, ds: seq<DeviceInfo>)
    requires s.world.sys.bus.Keys == b.Keys && Accounts(b, s.world.sys.bus, s.inUse, s.memory)
    requires Exclusive(n, s, claim) && Preparable(claim) && !Known(s.memory, claim)
    requires Progress(n.devices, s.world.sys.bus, bus, ds, claim.allocation.value.results)
    ensures RecordsAll(b, ds)
    ensures forall p :: p in Rebound(ds) ==> !OffBaseline(b, s.world.sys.bus, p)
  {
    forall d | d in ds && Rebinds(d)
      ensures Records(b, d) && !OffBaseline(b, s.world.sys.bus, d.pciAddress)
    {
      assert d.pciAddress in Rebound(ds) && OnRecord(s.world.sys.bus, bus, d);
      ExclusiveMeansBaseline(b, n, s, claim, d.pciAddress);
    }
  }

  /** A stored claim accounts for every device it moved. */
  lemma StoredAccounts(b: Baseline, n: Node, s: State, claim: ResourceClaim, bus: Bus, ds: seq<DeviceInfo>)
    requires s.world.sys.bus.Keys == b.Keys && Accounts(b, s.world.sys.bus, s.inUse, s.memory)
    requires Exclusive(n, s, claim) && Preparable(claim) && !Known(s.memory, claim)
    requires Progress(n.devices, s.world.sys.bus, bus, ds, claim.allocation.value.results)
    ensures Accounts(b, bus, Grant(n.devices, s.inUse, claim), WithClaim(s.memory, claim.reservedFor[0], claim.uid, ds))
  {
    var pod, granted := claim.reservedFor[0], Grant(n.devices, s.inUse, claim);
    var t := WithClaim(s.memory, pod, claim.uid, ds);
    PreparedFromBaseline(b, n, s, claim, bus, ds);
    GrantAccounts(b, n, s, s.memory, claim);
    TrackingKeepsShape(b, s.memory, pod, claim.uid, ds);
    TrackingKeepsAccount(b, s.world.sys.bus, granted, s.memory, pod, claim.uid, ds);
    forall p | OffBaseline(b, bus, p)
      ensures p in granted && Holds(t, granted[p].0, granted[p].1, p)
    {
      if p !in Rebound(ds) {
        assert OffBaseline(b, s.world.sys.bus, p);
      }
    }
  }

  /** A claim whose entry stays in memory after its devices were restored. */
  lemma StaleAccounts(b: Baseline, n: Node, s: State, claim: ResourceClaim, bus: Bus, after: Bus, ds: seq<DeviceInfo>)
    requires s.world.sys.bus.Keys == b.Keys && Accounts(b, s.world.sys.bus, s.inUse, s.memory) &&
             Accounts(b, s.world.sys.bus, s.inUse, s.disk)
    requires Exclusive(n, s, claim) && Preparable(claim) && !Known(s.memory, claim)
    requires Progress(n.devices, s.world.sys.bus, bus, ds, claim.allocation.value.results)
    requires SameOutside(bus, after, Rebound(ds)) && AllRestored(after, ds)
    ensures var granted := Grant(n.devices, s.inUse, claim);
            Accounts(b, after, granted, WithClaim(s.memory, claim.reservedFor[0], claim.uid, ds)) &&
              Accounts(b, after, granted, s.disk)
  {
    var pod, granted := claim.reservedFor[0], Grant(n.devices, s.inUse, claim);
    PreparedFromBaseline(b, n, s, claim, bus, ds);
    forall p | p in Rebound(ds)
      ensures !OffBaseline(b, after, p)
    {
      var d :| d in ds && Rebinds(d) && d.pciAddress == p;
      assert Records(b, d) && b[p] in b.Values;
      assert HasOriginal(d) && OnOriginal(after, d);
    }
    assert Towards(b, s.world.sys.bus, after);
    GrantAccounts(b, n, s, s.memory, claim);
    GrantAccounts(b, n, s, s.disk, claim);
    TowardsAccounts(b, s.world.sys.bus, after, granted, s.memory);
    TowardsAccounts(b, s.world.sys.bus, after, granted, s.disk);
    TrackingKeepsShape(b, s.memory, pod, claim.uid, ds);
    TrackingKeepsAccount(b, after, granted, s.memory, pod, claim.uid, ds);
  }

  /** Forgetting a claim whose devices are all back, and the rest of its pod with it. */
  lemma ForgottenAccounts(b: Baseline, bus: Bus, inUse: Allocated, t: InfoTable, pod: string, claim: string)
    requires Accounts(b, bus, inUse, t) && pod in t && claim in t[pod]
    requires forall p :: p in Rebound(t[pod][claim]) ==> !OffBaseline(b, bus, p)
    ensures Accounts(b, bus, inUse, t - {pod}) && Accounts(b, bus, Release(inUse, claim), t - {pod})
  {
    forall p | OffBaseline(b, bus, p)
      ensures p in inUse && inUse[p].0 != pod && inUse[p].1 != claim && Holds(t - {pod}, inUse[p].0, inUse[p].1, p)
    {
      assert Holds(t, inUse[p].0, inUse[p].1, p) && !Holds(t, pod, claim, p);
    }
  }

  /** A claim that is not tracked holds nothing. */
  lemma UntrackedAccounts(b: Baseline, bus: Bus, inUse: Allocated, memory: InfoTable, t: InfoTable, claim: string)
    requires Accounts(b, bus, inUse, memory) && Accounts(b, bus, inUse, t) && !Tracks(memory, claim)
    ensures Accounts(b, bus, Release(inUse, claim), t)
  {
    forall p | OffBaseline(b, bus, p)
      ensures inUse[p].1 != claim
    {
      assert Holds(memory, inUse[p].0, inUse[p].1, p);
    }
  }

  // ----- Every hook keeps the account -----

  /** Rollbacks restored what they had to, and failed binds left their device alone. */
  ghost predicate Clean(w: World, v: World) {
    v.tally.failedRollbacks == w.tally.failedRollbacks && v.tally.dirtyBinds == w.tally.dirtyBinds
  }

  lemma LaterTransitive(u: World, v: World, w: World)
    requires Later(u, v) && Later(v, w)
    ensures Later(u, w) && (Clean(u, w) ==> Clean(u, v) && Clean(v, w))
  {
  }

  lemma PreparingOneLater(n: Node, s: State, claim: ResourceClaim, index: nat, r: Claimed)
    requires r == PreparingOne(n, s, claim, index)
    ensures Later(s.world, r.state.world)
  {
    if Preparable(claim) && !Known(s.memory, claim) {
      var prep := PreparingClaim(n, s.world, claim, index);
      PrepareIsAllOrNothing(n, s.world, claim, index);
      UnpreparingUnprepares(n, Pass(prep.world), claim.uid, prep.devices);
    }
  }

  lemma UnpreparingOneLater(n: Node, s: State, uid: string, pick: Pick, r: Stored)
    requires Finds(s.memory, uid, pick) && r == UnpreparingOne(n, s, uid, pick)
    ensures Later(s.world, r.state.world) && Clean(s.world, r.state.world)
  {
    if Tracks(s.memory, uid) {
      UnpreparingUnprepares(n, s.world, uid, s.memory[pick.found][uid]);
    }
  }

  /** The end of a preparation: stored in memory and file, or rolled back and stale in memory. */
  lemma StoringKeeps(b: Baseline, n: Node, s: State, claim: ResourceClaim, index: nat, prep: Prep, r: Stored)
    requires NoLeak(b, s) && Exclusive(n, s, claim) && Preparable(claim) && !Known(s.memory, claim)
    requires prep.ok && PreparesClaim(n, s.world, claim, index, prep)
    requires r == Storing(n, s.(world := prep.world, inUse := Grant(n.devices, s.inUse, claim)), claim, prep.devices)
    requires Clean(prep.world, r.state.world)
    ensures NoLeak(b, r.state)
  {
    var bus, ds, results := prep.world.sys.bus, prep.devices, claim.allocation.value.results;
    StoredAccounts(b, n, s, claim, bus, ds);
    if !r.ok {
      UnpreparingUnprepares(n, Pass(prep.world), claim.uid, ds);
      ProgressAgrees(n.devices, s.world.sys.bus, bus, ds, results);
      StaleAccounts(b, n, s, claim, bus, r.state.world.sys.bus, ds);
    }
  }

  lemma FailedKeeps(b: Baseline, n: Node, s: State, claim: ResourceClaim, index: nat, prep: Prep)
    requires NoLeak(b, s) && Exclusive(n, s, claim) && Preparable(claim)
    requires !prep.ok && PreparesClaim(n, s.world, claim, index, prep) && Clean(s.world, prep.world)
    ensures NoLeak(b, s.(world := prep.world, inUse := Grant(n.devices, s.inUse, claim)))
  {
    var before, after, granted := s.world.sys.bus, prep.world.sys.bus, Grant(n.devices, s.inUse, claim);
    UndoneIsTowards(b, before, after, ClaimAddresses(n.devices, claim.allocation.value.results));
    GrantAccounts(b, n, s, s.memory, claim);
    GrantAccounts(b, n, s, s.disk, claim);
    TowardsAccounts(b, before, after, granted, s.memory);
    TowardsAccounts(b, before, after, granted, s.disk);
  }

  /** Preparing an exclusive claim keeps the account. */
  lemma PreparingOneKeeps(b: Baseline, n: Node, s: State, claim: ResourceClaim, index: nat, r: Claimed)
    requires NoLeak(b, s) && Exclusive(n, s, claim) && r == PreparingOne(n, s, claim, index)
    requires Clean(s.world, r.state.world)
    ensures NoLeak(b, r.state)
  {
    if Preparable(claim) && !Known(s.memory, claim) {
      var prep := PreparingClaim(n, s.world, claim, index);
      PrepareIsAllOrNothing(n, s.world, claim, index);
      if prep.ok {
        var granted := s.(world := prep.world, inUse := Grant(n.devices, s.inUse, claim));
        StoringKeeps(b, n, s, claim, index, prep, Storing(n, granted, claim, prep.devices));
      } else {
        FailedKeeps(b, n, s, claim, index, prep);
      }
    } else {
      GrantAccounts(b, n, s, s.memory, claim);
      GrantAccounts(b, n, s, s.disk, claim);
    }
  }

  /** Unpreparing a claim keeps the account under every fault. */
  lemma UnpreparingOneKeeps(b: Baseline, n: Node, s: State, uid: string, pick: Pick, r: Stored)
    requires NoLeak(b, s) && Finds(s.memory, uid, pick) && r == UnpreparingOne(n, s, uid, pick)
    ensures NoLeak(b, r.state)
  {
    if !Tracks(s.memory, uid) {
      UntrackedAccounts(b, s.world.sys.bus, s.inUse, s.memory, s.memory, uid);
      UntrackedAccounts(b, s.world.sys.bus, s.inUse, s.memory, s.disk, uid);
    } else {
      var ds := s.memory[pick.found][uid];
      var done := Unpreparing(n, s.world, uid, ds);
      var before, after := s.world.sys.bus, done.world.sys.bus;
      assert pick.found == pick.dropped && RecordsAll(b, ds);
      RecordsAgree(b, ds);
      UnpreparingUnprepares(n, s.world, uid, ds);
      RestoringIsTowards(b, before, after, ds);
      TowardsAccounts(b, before, after, s.inUse, s.memory);
      TowardsAccounts(b, before, after, s.inUse, s.disk);
      if done.ok {
        ForgottenAccounts(b, after, s.inUse, s.memory, pick.found, uid);
      }
    }
  }

  lemma {:induction false} UnpreparingEachKeeps(b: Baseline, n: Node, s: State, uids: seq<string>, picks: seq<Pick>,
                                                r: Stored)
    requires FindsEach(n, s, uids, picks) && r == UnpreparingEach(n, s, uids, picks)
    ensures Later(s.world, r.state.world) && Clean(s.world, r.state.world)
    ensures NoLeak(b, s) ==> NoLeak(b, r.state)
    decreases |uids|
  {
    if uids != [] {
      var first := UnpreparingOne(n, s, uids[0], picks[0]);
      UnpreparingOneLater(n, s, uids[0], picks[0], first);
      if NoLeak(b, s) {
        UnpreparingOneKeeps(b, n, s, uids[0], picks[0], first);
      }
      var rest := UnpreparingEach(n, first.state, uids[1..], picks[1..]);
      UnpreparingEachKeeps(b, n, first.state, uids[1..], picks[1..], rest);
      LaterTransitive(s.world, first.state.world, rest.state.world);
    }
  }

  /** Every claim of a call is exclusive when its turn comes. */
  ghost predicate ExclusiveEach(n: Node, s: State, claims: seq<ResourceClaim>, index: nat)
    decreases |claims|
  {
    claims != [] ==>
      Exclusive(n, s, claims[0]) &&
      var first := PreparingOne(n, s, claims[0], index); ExclusiveEach(n, first.state, claims[1..], first.index)
  }

  lemma {:induction false} PreparingEachKeeps(b: Baseline, n: Node, s: State, claims: seq<ResourceClaim>, index: nat,
                                              t: State)
    requires t == Last(s, PreparingEach(n, s, claims, index))
    ensures Later(s.world, t.world)
    ensures NoLeak(b, s) && ExclusiveEach(n, s, claims, index) && Clean(s.world, t.world) ==> NoLeak(b, t)
    decreases |claims|
  {
    if claims != [] {
      var first := PreparingOne(n, s, claims[0], index);
      assert t == Last(first.state, PreparingEach(n, first.state, claims[1..], first.index));
      PreparingOneLater(n, s, claims[0], index, first);
      PreparingEachKeeps(b, n, first.state, claims[1..], first.index, t);
      LaterTransitive(s.world, first.state.world, t.world);
      if NoLeak(b, s) && ExclusiveEach(n, s, claims, index) && Clean(s.world, t.world) {
        PreparingOneKeeps(b, n, s, claims[0], index, first);
      }
    }
  }

  // ----- Whole runs -----

  ghost predicate HookExclusive(n: Node, s: State, hook: Hook) {
    hook.PrepareHook? ==> ExclusiveEach(n, s, hook.claims, 0)
  }

  lemma PreparingCallKeeps(b: Baseline, n: Node, s: State, claims: seq<ResourceClaim>, picks: seq<Pick>, r: Stored)
    requires CallFinds(n, s, claims, picks) && r == PreparingCall(n, s, claims, picks)
    ensures Later(s.world, r.state.world)
    ensures NoLeak(b, s) && ExclusiveEach(n, s, claims, 0) && Clean(s.world, r.state.world) ==> NoLeak(b, r.state)
  {
    if claims != [] {
      var t, spec := Last(s, PreparingEach(n, s, claims, 0)), SpecOf(n, s, claims);
      PreparingEachKeeps(b, n, s, claims, 0, t);
      if spec.Some? && !spec.value.ok {
        UnpreparingEachKeeps(b, n, spec.value.state, UidsOf(claims), picks,
                             UnpreparingEach(n, spec.value.state, UidsOf(claims), picks));
      }
    }
  }

  lemma HookKeeps(b: Baseline, n: Node, s: State, hook: Hook, picks: seq<Pick>, r: Stored)
    requires HookFinds(n, s, hook, picks) && r == Ran(n, s, hook, picks)
    ensures Later(s.world, r.state.world)
    ensures NoLeak(b, s) && HookExclusive(n, s, hook) && Clean(s.world, r.state.world) ==> NoLeak(b, r.state)
  {
    match hook
    case PrepareHook(claims) => PreparingCallKeeps(b, n, s, claims, picks, r);
    case UnprepareHook(uids) => UnpreparingEachKeeps(b, n, s, uids, picks, r);
    case RestartHook =>
  }

  ghost predicate HookAt(n: Node, states: seq<State>, hooks: seq<Hook>, picks: seq<seq<Pick>>, i: int) {
    0 <= i < |hooks| && i < |picks| && i + 1 < |states| &&
    HookFinds(n, states[i], hooks[i], picks[i]) && states[i + 1] == Ran(n, states[i], hooks[i], picks[i]).state
  }

  /** The states that a run of hooks goes through. */
  ghost predicate HookTrace(n: Node, states: seq<State>, hooks: seq<Hook>, picks: seq<seq<Pick>>) {
    |states| == |hooks| + 1 && |picks| == |hooks| && forall i :: 0 <= i < |hooks| ==> HookAt(n, states, hooks, picks, i)
  }

  /** Over any run of hooks with faults and restarts in between: if every claim is exclusive when
      it is prepared, and by the end no rollback has failed to restore a device and no failed
      bind has moved one, then no driver is leaked at any moment of the run. */
  lemma {:induction false} NoDriverLeak(b: Baseline, n: Node, states: seq<State>, hooks: seq<Hook>,
                                        picks: seq<seq<Pick>>, i: nat)
    requires HookTrace(n, states, hooks, picks) && NoLeak(b, states[0]) && i <= |hooks|
    requires forall k :: 0 <= k < |hooks| ==> HookExclusive(n, states[k], hooks[k])
    requires Clean(states[0].world, states[|hooks|].world)
    ensures NoLeak(b, states[i])
  {
    TimeGoesOn(b, n, states, hooks, picks, i, |hooks|);
    TimeGoesOn(b, n, states, hooks, picks, 0, i);
    if i > 0 {
      NoDriverLeak(b, n, states, hooks, picks, i - 1);
      assert HookAt(n, states, hooks, picks, i - 1);
      TimeGoesOn(b, n, states, hooks, picks, 0, i - 1);
      HookKeeps(b, n, states[i - 1], hooks[i - 1], picks[i - 1], Ran(n, states[i - 1], hooks[i - 1], picks[i - 1]));
    }
  }

  lemma {:induction false} TimeGoesOn(b: Baseline, n: Node, states: seq<State>, hooks: seq<Hook>,
                                      picks: seq<seq<Pick>>, i: nat, j: nat)
    requires HookTrace(n, states, hooks, picks) && i <= j <= |hooks|
    ensures Later(states[i].world, states[j].world)
    decreases j
  {
    if i < j {
      assert HookAt(n, states, hooks, picks, j - 1);
      TimeGoesOn(b, n, states, hooks, picks, i, j - 1);
      HookKeeps(b, n, states[j - 1], hooks[j - 1], picks[j - 1], Ran(n, states[j - 1], hooks[j - 1], picks[j - 1]));
      LaterTransitive(states[i].world, states[j - 1].world, states[j].world);
    }
  }

  // ----- Runs without faults -----

  ghost predicate LoadableBaseline(b: Baseline) { forall p :: p in b ==> Loadable(b[p]) }

  /** Without faults nothing is left behind, so the assumption on rollbacks is not needed. */
  lemma PreparingOneCalm(b: Baseline, n: Node, s: State, claim: ResourceClaim, index: nat, r: Claimed)
    requires NoLeak(b, s) && LoadableBaseline(b) && Exclusive(n, s, claim) && r == PreparingOne(n, s, claim, index)
    requires Calm(n.script, s.world.sys.tick, r.state.world.sys.tick)
    ensures Clean(s.world, r.state.world)
  {
    if Preparable(claim) && !Known(s.memory, claim) {
      var results := claim.allocation.value.results;
      forall p | p in ClaimAddresses(n.devices, results)
        ensures Loadable(DriverOf(s.world.sys.bus, p))
      {
        ExclusiveMeansBaseline(b, n, s, claim, p);
      }
      assert StartsLoadable(n.devices, s.world.sys.bus, results);
      var prep := PreparingClaim(n, s.world, claim, index);
      PrepareIsAllOrNothing(n, s.world, claim, index);
      if prep.ok {
        UnpreparingUnprepares(n, Pass(prep.world), claim.uid, prep.devices);
      }
    }
  }

  lemma {:induction false} PreparingEachCalm(b: Baseline, n: Node, s: State, claims: seq<ResourceClaim>, index: nat,
                                             t: State)
    requires NoLeak(b, s) && LoadableBaseline(b) && ExclusiveEach(n, s, claims, index)
    requires t == Last(s, PreparingEach(n, s, claims, index)) && Calm(n.script, s.world.sys.tick, t.world.sys.tick)
    ensures Clean(s.world, t.world)
    decreases |claims|
  {
    if claims != [] {
      var first := PreparingOne(n, s, claims[0], index);
      assert t == Last(first.state, PreparingEach(n, first.state, claims[1..], first.index));
      PreparingOneLater(n, s, claims[0], index, first);
      PreparingEachKeeps(b, n, first.state, claims[1..], first.index, t);
      PreparingOneCalm(b, n, s, claims[0], index, first);
      PreparingOneKeeps(b, n, s, claims[0], index, first);
      PreparingEachCalm(b, n, first.state, claims[1..], first.index, t);
    }
  }

  lemma HookCalm(b: Baseline, n: Node, s: State, hook: Hook, picks: seq<Pick>, r: Stored)
    requires NoLeak(b, s) && LoadableBaseline(b) && HookExclusive(n, s, hook)
    requires HookFinds(n, s, hook, picks) && r == Ran(n, s, hook, picks) &&
             Calm(n.script, s.world.sys.tick, r.state.world.sys.tick)
    ensures Clean(s.world, r.state.world)
  {
    if hook.UnprepareHook? {
      UnpreparingEachKeeps(b, n, s, hook.uids, picks, r);
    } else if hook.PrepareHook? && hook.claims != [] {
      var claims := hook.claims;
      var t, spec := Last(s, PreparingEach(n, s, claims, 0)), SpecOf(n, s, claims);
      if spec.Some? && !spec.value.ok {
        UnpreparingEachKeeps(b, n, spec.value.state, UidsOf(claims), picks,
                             UnpreparingEach(n, spec.value.state, UidsOf(claims), picks));
      }
      assert t.world.sys.tick <= r.state.world.sys.tick;
      PreparingEachCalm(b, n, s, claims, 0, t);
    }
  }

  /** A run without faults, from a baseline that the module check accepts, leaks no driver. */
  lemma {:induction false} CalmRunsLeakNothing(b: Baseline, n: Node, states: seq<State>, hooks: seq<Hook>,
                                               picks: seq<seq<Pick>>, i: nat)
    requires HookTrace(n, states, hooks, picks) && NoLeak(b, states[0]) && LoadableBaseline(b) && i <= |hooks|
    requires forall k :: 0 <= k < |hooks| ==> HookExclusive(n, states[k], hooks[k])
    requires Calm(n.script, states[0].world.sys.tick, states[|hooks|].world.sys.tick)
    ensures NoLeak(b, states[i]) && Clean(states[0].world, states[i].world)
  {
    if i > 0 {
      CalmRunsLeakNothing(b, n, states, hooks, picks, i - 1);
      TimeGoesOn(b, n, states, hooks, picks, 0, i - 1);
      TimeGoesOn(b, n, states, hooks, picks, i, |hooks|);
      assert HookAt(n, states, hooks, picks, i - 1);
      var r := Ran(n, states[i - 1], hooks[i - 1], picks[i - 1]);
      HookKeeps(b, n, states[i - 1], hooks[i - 1], picks[i - 1], r);
      HookCalm(b, n, states[i - 1], hooks[i - 1], picks[i - 1], r);
    }
  }

  // ----- Where runs begin and end -----

  /** A node without claims, its devices on their drivers. */
  lemma InitiallySafe(b: Baseline, s: State)
    requires s.world.sys.bus.Keys == b.Keys && forall p :: p in b ==> s.world.sys.bus[p].driver == b[p]
    requires s.memory == s.disk == map[]
    ensures NoLeak(b, s)
  {
  }

  /** When nothing is tracked any more, every device is on its baseline driver. */
  lemma NothingTrackedNothingLeaked(b: Baseline, s: State)
    requires NoLeak(b, s) && (s.memory == map[] || s.disk == map[])
    ensures forall p :: p in b ==> DriverOf(s.world.sys.bus, p) == b[p]
  {
    forall p | p in b
      ensures DriverOf(s.world.sys.bus, p) == b[p]
    {
      assert !OffBaseline(b, s.world.sys.bus, p);
    }
  }

  // ----- Pods with several claims -----

  /** A sibling claim of the pod holds a device that is off its baseline. */
  ghost predicate SiblingInUse(b: Baseline, s: State, pod: string, uid: string) {
    exists p :: OffBaseline(b, s.world.sys.bus, p) && p in s.inUse && s.inUse[p].0 == pod && s.inUse[p].1 != uid &&
      !Holds(s.memory, pod, uid, p)
  }

  /** Unpreparing one claim forgets its whole pod. With any number of claims per pod, a
      successful unprepare keeps the account exactly when no sibling claim still uses a device. */
  lemma UnprepareKeepsAccountUnlessSibling(b: Baseline, n: Node, s: State, uid: string, pick: Pick, r: Stored)
    requires RecordsBaseline(b, s.memory) && OnePodPerClaim(s.memory) &&
             Accounted(b, s.world.sys.bus, s.inUse, s.memory)
    requires Tracks(s.memory, uid) && Finds(s.memory, uid, pick) && r == UnpreparingOne(n, s, uid, pick) && r.ok
    ensures Accounted(b, r.state.world.sys.bus, r.state.inUse, r.state.memory) <==>
            !SiblingInUse(b, s, pick.dropped, uid)
  {
    var pod, ds := pick.found, s.memory[pick.found][uid];
    var before, after := s.world.sys.bus, r.state.world.sys.bus;
    RecordsAgree(b, ds);
    UnpreparingUnprepares(n, s.world, uid, ds);
    RestoringIsTowards(b, before, after, ds);
    assert forall p :: p in Rebound(ds) <==> Holds(s.memory, pod, uid, p);
    if SiblingInUse(b, s, pod, uid) {
      var p :| OffBaseline(b, before, p) && p in s.inUse && s.inUse[p].0 == pod && s.inUse[p].1 != uid &&
          !Holds(s.memory, pod, uid, p);
      assert OffBaseline(b, after, p) && !Holds(r.state.memory, pod, s.inUse[p].1, p);
    } else {
      forall p | OffBaseline(b, after, p)
        ensures p in r.state.inUse && Holds(r.state.memory, r.state.inUse[p].0, r.state.inUse[p].1, p)
      {
        assert OffBaseline(b, before, p) && Holds(s.memory, s.inUse[p].0, s.inUse[p].1, p);
        assert !Holds(s.memory, pod, uid, p);
      }
    }
  }

  /** A pod with two claims, both prepared: once one is unprepared, unpreparing the other reports
      success and leaves its device on the driver that the claim asked for. */
  lemma SiblingIsStranded(b: Baseline, n: Node, s: State, one: string, other: string, pick: Pick, later: Pick,
                          p: string, r: Stored)
    requires RecordsBaseline(b, s.memory) && OnePodPerClaim(s.memory) && one != other
    requires Tracks(s.memory, one) && Finds(s.memory, one, pick) && r == UnpreparingOne(n, s, one, pick) && r.ok
    requires Holds(s.memory, pick.found, other, p) && !Holds(s.memory, pick.found, one, p) &&
             OffBaseline(b, s.world.sys.bus, p)
    ensures !Tracks(r.state.memory, other) && !Tracks(r.state.disk, other)
    ensures var next := UnpreparingOne(n, r.state, other, later);
            next.ok && next.state.world == r.state.world && OffBaseline(b, next.state.world.sys.bus, p)
  {
    var ds := s.memory[pick.found][one];
    RecordsAgree(b, ds);
    UnpreparingUnprepares(n, s.world, one, ds);
    assert p !in Rebound(ds);
  }

  /** A device that a claim moved from ixgbevf to vfio-pci. */
  function Moved(claim: string, address: string): DeviceInfo {
    DeviceInfo("pod", claim, claim, "ns", "vf", "node", address, address, Some("vfio-pci"), "ixgbevf", "", "", "")
  }

  /** A node with one pod that has two prepared claims. */
  function TwoClaims(): State {
    var moved := PciDevice("vfio-pci", "", true, "ixgbevf");
    var table: InfoTable := map["pod" := map["one" := [Moved("one", "a")], "two" := [Moved("two", "b")]]];
    State(World(Sys(map["a" := moved, "b" := moved], 0), {}, {"one", "two", "pod"}, Tally(0, 0, 0)), table, table,
          map["a" := ("pod", "one"), "b" := ("pod", "two")])
  }

  /** Both devices started on ixgbevf. */
  predicate FromIxgbevf(b: Baseline) { b.Keys == {"a", "b"} && b["a"] == b["b"] == "ixgbevf" }

  lemma TwoClaimsAreFine(b: Baseline)
    requires FromIxgbevf(b)
    ensures var s := TwoClaims();
            && RecordsBaseline(b, s.memory) && OnePodPerClaim(s.memory) && Finds(s.memory, "one", Pick("pod", "pod"))
            && Accounted(b, s.world.sys.bus, s.inUse, s.memory) && Tracks(s.memory, "one")
            && Holds(s.memory, "pod", "two", "b") && !Holds(s.memory, "pod", "one", "b")
  {
    assert Rebound([Moved("one", "a")]) == {"a"} && Rebound([Moved("two", "b")]) == {"b"};
    assert "one" in TwoClaims().memory["pod"];
  }

  /** The device of the second claim is lost although nothing fails. */
  lemma SiblingIsStrandedExample(n: Node, b: Baseline, r: Stored)
    requires FromIxgbevf(b) && (forall k :: !n.script(k).error)
    requires Finds(TwoClaims().memory, "one", Pick("pod", "pod")) &&
             r == UnpreparingOne(n, TwoClaims(), "one", Pick("pod", "pod"))
    ensures Accounted(b, TwoClaims().world.sys.bus, TwoClaims().inUse, TwoClaims().memory)
    ensures r.ok && OffBaseline(b, r.state.world.sys.bus, "b") && !Tracks(r.state.memory, "two") &&
            !Tracks(r.state.disk, "two")
  {
    var s := TwoClaims();
    TwoClaimsAreFine(b);
    UnpreparingUnprepares(n, s.world, "one", s.memory["pod"]["one"]);
    SiblingIsStranded(b, n, s, "one", "two", Pick("pod", "pod"), Pick("", ""), "b", r);
  }
}
