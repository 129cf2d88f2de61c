/** What the hooks tell the kubelet, and what that means: prepared claims are durable, a failed
    checkpoint write leaves a stale claim, and which interface names a call gives out. */
module HookOutcomes {
  import opened AllOrNothing
  import opened Attributes
  import DriverLeak
  import opened Hooks
  import opened InterfaceNames
  import opened Naming
  import opened PodManager
  import opened Preparation
  import opened VfConfigs

  // ----- Prepared means durable -----

  /** A claim is reported as prepared exactly when it was tracked before, or its devices are
      prepared and the checkpoint is written; then memory and file have its entry. */
  lemma PreparedIsDurable(n: Node, s: State, claim: ResourceClaim, index: nat, r: Claimed)
    requires Preparable(claim) && !Known(s.memory, claim) && r == PreparingOne(n, s, claim, index)
    ensures var prep := PreparingClaim(n, s.world, claim, index);
            && (r.devices.Some? <==> prep.ok && !n.script(prep.world.sys.tick).error)
            && (r.devices.Some? ==>
                  && r.devices.value == prep.devices && r.state.world == Pass(prep.world)
                  && r.state.memory == r.state.disk == WithClaim(s.memory, claim.reservedFor[0], claim.uid,
                                                                 prep.devices))
  {
  }

  // ----- The stale entry -----

  /** After a failed preparation the claim is tracked all the same exactly when its devices were
      prepared and the checkpoint write failed. */
  lemma StaleExactly(n: Node, s: State, claim: ResourceClaim, index: nat, r: Claimed)
    requires Preparable(claim) && !Known(s.memory, claim) && r == PreparingOne(n, s, claim, index)
    ensures var prep := PreparingClaim(n, s.world, claim, index);
            r.devices.None? && Known(r.state.memory, claim) <==> prep.ok && n.script(prep.world.sys.tick).error
    ensures r.devices.None? ==> r.state.disk == s.disk
  {
  }

  /** The devices of such a claim are back on their drivers, if the rollback restored them. */
  lemma StaleIsRolledBack(n: Node, s: State, claim: ResourceClaim, index: nat, r: Claimed)
    requires Preparable(claim) && !Known(s.memory, claim) && r == PreparingOne(n, s, claim, index)
    requires r.devices.None? && Known(r.state.memory, claim) && Distinct(n.devices, claim.allocation.value.results)
    requires r.state.world.tally.failedRollbacks == s.world.tally.failedRollbacks
    ensures BackExcept(s.world.sys.bus, r.state.world.sys.bus, None)
  {
    var prep, results := PreparingClaim(n, s.world, claim, index), claim.allocation.value.results;
    StaleExactly(n, s, claim, index, r);
    PrepareIsAllOrNothing(n, s.world, claim, index);
    ProgressAgrees(n.devices, s.world.sys.bus, prep.world.sys.bus, prep.devices, results);
    UnpreparingUnprepares(n, Pass(prep.world), claim.uid, prep.devices);
    WholeRollback(n.devices, s.world.sys.bus, prep.world.sys.bus, r.state.world.sys.bus, prep.devices, results);
  }

  /** A retry of a claim that failed reports it as prepared, with nothing bound or written,
      exactly when the first attempt prepared its devices and could not write the checkpoint. */
  lemma RetryReportsStale(n: Node, s: State, claim: ResourceClaim, index: nat, again: nat, r: Claimed)
    requires Preparable(claim) && !Known(s.memory, claim) && r == PreparingOne(n, s, claim, index) && r.devices.None?
    ensures var prep, retry := PreparingClaim(n, s.world, claim, index), PreparingOne(n, r.state, claim, again);
            if prep.ok then retry.devices == Some(prep.devices) && retry.state.world == r.state.world
            else !Known(r.state.memory, claim)
  {
    StaleExactly(n, s, claim, index, r);
  }

  // ----- Unpreparing -----

  /** After a successful unprepare the file tracks the claim exactly when it did before and memory
      did not: then nothing is written. */
  lemma UnpreparedInFile(n: Node, s: State, uid: string, pick: Pick, r: Stored)
    requires Finds(s.memory, uid, pick) && r == UnpreparingOne(n, s, uid, pick) && r.ok
    ensures Tracks(r.state.disk, uid) <==>
            if Tracks(s.memory, uid) then Tracks(s.memory - {pick.dropped}, uid) else Tracks(s.disk, uid)
    ensures DriverLeak.OnePodPerClaim(s.memory) ==>
              (Tracks(r.state.disk, uid) <==> Tracks(s.disk, uid) && !Tracks(s.memory, uid))
  {
  }

  /** Some of the claims are tracked in memory. */
  ghost predicate TracksSome(t: InfoTable, uids: seq<string>) { exists uid :: uid in uids && Tracks(t, uid) }

  /** When unpreparing claims succeeds, memory tracks none of them any more. The file is memory, if
      memory tracked any of them before; otherwise nothing is written and the file may still have them. */
  lemma {:induction false} UnpreparedIsForgotten(n: Node, s: State, uids: seq<string>, picks: seq<Pick>, r: Stored)
    requires FindsEach(n, s, uids, picks) && r == UnpreparingEach(n, s, uids, picks) && r.ok
    requires DriverLeak.OnePodPerClaim(s.memory)
    ensures r.state.memory.Keys <= s.memory.Keys && forall p :: p in r.state.memory ==> r.state.memory[p] == s.memory[p]
    ensures forall uid :: uid in uids ==> !Tracks(r.state.memory, uid)
    ensures if TracksSome(s.memory, uids) then r.state.disk == r.state.memory
            else r.state.memory == s.memory && r.state.disk == s.disk
    decreases |uids|
  {
    if uids != [] {
      var first, rest := UnpreparingOne(n, s, uids[0], picks[0]), uids[1..];
      assert !Tracks(first.state.memory, uids[0]);
      UnpreparedIsForgotten(n, first.state, rest, picks[1..], UnpreparingEach(n, first.state, rest, picks[1..]));
      assert uids == [uids[0]] + rest;
      FewerTracked(s.memory, first.state.memory, rest);
    }
  }

  lemma FewerTracked(t: InfoTable, u: InfoTable, uids: seq<string>)
    requires u.Keys <= t.Keys && forall p :: p in u ==> u[p] == t[p]
    ensures TracksSome(u, uids) ==> TracksSome(t, uids)
  {
  }

  /** So a claim that was unprepared with success is still in the file exactly when the file had it
      and memory tracked none of the claims of the call. */
  lemma UnpreparedClaimInFile(n: Node, s: State, uids: seq<string>, picks: seq<Pick>, r: Stored, uid: string)
    requires FindsEach(n, s, uids, picks) && r == UnpreparingEach(n, s, uids, picks) && r.ok && uid in uids
    requires DriverLeak.OnePodPerClaim(s.memory)
    ensures Tracks(r.state.disk, uid) <==> Tracks(s.disk, uid) && !TracksSome(s.memory, uids)
  {
    UnpreparedIsForgotten(n, s, uids, picks, r);
  }

  /** How that comes about: everything is undone but the file cannot be written; the retry is
      answered with success; after a restart the claim is back, and a prepare reports it as
      prepared with nothing bound. */
  lemma ForgottenClaimReturns(n: Node, s: State, claim: ResourceClaim, pick: Pick, later: Pick, index: nat,
                              unprepared: Stored, retried: Stored, restarted: Stored, prepared: Claimed)
    requires Preparable(claim) && Known(s.memory, claim) && s.disk == s.memory && DriverLeak.OnePodPerClaim(s.memory)
    requires Finds(s.memory, claim.uid, pick) && unprepared == UnpreparingOne(n, s, claim.uid, pick) && !unprepared.ok
    requires Unpreparing(n, s.world, claim.uid, s.memory[claim.reservedFor[0]][claim.uid]).ok
    requires Finds(unprepared.state.memory, claim.uid, later)
    requires retried == UnpreparingOne(n, unprepared.state, claim.uid, later)
    requires restarted == Restarting(n, retried.state) && restarted.ok
    requires prepared == PreparingOne(n, restarted.state, claim, index)
    ensures retried.ok && retried.state.disk == s.disk && Tracks(retried.state.disk, claim.uid)
    ensures var ds := s.memory[claim.reservedFor[0]][claim.uid];
            && prepared.devices == Some(ds) && prepared.state.world == restarted.state.world
            && (Agree(ds) ==> AllRestored(prepared.state.world.sys.bus, ds))
  {
    var ds := s.memory[claim.reservedFor[0]][claim.uid];
    assert pick.found == pick.dropped == claim.reservedFor[0];
    UnpreparingUnprepares(n, s.world, claim.uid, ds);
    assert !Tracks(unprepared.state.memory, claim.uid);
  }

  // ----- Interface names of a call -----

  /** The state and the counter that claim `i` of a call finds. */
  ghost function StateAt(s: State, cs: seq<Claimed>, i: nat): State
    requires i <= |cs|
  {
    if i == 0 then s else cs[i - 1].state
  }

  ghost function IndexAt(index: nat, cs: seq<Claimed>, i: nat): nat
    requires i <= |cs|
  {
    if i == 0 then index else cs[i - 1].index
  }

  lemma {:induction false} ClaimOfCall(n: Node, s: State, claims: seq<ResourceClaim>, index: nat, i: nat)
    requires i < |claims|
    ensures var cs := PreparingEach(n, s, claims, index);
            cs[i] == PreparingOne(n, StateAt(s, cs, i), claims[i], IndexAt(index, cs, i))
    decreases |claims|
  {
    if i > 0 {
      var first := PreparingOne(n, s, claims[0], index);
      ClaimOfCall(n, first.state, claims[1..], first.index, i - 1);
    }
  }

  lemma OneEnumerates(n: Node, s: State, claim: ResourceClaim, index: nat, r: Claimed)
    requires r == PreparingOne(n, s, claim, index)
    ensures index <= r.index
    ensures Preparable(claim) && !Known(s.memory, claim) && r.devices.Some? ==>
              Enumerates(n, FoldedMap(claim.allocation.value.configs), r.devices.value, index, r.index)
  {
    if Preparable(claim) && !Known(s.memory, claim) {
      ClaimEnumerates(n, s.world, claim, index);
    }
  }

  lemma {:induction false} CounterGrows(n: Node, s: State, claims: seq<ResourceClaim>, index: nat, i: nat, j: nat)
    requires i <= j <= |claims|
    ensures var cs := PreparingEach(n, s, claims, index); IndexAt(index, cs, i) <= IndexAt(index, cs, j)
    decreases j
  {
    if i < j {
      var cs := PreparingEach(n, s, claims, index);
      CounterGrows(n, s, claims, index, i, j - 1);
      ClaimOfCall(n, s, claims, index, j - 1);
      OneEnumerates(n, StateAt(s, cs, j - 1), claims[j - 1], IndexAt(index, cs, j - 1), cs[j - 1]);
    }
  }

  /** Claim `i` was prepared by this call. */
  ghost predicate Newly(s: State, claims: seq<ResourceClaim>, cs: seq<Claimed>, i: nat) {
    && |cs| == |claims| && i < |claims| && Preparable(claims[i]) && cs[i].devices.Some?
    && !Known(StateAt(s, cs, i).memory, claims[i])
  }

  /** Device `k` of claim `i` was prepared by this call and got a generated name. */
  ghost predicate NamedByCall(n: Node, s: State, claims: seq<ResourceClaim>, cs: seq<Claimed>, i: nat, k: nat) {
    && Newly(s, claims, cs, i) && k < |cs[i].devices.value|
    && Generated(n, FoldedMap(claims[i].allocation.value.configs), cs[i].devices.value[k])
  }

  /** The generated names of one claim of a call are numbers of its own range of the counter. */
  lemma ClaimOfCallEnumerates(n: Node, s: State, claims: seq<ResourceClaim>, cs: seq<Claimed>, i: nat)
    requires cs == PreparingEach(n, s, claims, 0) && Newly(s, claims, cs, i)
    ensures Enumerates(n, FoldedMap(claims[i].allocation.value.configs), cs[i].devices.value, IndexAt(0, cs, i),
                       cs[i].index)
  {
    ClaimOfCall(n, s, claims, 0, i);
    OneEnumerates(n, StateAt(s, cs, i), claims[i], IndexAt(0, cs, i), cs[i]);
  }

  /** Two devices of one call with generated names have different names, also across claims and
      past claims that failed. */
  lemma CallNamesDiffer(n: Node, s: State, claims: seq<ResourceClaim>, cs: seq<Claimed>, i: nat, k: nat, j: nat, l: nat)
    requires cs == PreparingEach(n, s, claims, 0) && NamedByCall(n, s, claims, cs, i, k) &&
             NamedByCall(n, s, claims, cs, j, l)
    requires i < j || (i == j && k < l)
    ensures cs[i].devices.value[k].ifName != cs[j].devices.value[l].ifName
  {
    ClaimOfCallEnumerates(n, s, claims, cs, i);
    ClaimOfCallEnumerates(n, s, claims, cs, j);
    var here, there := FoldedMap(claims[i].allocation.value.configs), FoldedMap(claims[j].allocation.value.configs);
    if i == j {
      NamesDiffer(n, here, cs[i].devices.value, IndexAt(0, cs, i), cs[i].index, k, l);
    } else {
      CounterGrows(n, s, claims, 0, i + 1, j);
      var a := NumberInRange(n, here, cs[i].devices.value, IndexAt(0, cs, i), cs[i].index, k);
      var b := NumberInRange(n, there, cs[j].devices.value, IndexAt(0, cs, j), cs[j].index, l);
      AutoNamesDiffer(n.prefix, a, b);
    }
  }

  /** All names that a call generates are pairwise different. */
  ghost predicate DistinctNames(n: Node, s: State, claims: seq<ResourceClaim>, cs: seq<Claimed>) {
    forall i: nat, k: nat, j: nat, l: nat ::
      NamedByCall(n, s, claims, cs, i, k) && NamedByCall(n, s, claims, cs, j, l) && (i, k) != (j, l) ==>
        cs[i].devices.value[k].ifName != cs[j].devices.value[l].ifName
  }

  lemma CallNamesAreDistinct(n: Node, s: State, claims: seq<ResourceClaim>)
    ensures DistinctNames(n, s, claims, PreparingEach(n, s, claims, 0))
  {
    var cs := PreparingEach(n, s, claims, 0);
    forall i: nat, k: nat, j: nat, l: nat | NamedByCall(n, s, claims, cs, i, k) &&
      NamedByCall(n, s, claims, cs, j, l) && (i, k) != (j, l)
      ensures cs[i].devices.value[k].ifName != cs[j].devices.value[l].ifName
    {
      if i < j || (i == j && k < l) {
        CallNamesDiffer(n, s, claims, cs, i, k, j, l);
      } else {
        CallNamesDiffer(n, s, claims, cs, j, l, i, k);
      }
    }
  }

  // ----- Interface names of two calls -----

  /** A call: the state it finds, its claims, and how each of them ended. */
  datatype Call = Call(start: State, claims: seq<ResourceClaim>, ends: seq<Claimed>)

  ghost predicate Made(n: Node, c: Call) { c.ends == PreparingEach(n, c.start, c.claims, 0) }

  ghost predicate Named(n: Node, c: Call, i: nat, k: nat) { NamedByCall(n, c.start, c.claims, c.ends, i, k) }

  function NameAt(c: Call, i: nat, k: nat): string
    requires i < |c.ends| && c.ends[i].devices.Some? && k < |c.ends[i].devices.value|
  {
    c.ends[i].devices.value[k].ifName
  }

  /** Devices that the two calls prepared have a generated name in common. */
  ghost predicate ShareName(n: Node, c: Call, d: Call) {
    exists i: nat, k: nat, j: nat, l: nat :: Named(n, c, i, k) && Named(n, d, j, l) &&
      NameAt(c, i, k) == NameAt(d, j, l)
  }

  /** A prepared claim of each call, with a number that both took from their counters. */
  ghost predicate Overlap(c: Call, d: Call, i: nat, j: nat) {
    && Newly(c.start, c.claims, c.ends, i) && Newly(d.start, d.claims, d.ends, j)
    && IndexAt(0, c.ends, i) < c.ends[i].index && IndexAt(0, d.ends, j) < d.ends[j].index
    && IndexAt(0, c.ends, i) < d.ends[j].index && IndexAt(0, d.ends, j) < c.ends[i].index
  }

  /** The device that got a number of its claim's range. */
  lemma NamedWith(n: Node, c: Call, i: nat, number: nat) returns (k: nat)
    requires Made(n, c) && Newly(c.start, c.claims, c.ends, i) && IndexAt(0, c.ends, i) <= number < c.ends[i].index
    ensures Named(n, c, i, k) && NameAt(c, i, k) == AutoName(n.prefix, number)
  {
    ClaimOfCallEnumerates(n, c.start, c.claims, c.ends, i);
    k := DeviceWithNumber(n, FoldedMap(c.claims[i].allocation.value.configs), c.ends[i].devices.value,
                          IndexAt(0, c.ends, i), c.ends[i].index, number);
  }

  lemma NumberOf(n: Node, c: Call, i: nat, k: nat) returns (number: nat)
    requires Made(n, c) && Named(n, c, i, k)
    ensures IndexAt(0, c.ends, i) <= number < c.ends[i].index && NameAt(c, i, k) == AutoName(n.prefix, number)
  {
    ClaimOfCallEnumerates(n, c.start, c.claims, c.ends, i);
    number := NumberInRange(n, FoldedMap(c.claims[i].allocation.value.configs), c.ends[i].devices.value,
                            IndexAt(0, c.ends, i), c.ends[i].index, k);
  }

  /** Every call counts from zero again: devices of two calls share a generated name exactly when
      prepared claims of both took the same number. */
  lemma CallsReuseNames(n: Node, c: Call, d: Call)
    requires Made(n, c) && Made(n, d)
    ensures ShareName(n, c, d) <==> exists i: nat, j: nat :: Overlap(c, d, i, j)
  {
    if ShareName(n, c, d) {
      var i: nat, k: nat, j: nat, l: nat :|
        Named(n, c, i, k) && Named(n, d, j, l) && NameAt(c, i, k) == NameAt(d, j, l);
      var a := NumberOf(n, c, i, k);
      var b := NumberOf(n, d, j, l);
      AutoNamesDiffer(n.prefix, a, b);
      assert Overlap(c, d, i, j);
    }
    if exists i: nat, j: nat :: Overlap(c, d, i, j) {
      var i: nat, j: nat :| Overlap(c, d, i, j);
      var lo, lo' := IndexAt(0, c.ends, i), IndexAt(0, d.ends, j);
      var number := if lo < lo' then lo' else lo;
      var k := NamedWith(n, c, i, number);
      var l := NamedWith(n, d, j, number);
      assert Named(n, c, i, k) && Named(n, d, j, l) && NameAt(c, i, k) == NameAt(d, j, l);
    }
  }

  // ----- ... when no claim fails -----

  ghost predicate NoneFails(c: Call) {
    |c.ends| == |c.claims| && forall i :: 0 <= i < |c.ends| ==> c.ends[i].devices.Some?
  }

  predicate SameClaim(c: ResourceClaim, d: ResourceClaim) { c.reservedFor == d.reservedFor && c.uid == d.uid }

  /** The claim comes for the first time, in the state and in the call. */
  predicate FirstTime(s: State, claims: seq<ResourceClaim>, i: nat) {
    i < |claims| && Preparable(claims[i]) && !Known(s.memory, claims[i]) && !ComesBefore(claims, i, claims[i])
  }

  /** Some device of the claim needs a generated name. */
  ghost predicate NeedsName(n: Node, claim: ResourceClaim) {
    claim.allocation.Some? &&
    exists r :: r in OwnResults(claim.allocation.value.results) &&
      AutoNamed(n, Effective(FoldedMap(claim.allocation.value.configs), r.request))
  }

  /** The call has a claim that is new and needs a generated name. */
  ghost predicate AsksForName(n: Node, s: State, claims: seq<ResourceClaim>) {
    exists i: nat :: FirstTime(s, claims, i) && NeedsName(n, claims[i])
  }

  /** The claim comes among the first `i` of the call. */
  predicate ComesBefore(claims: seq<ResourceClaim>, i: nat, claim: ResourceClaim) {
    exists j :: 0 <= j < i && j < |claims| && SameClaim(claims[j], claim)
  }

  lemma ComesBeforeNext(claims: seq<ResourceClaim>, i: nat, claim: ResourceClaim)
    requires i < |claims|
    ensures ComesBefore(claims, i + 1, claim) <==> ComesBefore(claims, i, claim) || SameClaim(claims[i], claim)
  {
  }

  lemma KnownNext(n: Node, c: Call, claim: ResourceClaim, i: nat)
    requires Made(n, c) && NoneFails(c) && |claim.reservedFor| == 1 && i < |c.claims|
    ensures Known(StateAt(c.start, c.ends, i + 1).memory, claim) <==>
            Known(StateAt(c.start, c.ends, i).memory, claim) || SameClaim(c.claims[i], claim)
  {
    ClaimOfCall(n, c.start, c.claims, 0, i);
    OneMoreKnown(n, StateAt(c.start, c.ends, i), c.claims[i], IndexAt(0, c.ends, i), c.ends[i], claim);
  }

  /** A claim is tracked when its turn comes if it was before, or came earlier in the call. */
  lemma {:induction false} KnownAt(n: Node, c: Call, claim: ResourceClaim, i: nat)
    requires Made(n, c) && NoneFails(c) && |claim.reservedFor| == 1 && i <= |c.claims|
    ensures Known(StateAt(c.start, c.ends, i).memory, claim) <==>
            Known(c.start.memory, claim) || ComesBefore(c.claims, i, claim)
    decreases i
  {
    if i > 0 {
      KnownAt(n, c, claim, i - 1);
      KnownNext(n, c, claim, i - 1);
      ComesBeforeNext(c.claims, i - 1, claim);
    }
  }

  lemma OneMoreKnown(n: Node, s: State, claim: ResourceClaim, index: nat, r: Claimed, other: ResourceClaim)
    requires r == PreparingOne(n, s, claim, index) && r.devices.Some? && |other.reservedFor| == 1
    ensures Known(r.state.memory, other) <==> Known(s.memory, other) || SameClaim(claim, other)
  {
    if !Known(s.memory, claim) {
      PreparedIsDurable(n, s, claim, index, r);
    }
    if claim.reservedFor[0] == other.reservedFor[0] {
      assert claim.reservedFor == other.reservedFor;
    }
  }

  /** A prepared claim moves the counter exactly if it needs a generated name. */
  lemma MovesCounter(n: Node, c: Call, i: nat)
    requires Made(n, c) && Newly(c.start, c.claims, c.ends, i)
    ensures IndexAt(0, c.ends, i) < c.ends[i].index <==> NeedsName(n, c.claims[i])
  {
    var claim, s := c.claims[i], StateAt(c.start, c.ends, i);
    var ds, own := c.ends[i].devices.value, OwnResults(claim.allocation.value.results);
    var configs := FoldedMap(claim.allocation.value.configs);
    ClaimOfCall(n, c.start, c.claims, 0, i);
    ClaimOfCallEnumerates(n, c.start, c.claims, c.ends, i);
    PreparedIsDurable(n, s, claim, IndexAt(0, c.ends, i), c.ends[i]);
    PreparedClaimMatches(n, s.world, claim, IndexAt(0, c.ends, i));
    assert forall k :: 0 <= k < |ds| ==> MatchesResult(n, ds[k], claim, configs, own[k]);
    if IndexAt(0, c.ends, i) < c.ends[i].index {
      var k := NamedWith(n, c, i, IndexAt(0, c.ends, i));
      assert own[k] in own;
    }
    if NeedsName(n, claim) {
      var r :| r in own && AutoNamed(n, Effective(configs, r.request));
      var k :| 0 <= k < |own| && own[k] == r;
      GeneratedAt(n, configs, ds, k);
    }
  }

  /** The first number is used by a call in which no claim fails and some device got a name. */
  lemma {:induction false} FirstNumberUsed(n: Node, c: Call, i: nat) returns (j: nat, k: nat)
    requires Made(n, c) && NoneFails(c) && i < |c.ends| && c.ends[i].index > 0
    ensures Named(n, c, j, k) && NameAt(c, j, k) == AutoName(n.prefix, 0)
    decreases i
  {
    if IndexAt(0, c.ends, i) > 0 {
      j, k := FirstNumberUsed(n, c, i - 1);
    } else {
      ClaimOfCall(n, c.start, c.claims, 0, i);
      j := i;
      k := NamedWith(n, c, i, 0);
    }
  }

  lemma NamesWhenAsked(n: Node, c: Call) returns (i: nat, k: nat)
    requires Made(n, c) && NoneFails(c) && AsksForName(n, c.start, c.claims)
    ensures Named(n, c, i, k) && NameAt(c, i, k) == AutoName(n.prefix, 0)
  {
    var a: nat :| FirstTime(c.start, c.claims, a) && NeedsName(n, c.claims[a]);
    KnownAt(n, c, c.claims[a], a);
    MovesCounter(n, c, a);
    i, k := FirstNumberUsed(n, c, a);
  }

  lemma NamesOnlyWhenAsked(n: Node, c: Call, i: nat, k: nat)
    requires Made(n, c) && NoneFails(c) && Named(n, c, i, k)
    ensures AsksForName(n, c.start, c.claims)
  {
    KnownAt(n, c, c.claims[i], i);
    var number := NumberOf(n, c, i, k);
    MovesCounter(n, c, i);
    assert FirstTime(c.start, c.claims, i) && NeedsName(n, c.claims[i]);
  }

  /** When no claim of either call fails, they share a name exactly when each has a claim that is
      new and needs a generated name. */
  lemma SuccessfulCallsReuseNames(n: Node, c: Call, d: Call)
    requires Made(n, c) && Made(n, d) && NoneFails(c) && NoneFails(d)
    ensures ShareName(n, c, d) <==> AsksForName(n, c.start, c.claims) && AsksForName(n, d.start, d.claims)
  {
    if AsksForName(n, c.start, c.claims) && AsksForName(n, d.start, d.claims) {
      var i, k := NamesWhenAsked(n, c);
      var j, l := NamesWhenAsked(n, d);
      assert Named(n, c, i, k) && Named(n, d, j, l) && NameAt(c, i, k) == NameAt(d, j, l);
    }
    if ShareName(n, c, d) {
      var i: nat, k: nat, j: nat, l: nat :|
        Named(n, c, i, k) && Named(n, d, j, l) && NameAt(c, i, k) == NameAt(d, j, l);
      NamesOnlyWhenAsked(n, c, i, k);
      NamesOnlyWhenAsked(n, d, j, l);
    }
  }

  // ----- The counter over a call -----

  /** The names given out while one claim is prepared. */
  ghost function NamesOfClaim(n: Node, s: State, claim: ResourceClaim, index: nat): seq<string> {
    if Preparable(claim) && !Known(s.memory, claim) && Foldable(claim.allocation.value.configs)
    then NamesGiven(n, s.world, claim, FoldedMap(claim.allocation.value.configs), claim.allocation.value.results, index)
    else []
  }

  /** The names given out in a call, also to claims that fail. */
  ghost function NamesOfCall(n: Node, s: State, claims: seq<ResourceClaim>, index: nat): seq<string>
    decreases |claims|
  {
    if claims == [] then [] else
    var first := PreparingOne(n, s, claims[0], index);
    NamesOfClaim(n, s, claims[0], index) + NamesOfCall(n, first.state, claims[1..], first.index)
  }

  lemma ClaimCounterCounts(n: Node, s: State, claim: ResourceClaim, index: nat, r: Claimed)
    requires r == PreparingOne(n, s, claim, index)
    ensures index <= r.index && NamesOfClaim(n, s, claim, index) == Counted(n.prefix, index, r.index)
  {
    if Preparable(claim) && !Known(s.memory, claim) && Foldable(claim.allocation.value.configs) {
      var configs, results := FoldedMap(claim.allocation.value.configs), claim.allocation.value.results;
      CounterCountsNames(n, s.world, claim, configs, results, [], index, claim.statuses,
                         PreparingRest(n, s.world, claim, configs, results, [], index, claim.statuses));
    }
  }

  /** At the end of a call the counter is the number of names given out, and they count from zero. */
  lemma {:induction false} CallCounterCounts(n: Node, s: State, claims: seq<ResourceClaim>, index: nat)
    ensures var last := IndexAt(index, PreparingEach(n, s, claims, index), |claims|);
            index <= last && NamesOfCall(n, s, claims, index) == Counted(n.prefix, index, last)
    decreases |claims|
  {
    if claims != [] {
      var first := PreparingOne(n, s, claims[0], index);
      ClaimCounterCounts(n, s, claims[0], index, first);
      CallCounterCounts(n, first.state, claims[1..], first.index);
      var last := IndexAt(index, PreparingEach(n, s, claims, index), |claims|);
      assert last == IndexAt(first.index, PreparingEach(n, first.state, claims[1..], first.index), |claims| - 1);
      CountedSplits(n.prefix, index, first.index, last);
    }
  }

  lemma CountedSplits(prefix: string, lo: nat, mid: nat, hi: nat)
    requires lo <= mid <= hi
    ensures Counted(prefix, lo, mid) + Counted(prefix, mid, hi) == Counted(prefix, lo, hi)
  {
  }
}
