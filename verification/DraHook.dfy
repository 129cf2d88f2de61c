/** The kubelet-facing hooks (pkg/driver/dra_hook.go), each proved to compute its function in
    `Hooks`, and runs of them. */
module DraHook {
  import opened Attributes
  import opened DriverLeak
  import opened Environment
  import opened Hooks
  import opened HostDriver
  import opened PodManager
  import opened Preparation
  import opened Prepare

  // ----- The store as values -----

  function ClaimInfos(m: map<string, PreparedDevices>): map<string, seq<DeviceInfo>> {
    map c | c in m :: InfoList(m[c])
  }

  function Infos(t: Table): InfoTable { map p | p in t :: ClaimInfos(t[p]) }

  function RecordInfos(rs: seq<Record>): seq<DeviceInfo> { seq(|rs|, i requires 0 <= i < |rs| => rs[i].info) }

  function SnapshotInfos(s: Snapshot): InfoTable { map p | p in s :: map c | c in s[p] :: RecordInfos(s[p][c]) }

  function DiskInfos(c: Option<Snapshot>): InfoTable { if c.Some? then SnapshotInfos(c.value) else map[] }

  lemma SnapshotKeepsInfos(t: Table)
    ensures SnapshotInfos(SnapshotOf(t)) == Infos(t)
  {
    var s := SnapshotOf(t);
    forall p | p in t
      ensures SnapshotInfos(s)[p] == Infos(t)[p]
    {
      assert forall c :: c in t[p] ==> RecordInfos(s[p][c]) == InfoList(t[p][c]);
    }
  }

  lemma SetClaimInfos(m: map<string, PreparedDevices>, claim: string, ds: PreparedDevices)
    ensures ClaimInfos(m[claim := ds]) == ClaimInfos(m)[claim := InfoList(ds)]
  {
  }

  lemma SetPodInfos(t: Table, pod: string, m: map<string, PreparedDevices>)
    ensures Infos(t[pod := m]) == Infos(t)[pod := ClaimInfos(m)]
  {
  }

  lemma SetInfos(t: Table, pod: string, claim: string, ds: PreparedDevices)
    ensures Infos(WithClaim(t, pod, claim, ds)) == WithClaim(Infos(t), pod, claim, InfoList(ds))
  {
    var m := if pod in t then t[pod] else map[];
    SetClaimInfos(m, claim, ds);
    SetPodInfos(t, pod, m[claim := ds]);
    assert pod !in t ==> ClaimInfos(m) == map[];
  }

  lemma ForgetInfos(t: Table, pod: string)
    ensures Infos(t - {pod}) == Infos(t) - {pod}
  {
  }

  lemma SameTracks(t: Table, claim: string)
    ensures Tracks(t, claim) <==> Tracks(Infos(t), claim)
  {
    if Tracks(t, claim) {
      var p :| p in t && claim in t[p];
      assert p in Infos(t) && claim in Infos(t)[p];
    }
  }

  // ----- The driver -----

  datatype PrepareResult = Prepared(devices: PreparedDevices) | Failed

  function InfosOf(r: PrepareResult): Option<seq<DeviceInfo>> {
    if r.Prepared? then Some(InfoList(r.devices)) else None
  }

  class Driver {
    const manager: ClaimManager
    const host: Host
    const env: Environment
    const pods: PodManager
    /** Which claim each address is allocated to. */
    ghost var inUse: Allocated

    constructor (manager: ClaimManager, pods: PodManager)
      ensures this.manager == manager && host == manager.host && env == manager.env && this.pods == pods &&
              inUse == map[]
    {
      this.manager, this.host, this.env, this.pods, inUse := manager, manager.host, manager.env, pods, map[];
    }

    ghost predicate Wired() { host == manager.host && env == manager.env && manager.Wired() && pods.env == env }

    ghost function TheNode(): Node
      reads manager
    {
      manager.TheNode()
    }

    ghost function TheState(): State
      reads this, manager, manager.host, manager.host.env, pods
    {
      State(manager.TheWorld(), Infos(pods.prepared), DiskInfos(pods.checkpoint), inUse)
    }

    /** Puts a claim into memory and, if it can be written, into the file. */
    method Remember(claim: ResourceClaim, devices: PreparedDevices) returns (ok: bool)
      requires Wired() && claim.reservedFor != []
      modifies env, pods
      ensures ok == !env.script(old(env.tick)).error
      ensures var s := old(TheState());
              var t := s.(world := Pass(s.world), memory := WithClaim(s.memory, claim.reservedFor[0], claim.uid,
                                                                      InfoList(devices)));
              TheState() == if ok then t.(disk := t.memory) else t
    {
      SetInfos(pods.prepared, claim.reservedFor[0], claim.uid, devices);
      ok := pods.Set(claim.reservedFor[0], claim.uid, devices);
      SnapshotKeepsInfos(pods.prepared);
    }

    /** Rolls back a claim that could not be stored. */
    method UndoClaim(uid: string, devices: PreparedDevices)
      requires Wired()
      modifies host, env, manager`deviceInfos, manager`cdiSpecs, manager`tally
      ensures var s := old(TheState());
              var undone := Unpreparing(TheNode(), s.world, uid, InfoList(devices)).world;
              TheState() == s.(world := undone.(tally := CountRollback(undone.tally,
                                                                       DriversBack(TheNode(), s.world,
                                                                               InfoList(devices)))))
    {
      ghost var back := DriversBack(TheNode(), manager.TheWorld(), InfoList(devices));
      var undone := manager.Unprepare(uid, devices);
      manager.tally := CountRollback(manager.tally, back);
    }

    /** Stores a prepared claim; when the checkpoint cannot be written its devices are
        rolled back, but its entry stays in memory. */
    method StoreClaim(claim: ResourceClaim, devices: PreparedDevices) returns (ok: bool)
      requires Wired() && claim.reservedFor != []
      modifies host, env, pods, manager`deviceInfos, manager`cdiSpecs, manager`tally
      ensures Stored(TheState(), ok) == Storing(TheNode(), old(TheState()), claim, InfoList(devices))
    {
      ok := Remember(claim, devices);
      if !ok {
        UndoClaim(claim.uid, devices);
      }
    }

    /** Prepares one claim, or returns the devices of one that is tracked already. */
    method PrepareResourceClaim(claim: ResourceClaim, index: nat) returns (result: PrepareResult, index': nat)
      requires Wired()
      modifies this`inUse, host, env, pods, manager`deviceInfos, manager`cdiSpecs, manager`tally
      ensures Claimed(TheState(), InfosOf(result), index') == PreparingOne(TheNode(), old(TheState()), claim, index)
    {
      result, index' := Failed, index;
      inUse := Grant(manager.allocatable, inUse, claim);
      if |claim.reservedFor| != 1 || claim.allocation.None? {
        return;
      }
      var devices, already := pods.Get(claim.reservedFor[0], claim.uid);
      if already {
        return Prepared(devices), index;
      }
      var ok, statuses;
      ghost var failedBind;
      devices, ok, index', statuses, failedBind := manager.PrepareDevicesForClaim(claim, index);
      if ok {
        ok := StoreClaim(claim, devices);
      }
      result := if ok then Prepared(devices) else Failed;
    }

    /** Drops a claim from memory and, if it can be written, from the file. */
    method DropPod(uid: string) returns (ok: bool, pod: string)
      requires Wired() && Tracks(pods.prepared, uid)
      modifies env, pods
      ensures pod in old(pods.prepared) && uid in old(pods.prepared)[pod]
      ensures ok == !env.script(old(env.tick)).error && env.tick == old(env.tick) + 1
      ensures Infos(pods.prepared) == old(Infos(pods.prepared)) - {pod}
      ensures DiskInfos(pods.checkpoint) == if ok then Infos(pods.prepared) else old(DiskInfos(pods.checkpoint))
    {
      ok, pod := pods.DeleteClaim(uid);
      ForgetInfos(old(pods.prepared), pod);
      SnapshotKeepsInfos(pods.prepared);
    }

    /** Drops a claim, and the rest of its pod with it. */
    method Forget(uid: string) returns (ok: bool, pod: string)
      requires Wired() && Tracks(pods.prepared, uid)
      modifies this`inUse, env, pods
      ensures pod in old(pods.prepared) && uid in old(pods.prepared)[pod]
      ensures Stored(TheState(), ok) == Forgetting(TheNode(), old(TheState()), uid, pod)
    {
      ok, pod := DropPod(uid);
      if ok {
        inUse := Release(inUse, uid);
      }
    }

    /** Unprepares one claim. It is forgotten only when every part succeeded, and then the
        rest of its pod is forgotten with it. */
    method UnprepareResourceClaim(uid: string) returns (ok: bool, pick: Pick)
      requires Wired()
      modifies this`inUse, host, env, pods, manager`deviceInfos, manager`cdiSpecs
      ensures Finds(old(TheState()).memory, uid, pick)
      ensures Stored(TheState(), ok) == UnpreparingOne(TheNode(), old(TheState()), uid, pick)
    {
      SameTracks(pods.prepared, uid);
      var devices, found, pod := pods.GetByClaim(uid);
      pick := Pick(pod, pod);
      if !found {
        inUse := Release(inUse, uid);
        return true, pick;
      }
      assert InfoList(devices) == TheState().memory[pod][uid];
      ok := manager.Unprepare(uid, devices);
      if ok {
        var dropped;
        ok, dropped := Forget(uid);
        pick := Pick(pod, dropped);
      }
    }

    /** Unprepares claims one after another, going on after an error, and answers for each. */
    method UnprepareResourceClaims(uids: seq<string>) returns (results: map<string, bool>, ok: bool, picks: seq<Pick>)
      requires Wired()
      modifies this`inUse, host, env, pods, manager`deviceInfos, manager`cdiSpecs
      ensures Undid(TheNode(), old(TheState()), uids, picks, Stored(TheState(), ok), results)
    {
      results, ok, picks := map[], true, [];
      ghost var n, s := TheNode(), TheState();
      for i := 0 to |uids|
        invariant Undid(n, s, uids[..i], picks, Stored(TheState(), ok), results)
      {
        results, ok, picks := UnprepareNext(uids[i], s, uids[..i], ok, picks, results);
        assert uids[..i + 1] == uids[..i] + [uids[i]];
      }
      assert uids[..|uids|] == uids;
    }

    method UnprepareNext(uid: string, ghost start: State, ghost uids: seq<string>, soFar: bool, before: seq<Pick>,
                         told: map<string, bool>)
      returns (results: map<string, bool>, ok: bool, picks: seq<Pick>)
      requires Wired() && Undid(TheNode(), start, uids, before, Stored(TheState(), soFar), told)
      modifies this`inUse, host, env, pods, manager`deviceInfos, manager`cdiSpecs
      ensures Undid(TheNode(), start, uids + [uid], picks, Stored(TheState(), ok), results)
    {
      ghost var t := Stored(TheState(), soFar);
      var done, pick := UnprepareResourceClaim(uid);
      UndidOneMore(TheNode(), start, uids, before, t, told, uid, pick, Stored(TheState(), done));
      return told[uid := done], soFar && done, before + [pick];
    }

    // ----- A kubelet call -----

    /** Prepares the claims of a call in order, with one shared interface counter. */
    method PrepareEach(claims: seq<ResourceClaim>) returns (results: map<string, PrepareResult>, ghost cs: seq<Claimed>)
      requires Wired()
      modifies this`inUse, host, env, pods, manager`deviceInfos, manager`cdiSpecs, manager`tally
      ensures cs == PreparingEach(TheNode(), old(TheState()), claims, 0) && TheState() == Last(old(TheState()), cs)
      ensures Answers(results) == Told(claims, cs)
    {
      results, cs := map[], [];
      var index := 0;
      ghost var n, s := TheNode(), TheState();
      for i := 0 to |claims|
        invariant Did(n, s, claims[..i], 0, cs, TheState(), index)
        invariant Answers(results) == Told(claims[..i], cs)
      {
        var result;
        ghost var c;
        result, index, c := PrepareNext(claims[i], index, s, claims[..i], cs);
        ToldOneMore(results, claims[..i], cs, claims[i], result, c);
        assert claims[..i + 1] == claims[..i] + [claims[i]];
        results, cs := results[claims[i].uid := result], cs + [c];
      }
      assert claims[..|claims|] == claims;
    }

    method PrepareNext(claim: ResourceClaim, index: nat, ghost start: State, ghost claims: seq<ResourceClaim>,
                       ghost cs: seq<Claimed>)
      returns (result: PrepareResult, index': nat, ghost c: Claimed)
      requires Wired() && Did(TheNode(), start, claims, 0, cs, TheState(), index)
      modifies this`inUse, host, env, pods, manager`deviceInfos, manager`cdiSpecs, manager`tally
      ensures Did(TheNode(), start, claims + [claim], 0, cs + [c], TheState(), index') && c.devices == InfosOf(result)
    {
      ghost var t := TheState();
      result, index' := PrepareResourceClaim(claim, index);
      c := Claimed(TheState(), InfosOf(result), index');
      DidOneMore(TheNode(), start, claims, 0, cs, t, index, claim, c);
    }

    /** Every device of the pod must still be known; the spec write may fail. */
    method WritePodSpec(pod: string, devices: PreparedDevices) returns (ok: bool)
      requires Wired() && pod in pods.prepared && Objects(devices) == ClaimObjects(pods.prepared[pod])
      modifies env, manager`cdiSpecs
      ensures Stored(TheState(), ok) == WritingPodSpec(TheNode(), old(TheState()), pod)
    {
      KnownDevices(TheNode(), pods.prepared[pod], devices);
      for i := 0 to |devices|
        invariant forall j :: 0 <= j < i ==> devices[j].info.deviceName in manager.allocatable
        invariant TheState() == old(TheState())
      {
        if devices[i].info.deviceName !in manager.allocatable {
          return false;
        }
      }
      ok := manager.CreateSpecFile(pod);
    }

    /** Prepares the claims of a kubelet call, then writes the pod's CDI spec; when that fails
        every claim of the call is unprepared. */
    method PrepareResourceClaims(claims: seq<ResourceClaim>) returns (results: map<string, PrepareResult>, ok: bool,
                                                                      picks: seq<Pick>)
      requires Wired()
      modifies this`inUse, host, env, pods, manager`deviceInfos, manager`cdiSpecs, manager`tally
      ensures CallFinds(TheNode(), old(TheState()), claims, picks)
      ensures Stored(TheState(), ok) == PreparingCall(TheNode(), old(TheState()), claims, picks)
      ensures Answers(results) == Told(claims, PreparingEach(TheNode(), old(TheState()), claims, 0))
    {
      results, ok, picks := map[], true, [];
      if claims == [] {
        return;
      }
      ghost var cs;
      results, cs := PrepareEach(claims);
      var spec;
      spec, ok := FinishCall(FirstPod(claims));
      if spec && !ok {
        picks := RollbackPreparedClaims(claims);
      }
    }

    /** Writes the spec of the call's pod, unless there is no such pod or nothing is prepared for it. */
    method FinishCall(pod: string) returns (reached: bool, ok: bool)
      requires Wired()
      modifies env, manager`cdiSpecs
      ensures reached == (pod != "" && pod in old(TheState()).memory) && (!reached ==> !ok)
      ensures if reached then Stored(TheState(), ok) == WritingPodSpec(TheNode(), old(TheState()), pod)
              else TheState() == old(TheState())
    {
      if pod == "" {
        return false, false;
      }
      var devices, known;
      ghost var order;
      devices, known, order := pods.GetDevicesByPodUID(pod);
      if !known {
        return false, false;
      }
      ok := WritePodSpec(pod, devices);
      reached := true;
    }

    method RollbackPreparedClaims(claims: seq<ResourceClaim>) returns (picks: seq<Pick>)
      requires Wired()
      modifies this`inUse, host, env, pods, manager`deviceInfos, manager`cdiSpecs
      ensures FindsEach(TheNode(), old(TheState()), UidsOf(claims), picks)
      ensures TheState() == UnpreparingEach(TheNode(), old(TheState()), UidsOf(claims), picks).state
    {
      var undone, ok;
      undone, ok, picks := UnprepareResourceClaims(UidsOf(claims));
    }

    // ----- Runs -----

    /** Restart between two hooks: memory is rebuilt from the checkpoint. */
    method Restart() returns (ok: bool)
      requires Wired()
      modifies env, pods
      ensures Stored(TheState(), ok) == Restarting(TheNode(), old(TheState()))
    {
      ok := pods.Reload();
      if ok {
        SnapshotKeepsInfos(pods.prepared);
      }
    }

    method RunHook(hook: Hook) returns (ok: bool, picks: seq<Pick>)
      requires Wired()
      modifies this`inUse, host, env, pods, manager`deviceInfos, manager`cdiSpecs, manager`tally
      ensures HookFinds(TheNode(), old(TheState()), hook, picks)
      ensures Stored(TheState(), ok) == Ran(TheNode(), old(TheState()), hook, picks)
    {
      picks := [];
      match hook {
        case PrepareHook(claims) =>
          var results;
          results, ok, picks := PrepareResourceClaims(claims);
        case UnprepareHook(uids) =>
          var results;
          results, ok, picks := UnprepareResourceClaims(uids);
        case RestartHook =>
          ok := Restart();
      }
    }

    /** Runs hooks with any faults, and restarts in between. The node goes through the returned
        states, which follow from the hooks and the script. If every claim is exclusive when it
        is prepared, no rollback fails and no failed bind moves its device, then at every moment
        every device off its baseline driver is held by an entry, in memory and in the file,
        that records the baseline. */
    method Run(hooks: seq<Hook>, ghost b: Baseline) returns (ghost states: seq<State>, picks: seq<seq<Pick>>)
      requires Wired()
      modifies this`inUse, host, env, pods, manager`deviceInfos, manager`cdiSpecs, manager`tally
      ensures HookTrace(TheNode(), states, hooks, picks) && states[0] == old(TheState()) &&
              states[|hooks|] == TheState()
      ensures NoLeak(b, states[0]) && Clean(states[0].world, states[|hooks|].world) &&
              AllExclusive(TheNode(), states, hooks) ==>
                forall i :: 0 <= i <= |hooks| ==> NoLeak(b, states[i])
    {
      states, picks := [TheState()], [];
      ghost var n := TheNode();
      for i := 0 to |hooks|
        invariant |picks| == i && |states| == i + 1 && states[0] == old(TheState()) && states[i] == TheState()
        invariant forall k :: 0 <= k < i ==> HookAt(n, states, hooks, picks, k)
      {
        var ok, found := RunHook(hooks[i]);
        StepsOneMore(n, states, hooks, picks, TheState(), found);
        states, picks := states + [TheState()], picks + [found];
      }
      NeverLeaks(b, n, states, hooks, picks);
    }
  }

  ghost predicate AllExclusive(n: Node, states: seq<State>, hooks: seq<Hook>) {
    |states| == |hooks| + 1 && forall k :: 0 <= k < |hooks| ==> HookExclusive(n, states[k], hooks[k])
  }

  lemma StepsOneMore(n: Node, states: seq<State>, hooks: seq<Hook>, picks: seq<seq<Pick>>, t: State, found: seq<Pick>)
    requires |states| == |picks| + 1 && |picks| < |hooks|
    requires forall k :: 0 <= k < |picks| ==> HookAt(n, states, hooks, picks, k)
    requires var i := |picks|; HookFinds(n, states[i], hooks[i], found) && t == Ran(n, states[i], hooks[i], found).state
    ensures forall k :: 0 <= k <= |picks| ==> HookAt(n, states + [t], hooks, picks + [found], k)
  {
    forall k | 0 <= k < |picks|
      ensures HookAt(n, states + [t], hooks, picks + [found], k)
    {
      assert HookAt(n, states, hooks, picks, k);
    }
  }

  lemma NeverLeaks(b: Baseline, n: Node, states: seq<State>, hooks: seq<Hook>, picks: seq<seq<Pick>>)
    requires HookTrace(n, states, hooks, picks)
    ensures NoLeak(b, states[0]) && Clean(states[0].world, states[|hooks|].world) && AllExclusive(n, states, hooks) ==>
              forall i :: 0 <= i <= |hooks| ==> NoLeak(b, states[i])
  {
    if NoLeak(b, states[0]) && Clean(states[0].world, states[|hooks|].world) && AllExclusive(n, states, hooks) {
      forall i | 0 <= i <= |hooks|
        ensures NoLeak(b, states[i])
      {
        NoDriverLeak(b, n, states, hooks, picks, i);
      }
    }
  }

  /** The results of a call without the device objects. */
  ghost function Answers(results: map<string, PrepareResult>): map<string, Option<seq<DeviceInfo>>> {
    map uid | uid in results :: InfosOf(results[uid])
  }

  lemma ToldOneMore(results: map<string, PrepareResult>, claims: seq<ResourceClaim>, cs: seq<Claimed>,
                    claim: ResourceClaim,
                    result: PrepareResult, c: Claimed)
    requires |cs| == |claims| && Answers(results) == Told(claims, cs) && c.devices == InfosOf(result)
    ensures Answers(results[claim.uid := result]) == Told(claims + [claim], cs + [c])
  {
    assert (claims + [claim])[..|claims|] == claims && (cs + [c])[..|cs|] == cs;
    assert Answers(results[claim.uid := result]) == Answers(results)[claim.uid := InfosOf(result)];
  }

  lemma KnownDevices(n: Node, m: map<string, PreparedDevices>, devices: PreparedDevices)
    requires Objects(devices) == ClaimObjects(m)
    ensures AllAllocatable(n, ClaimInfos(m)) <==> forall i ::
              0 <= i < |devices| ==> devices[i].info.deviceName in n.devices
  {
    forall c, k | c in m && 0 <= k < |m[c]|
      ensures exists i :: 0 <= i < |devices| && devices[i] == m[c][k]
    {
      assert m[c][k] in Objects(m[c]) && m[c][k] in Objects(devices);
    }
    forall i | 0 <= i < |devices|
      ensures exists c :: c in m && devices[i].info in ClaimInfos(m)[c]
    {
      assert devices[i] in Objects(devices);
      var c :| c in m && devices[i] in m[c];
      var k :| 0 <= k < |m[c]| && m[c][k] == devices[i];
      assert ClaimInfos(m)[c][k] == devices[i].info;
    }
  }
}
