/** The kubelet-facing hooks (pkg/driver/dra_hook.go) as functions of the environment's script:
    preparing and unpreparing claims over the host, the store of prepared claims and its
    checkpoint file. `DraHook` holds the operations that compute them. */
module Hooks {
  import opened AllOrNothing
  import opened Attributes
  import opened PodManager
  import opened Preparation

  /** Pod UID to claim UID to what is recorded about its devices. */
  type InfoTable = map<string, map<string, seq<DeviceInfo>>>

  /** Who may hold an address: a pod and a claim. */
  type Allocated = map<string, (string, string)>

  /** What is bound and written on the node, what memory and the checkpoint file track, and
      which claim each address is allocated to. */
  datatype State = State(world: World, memory: InfoTable, disk: InfoTable, inUse: Allocated)

  /** The allocation once a claim's addresses are given to it. */
  ghost function Grant(devices: Devices, inUse: Allocated, claim: ResourceClaim): Allocated {
    if !Preparable(claim) then inUse else
    var given := ClaimAddresses(devices, claim.allocation.value.results);
    map p | p in inUse.Keys + given :: if p in given then (claim.reservedFor[0], claim.uid) else inUse[p]
  }

  /** The allocation once a claim is unprepared. */
  ghost function Release(inUse: Allocated, claim: string): Allocated {
    map p | p in inUse && inUse[p].1 != claim :: inUse[p]
  }

  /** A claim for one pod that is allocated. */
  predicate Preparable(claim: ResourceClaim) { |claim.reservedFor| == 1 && claim.allocation.Some? }

  /** The claim is tracked under its pod. */
  predicate Known(t: InfoTable, claim: ResourceClaim) {
    |claim.reservedFor| == 1 && claim.reservedFor[0] in t && claim.uid in t[claim.reservedFor[0]]
  }

  // ----- Preparing one claim -----

  datatype Stored = Stored(state: State, ok: bool)

  /** Stores a prepared claim. When the checkpoint cannot be written the devices are rolled
      back, but the entry stays in memory. */
  function Storing(n: Node, s: State, claim: ResourceClaim, ds: seq<DeviceInfo>): Stored
    requires claim.reservedFor != []
  {
    var t := s.(world := Pass(s.world), memory := WithClaim(s.memory, claim.reservedFor[0], claim.uid, ds));
    if !n.script(s.world.sys.tick).error then Stored(t.(disk := t.memory), true) else
    var undone := Unpreparing(n, t.world, claim.uid, ds);
    Stored(t.(world := undone.world.(tally := CountRollback(undone.world.tally, DriversBack(n, t.world, ds)))), false)
  }

  /** The state after preparing one claim, its devices unless that failed, and the counter. */
  datatype Claimed = Claimed(state: State, devices: Option<seq<DeviceInfo>>, index: nat)

  ghost function PreparingNew(n: Node, s: State, claim: ResourceClaim, index: nat): Claimed
    requires Preparable(claim)
  {
    var prep := PreparingClaim(n, s.world, claim, index);
    if !prep.ok then Claimed(s.(world := prep.world), None, prep.index) else
    var stored := Storing(n, s.(world := prep.world), claim, prep.devices);
    Claimed(stored.state, if stored.ok then Some(prep.devices) else None, prep.index)
  }

  ghost function PreparingOne(n: Node, s: State, claim: ResourceClaim, index: nat): Claimed {
    var granted := s.(inUse := Grant(n.devices, s.inUse, claim));
    if !Preparable(claim) then Claimed(granted, None, index)
    else if Known(s.memory, claim) then Claimed(granted, Some(s.memory[claim.reservedFor[0]][claim.uid]), index)
    else PreparingNew(n, granted, claim, index)
  }

  // ----- Unpreparing claims -----

  /** The pods that map iteration finds for a claim: to look its devices up, and to forget it. */
  datatype Pick = Pick(found: string, dropped: string)

  ghost predicate Finds(t: InfoTable, uid: string, pick: Pick) {
    Tracks(t, uid) ==> pick.found in t && uid in t[pick.found] && pick.dropped in t && uid in t[pick.dropped]
  }

  /** Forgets the whole pod, in the file only if that can be written. */
  ghost function Forgetting(n: Node, s: State, uid: string, pod: string): Stored {
    var t := s.(world := Pass(s.world), memory := s.memory - {pod});
    if n.script(s.world.sys.tick).error then Stored(t, false)
    else Stored(t.(disk := t.memory, inUse := Release(s.inUse, uid)), true)
  }

  ghost function UnpreparingOne(n: Node, s: State, uid: string, pick: Pick): Stored
    requires Finds(s.memory, uid, pick)
  {
    if !Tracks(s.memory, uid) then Stored(s.(inUse := Release(s.inUse, uid)), true) else
    var done := Unpreparing(n, s.world, uid, s.memory[pick.found][uid]);
    var t := s.(world := done.world);
    if !done.ok then Stored(t, false) else Forgetting(n, t, uid, pick.dropped)
  }

  ghost predicate FindsEach(n: Node, s: State, uids: seq<string>, picks: seq<Pick>)
    decreases |uids|
  {
    && |picks| == |uids|
    && (uids != [] ==>
          Finds(s.memory, uids[0], picks[0]) &&
          FindsEach(n, UnpreparingOne(n, s, uids[0], picks[0]).state, uids[1..], picks[1..]))
  }

  /** Every claim is tried; one failure makes the result a failure. */
  ghost function UnpreparingEach(n: Node, s: State, uids: seq<string>, picks: seq<Pick>): Stored
    requires FindsEach(n, s, uids, picks)
    decreases |uids|
  {
    if uids == [] then Stored(s, true) else
    var first := UnpreparingOne(n, s, uids[0], picks[0]);
    var rest := UnpreparingEach(n, first.state, uids[1..], picks[1..]);
    Stored(rest.state, first.ok && rest.ok)
  }

  /** Whether each unprepare succeeded, in order. */
  ghost function AnswersOf(n: Node, s: State, uids: seq<string>, picks: seq<Pick>): (oks: seq<bool>)
    requires FindsEach(n, s, uids, picks)
    ensures |oks| == |uids|
    decreases |uids|
  {
    if uids == [] then [] else
    var first := UnpreparingOne(n, s, uids[0], picks[0]);
    [first.ok] + AnswersOf(n, first.state, uids[1..], picks[1..])
  }

  /** What the kubelet is told: for every claim, how its last unprepare in the call ended. */
  function ToldGone(uids: seq<string>, oks: seq<bool>): map<string, bool>
    requires |oks| == |uids|
  {
    if uids == [] then map[]
    else
      var last := |uids| - 1;
      ToldGone(uids[..last], oks[..last])[uids[last] := oks[last]]
  }

  /** The claims so far were unprepared, led from `s` to `t`, and were answered with `told`. */
  ghost predicate Undid(n: Node, s: State, uids: seq<string>, picks: seq<Pick>, t: Stored, told: map<string, bool>) {
    FindsEach(n, s, uids, picks) && t == UnpreparingEach(n, s, uids, picks) &&
    told == ToldGone(uids, AnswersOf(n, s, uids, picks))
  }

  /** One more claim at the end. */
  lemma {:induction false} UnpreparingOneMore(n: Node, s: State, uids: seq<string>, picks: seq<Pick>, t: Stored,
                                              uid: string, pick: Pick, r: Stored)
    requires FindsEach(n, s, uids, picks) && t == UnpreparingEach(n, s, uids, picks)
    requires Finds(t.state.memory, uid, pick) && r == UnpreparingOne(n, t.state, uid, pick)
    ensures FindsEach(n, s, uids + [uid], picks + [pick])
    ensures UnpreparingEach(n, s, uids + [uid], picks + [pick]) == Stored(r.state, t.ok && r.ok)
    decreases |uids|
  {
    var us, ps := uids + [uid], picks + [pick];
    if uids == [] {
      assert us[1..] == [] && ps[1..] == [];
    } else {
      assert us[1..] == uids[1..] + [uid] && ps[1..] == picks[1..] + [pick];
      var first := UnpreparingOne(n, s, uids[0], picks[0]).state;
      UnpreparingOneMore(n, first, uids[1..], picks[1..], UnpreparingEach(n, first, uids[1..], picks[1..]), uid, pick,
                         r);
    }
  }

  lemma {:induction false} AnswersOneMore(n: Node, s: State, uids: seq<string>, picks: seq<Pick>, t: State, uid: string,
                                          pick: Pick, ok: bool)
    requires FindsEach(n, s, uids, picks) && FindsEach(n, s, uids + [uid], picks + [pick])
    requires t == UnpreparingEach(n, s, uids, picks).state
    requires Finds(t.memory, uid, pick) && ok == UnpreparingOne(n, t, uid, pick).ok
    ensures AnswersOf(n, s, uids + [uid], picks + [pick]) == AnswersOf(n, s, uids, picks) + [ok]
    decreases |uids|
  {
    var us, ps := uids + [uid], picks + [pick];
    if uids == [] {
      assert us[0] == uid && ps[0] == pick && us[1..] == [] && ps[1..] == [];
      assert AnswersOf(n, s, us, ps) == [ok] + [];
    } else {
      var rest, others := uids[1..], picks[1..];
      assert us[1..] == rest + [uid] && ps[1..] == others + [pick];
      assert us[0] == uids[0] && ps[0] == picks[0];
      var first := UnpreparingOne(n, s, uids[0], picks[0]);
      AnswersOneMore(n, first.state, rest, others, t, uid, pick, ok);
      var oks := AnswersOf(n, first.state, rest, others);
      assert AnswersOf(n, s, us, ps) == [first.ok] + (oks + [ok]);
      assert [first.ok] + (oks + [ok]) == ([first.ok] + oks) + [ok];
    }
  }

  lemma UndidOneMore(n: Node, s: State, uids: seq<string>, picks: seq<Pick>, t: Stored, told: map<string, bool>,
                     uid: string, pick: Pick, r: Stored)
    requires Undid(n, s, uids, picks, t, told) && Finds(t.state.memory, uid, pick)
    requires r == UnpreparingOne(n, t.state, uid, pick)
    ensures Undid(n, s, uids + [uid], picks + [pick], Stored(r.state, t.ok && r.ok), told[uid := r.ok])
  {
    UnpreparingOneMore(n, s, uids, picks, t, uid, pick, r);
    AnswersOneMore(n, s, uids, picks, t.state, uid, pick, r.ok);
    var oks := AnswersOf(n, s, uids, picks);
    assert (uids + [uid])[..|uids|] == uids && (oks + [r.ok])[..|uids|] == oks;
  }

  // ----- A kubelet call -----

  /** The claims of a call in order, with one shared interface counter. */
  ghost function PreparingEach(n: Node, s: State, claims: seq<ResourceClaim>, index: nat): seq<Claimed>
    ensures |PreparingEach(n, s, claims, index)| == |claims|
    decreases |claims|
  {
    if claims == [] then [] else
    var first := PreparingOne(n, s, claims[0], index);
    [first] + PreparingEach(n, first.state, claims[1..], first.index)
  }

  ghost function Last(s: State, cs: seq<Claimed>): State { if cs == [] then s else cs[|cs| - 1].state }

  /** The claims so far were prepared, and led from `s` to `t`. */
  ghost predicate Did(n: Node, s: State, claims: seq<ResourceClaim>, index: nat, cs: seq<Claimed>, t: State,
                      index': nat) {
    && cs == PreparingEach(n, s, claims, index) && t == Last(s, cs)
    && index' == if cs == [] then index else cs[|cs| - 1].index
  }

  lemma {:induction false} DidOneMore(n: Node, s: State, claims: seq<ResourceClaim>, index: nat, cs: seq<Claimed>,
                                      t: State, index': nat,
                                      claim: ResourceClaim, r: Claimed)
    requires Did(n, s, claims, index, cs, t, index') && r == PreparingOne(n, t, claim, index')
    ensures Did(n, s, claims + [claim], index, cs + [r], r.state, r.index)
    decreases |claims|
  {
    var more := claims + [claim];
    if claims == [] {
      assert more[1..] == [] && [r] + [] == [r];
    } else {
      assert more[1..] == claims[1..] + [claim];
      var first := PreparingOne(n, s, claims[0], index);
      DidOneMore(n, first.state, claims[1..], first.index, cs[1..], t, index', claim, r);
      assert cs + [r] == [first] + (cs[1..] + [r]);
    }
  }

  /** What the kubelet is told: for every claim, how its last preparation in the call ended. */
  ghost function Told(claims: seq<ResourceClaim>, cs: seq<Claimed>): map<string, Option<seq<DeviceInfo>>>
    requires |cs| == |claims|
  {
    if claims == [] then map[]
    else
      var last := |claims| - 1;
      Told(claims[..last], cs[..last])[claims[last].uid := cs[last].devices]
  }

  function FirstPod(claims: seq<ResourceClaim>): string {
    if claims == [] then ""
    else if claims[0].reservedFor != [] then claims[0].reservedFor[0]
    else FirstPod(claims[1..])
  }

  /** Every device of the pod is still advertised by the node. */
  ghost predicate AllAllocatable(n: Node, m: map<string, seq<DeviceInfo>>) {
    forall c, d :: c in m && d in m[c] ==> d.deviceName in n.devices
  }

  ghost function WritingPodSpec(n: Node, s: State, pod: string): Stored
    requires pod in s.memory
  {
    var done := if AllAllocatable(n, s.memory[pod]) then CreatingSpec(n, s.world, pod) else Done(s.world, false);
    Stored(s.(world := done.world), done.ok)
  }

  function UidsOf(claims: seq<ResourceClaim>): seq<string> {
    seq(|claims|, i requires 0 <= i < |claims| => claims[i].uid)
  }

  /** The call up to the pod's CDI spec; None when it does not get that far. */
  ghost function SpecOf(n: Node, s: State, claims: seq<ResourceClaim>): Option<Stored> {
    var t, pod := Last(s, PreparingEach(n, s, claims, 0)), FirstPod(claims);
    if pod == "" || pod !in t.memory then None else Some(WritingPodSpec(n, t, pod))
  }

  /** The picks are those of the rollback, if there is one. */
  ghost predicate CallFinds(n: Node, s: State, claims: seq<ResourceClaim>, picks: seq<Pick>) {
    SpecOf(n, s, claims).Some? && !SpecOf(n, s, claims).value.ok ==>
      FindsEach(n, SpecOf(n, s, claims).value.state, UidsOf(claims), picks)
  }

  /** A kubelet call: when the pod's spec cannot be written, every claim is unprepared. */
  ghost function PreparingCall(n: Node, s: State, claims: seq<ResourceClaim>, picks: seq<Pick>): Stored
    requires CallFinds(n, s, claims, picks)
  {
    if claims == [] then Stored(s, true) else
    var t, spec := Last(s, PreparingEach(n, s, claims, 0)), SpecOf(n, s, claims);
    if spec.None? then Stored(t, false)
    else if spec.value.ok then spec.value
    else Stored(UnpreparingEach(n, spec.value.state, UidsOf(claims), picks).state, false)
  }

  /** Restart between two hooks: memory is rebuilt from the file, or the driver does not start. */
  function Restarting(n: Node, s: State): Stored {
    var ok := !n.script(s.world.sys.tick).error;
    Stored(s.(world := Pass(s.world), memory := if ok then s.disk else s.memory), ok)
  }

  datatype Hook = PrepareHook(claims: seq<ResourceClaim>) | UnprepareHook(uids: seq<string>) | RestartHook

  ghost predicate HookFinds(n: Node, s: State, hook: Hook, picks: seq<Pick>) {
    match hook
    case PrepareHook(claims) => CallFinds(n, s, claims, picks)
    case UnprepareHook(uids) => FindsEach(n, s, uids, picks)
    case RestartHook => true
  }

  ghost function Ran(n: Node, s: State, hook: Hook, picks: seq<Pick>): Stored
    requires HookFinds(n, s, hook, picks)
  {
    match hook
    case PrepareHook(claims) => PreparingCall(n, s, claims, picks)
    case UnprepareHook(uids) => UnpreparingEach(n, s, uids, picks)
    case RestartHook => Restarting(n, s)
  }
}
