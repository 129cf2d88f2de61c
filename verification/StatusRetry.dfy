/** `UpdateClaimStatusWithRetry` (pkg/types/statusretry.go) against an API server with
    optimistic concurrency: versions, other writers, conflicts, lost replies and
    recreated objects (Kubernetes API Conventions, "Concurrency Control and Consistency"). */
module StatusRetry {
  import opened Attributes
  import opened ClaimStatus

  /** `rest` is everything in the claim besides `status.devices`. */
  datatype Claim = Claim(uid: string, version: nat, rest: string, devices: Statuses)

  /** The named object, the last version handed out, and every stored version. */
  datatype Server = Server(live: Option<Claim>, clock: nat, past: map<nat, Claim>)

  datatype ApiError = Conflict | Invalid | Forbidden | NotFound | Other(code: int)

  /** `Replaced` wraps a not-found error. */
  datatype Failure = Api(error: ApiError) | Replaced(was: string, found: string) | Timeout | Cancelled

  predicate IsPermanentStatusUpdateError(f: Failure) {
    f.Replaced? || f == Api(Invalid) || f == Api(Forbidden) || f == Api(NotFound)
  }

  /** What another client may do: any valid new object under the name, or none. */
  datatype ForeignWrite = Put(uid: string, rest: string, devices: Statuses) | Delete

  /** A request may be lost before it is applied, or applied while its reply is an error. */
  datatype Fault = NoFault | Dropped(error: ApiError) | Unacknowledged(error: ApiError)

  /** Everything the environment decides during one attempt. */
  datatype Attempt = Attempt(
    cancelledBefore: bool, beforeUpdate: seq<ForeignWrite>, update: Fault,
    beforeGet: seq<ForeignWrite>, get: Option<ApiError>, capReached: bool, cancelledWaiting: bool)

  /** A write of ours that the server accepted: the object before and after it. */
  datatype Write = Write(before: Claim, after: Claim)

  // ----- The server -----

  function Stored(s: Server, uid: string, rest: string, devices: Statuses): Server {
    var c := Claim(uid, s.clock + 1, rest, devices);
    Server(Some(c), s.clock + 1, s.past[s.clock + 1 := c])
  }

  function AfterForeign(s: Server, w: ForeignWrite): Server {
    match w
    case Put(uid, rest, devices) => if UniqueKeys(devices) then Stored(s, uid, rest, devices) else s
    case Delete => s.(live := None)
  }

  function AfterForeignWrites(s: Server, ws: seq<ForeignWrite>): Server
    decreases |ws|
  {
    if ws == [] then s else AfterForeignWrites(AfterForeign(s, ws[0]), ws[1..])
  }

  /** Why the server refuses a status update, if it does. */
  function Refusal(s: Server, c: Claim): Option<ApiError> {
    if s.live.None? then Some(NotFound)
    else if s.live.value.uid != c.uid || s.live.value.version != c.version then Some(Conflict)
    else if !UniqueKeys(c.devices) then Some(Invalid)
    else None
  }

  ghost predicate ValidServer(s: Server) {
    && (s.live.Some? ==> s.live.value.version in s.past && s.past[s.live.value.version] == s.live.value)
    && (forall v :: v in s.past ==> v <= s.clock && s.past[v].version == v && UniqueKeys(s.past[v].devices))
  }

  /** The server keeps everything it ever stored. */
  ghost predicate Extends(s: Server, t: Server) {
    forall v :: v in s.past ==> v in t.past && t.past[v] == s.past[v]
  }

  lemma {:induction false} ForeignWritesExtend(s: Server, ws: seq<ForeignWrite>)
    requires ValidServer(s)
    ensures ValidServer(AfterForeignWrites(s, ws)) && Extends(s, AfterForeignWrites(s, ws))
    decreases |ws|
  {
    if ws != [] {
      ForeignWritesExtend(AfterForeign(s, ws[0]), ws[1..]);
    }
  }

  // ----- The loop as a function of the environment's script -----

  datatype Submission = Submission(server: Server, reply: Option<ApiError>, accepted: Option<Write>)

  /** One status update under a fault: a lost request changes nothing, and an applied one may be
      reported as failed. */
  function Submitted(s: Server, c: Claim, fault: Fault): Submission {
    if fault.Dropped? then Submission(s, Some(fault.error), None) else
    var refusal := Refusal(s, c);
    var t := if refusal.None? then Stored(s, c.uid, c.rest, c.devices) else s;
    Submission(t, if fault.Unacknowledged? then Some(fault.error) else refusal,
               if refusal.None? then Some(Write(s.live.value, t.live.value)) else None)
  }

  /** Why a refetch fails, if it does. */
  function FetchFailure(s: Server, c: Claim, get: Option<ApiError>): Option<Failure> {
    if get.Some? then Some(Api(get.value))
    else if s.live.None? then Some(Api(NotFound))
    else if s.live.value.uid != c.uid then Some(Replaced(c.uid, s.live.value.uid))
    else None
  }

  /** The desired entries over the latest list. */
  function Rebased(s: Server, desired: Statuses, driver: string): Claim
    requires s.live.Some?
  {
    s.live.value.(devices := Merged(s.live.value.devices, desired, driver))
  }

  datatype Verdict = Again | Acknowledged | Stop(failure: Failure)

  function VerdictOn(f: Failure): Verdict { if IsPermanentStatusUpdateError(f) then Stop(f) else Again }

  /** One run of the retried condition: what was sent, and what it leads to. */
  datatype Round = Round(sent: Claim, server: Server, claim: Claim, accepted: Option<Write>, errors: seq<Failure>,
                         verdict: Verdict)

  function Tried(s: Server, c: Claim, desired: Statuses, driver: string, a: Attempt): Round {
    var sub := Submitted(AfterForeignWrites(s, a.beforeUpdate), c, a.update);
    if sub.reply.None? then Round(c, sub.server, c, sub.accepted, [], Acknowledged)
    else if sub.reply.value != Conflict then
      Round(c, sub.server, c, sub.accepted, [Api(sub.reply.value)], VerdictOn(Api(sub.reply.value)))
    else
      var t := AfterForeignWrites(sub.server, a.beforeGet);
      var failure := FetchFailure(t, c, a.get);
      if failure.Some? then Round(c, t, c, sub.accepted, [Api(Conflict), failure.value], VerdictOn(failure.value))
      else Round(c, t, Rebased(t, desired, driver), sub.accepted, [Api(Conflict)], Again)
  }

  datatype Run = Run(rounds: seq<Round>, result: Option<Failure>)

  /** The backoff: at most `remaining` rounds, fewer when the cap is reached, the context is
      cancelled, or a round ends the loop. */
  function Rounds(s: Server, c: Claim, desired: Statuses, driver: string, script: nat -> Attempt, n: nat,
                  remaining: nat): Run
    decreases remaining
  {
    if remaining == 0 then Run([], Some(Timeout))
    else if script(n).cancelledBefore then Run([], Some(Cancelled)) else
    var r := Tried(s, c, desired, driver, script(n));
    if r.verdict.Acknowledged? then Run([r], None)
    else if r.verdict.Stop? then Run([r], Some(r.verdict.failure))
    else if remaining == 1 then Run([r], Some(Timeout))
    else if script(n).cancelledWaiting then Run([r], Some(Cancelled)) else
    var rest := Rounds(r.server, r.claim, desired, driver, script, n + 1, if script(n).capReached then 0
                       else remaining - 1);
    Run([r] + rest.rounds, rest.result)
  }

  /** The server after some rounds. */
  function After(s: Server, rounds: seq<Round>): Server {
    if rounds == [] then s else rounds[|rounds| - 1].server
  }

  function Errors(rounds: seq<Round>): seq<Failure> {
    if rounds == [] then [] else rounds[0].errors + Errors(rounds[1..])
  }

  /** The last API error replaces the backoff's own timeout, unless the context was cancelled. */
  function Surfaced(run: Run, cancelledAtEnd: bool): Option<Failure> {
    var errors := Errors(run.rounds);
    if run.result.Some? && run.result != Some(Cancelled) && errors != [] && !cancelledAtEnd
    then Some(errors[|errors| - 1]) else run.result
  }

  // ----- What the loop may rely on and must keep -----

  /** `c` was read from the server at its version and edited only in this driver's entries. */
  ghost predicate EditedOwnOnly(s: Server, c: Claim, driver: string) {
    && c.version in s.past && s.past[c.version].uid == c.uid && s.past[c.version].rest == c.rest
    && Foreign(s.past[c.version].devices, driver) == Foreign(c.devices, driver)
  }

  /** An accepted write, as the server's own history records it: it changed this driver's
      entries into the desired ones and nothing else. */
  ghost predicate NoLostUpdate(s: Server, w: Write, original: Claim, driver: string) {
    && w.before.version in s.past && s.past[w.before.version] == w.before
    && w.after.version in s.past && s.past[w.after.version] == w.after
    && w.before.version < w.after.version
    && w.before.uid == w.after.uid == original.uid
    && w.before.rest == w.after.rest
    && Foreign(w.after.devices, driver) == Foreign(w.before.devices, driver)
    && Keyed(Own(w.after.devices, driver)) == Keyed(Own(original.devices, driver))
  }

  /** A claim that may be sent: the desired entries over a version of the same object. */
  ghost predicate Ready(s: Server, c: Claim, original: Claim, driver: string) {
    && EditedOwnOnly(s, c, driver)
    && c.uid == original.uid
    && Keyed(Own(c.devices, driver)) == Keyed(Own(original.devices, driver))
    && (UniqueKeys(original.devices) ==> UniqueKeys(c.devices))
  }

  /** A version is the outcome of another client's write. */
  predicate PutBy(w: ForeignWrite, c: Claim) { w.Put? && c == Claim(w.uid, c.version, w.rest, w.devices) }

  ghost predicate PutIn(ws: seq<ForeignWrite>, c: Claim) { exists k :: 0 <= k < |ws| && PutBy(ws[k], c) }

  /** Another client wrote the version during this attempt. */
  ghost predicate PutDuring(a: Attempt, c: Claim) { PutIn(a.beforeUpdate, c) || PutIn(a.beforeGet, c) }

  /** A round adds only versions that another client wrote, or one accepted write of its own. */
  ghost predicate RoundAccounts(s: Server, r: Round, a: Attempt) {
    forall v :: v in r.server.past && v !in s.past ==>
      PutDuring(a, r.server.past[v]) || (r.accepted.Some? && r.accepted.value.after == r.server.past[v])
  }

  /** What one round keeps. */
  ghost predicate RoundSafe(s: Server, r: Round, a: Attempt, original: Claim, driver: string) {
    && ValidServer(r.server) && Extends(s, r.server) && Ready(r.server, r.claim, original, driver)
    && (r.accepted.Some? ==> NoLostUpdate(r.server, r.accepted.value, original, driver))
    && r.sent.uid == original.uid && (UniqueKeys(original.devices) ==> UniqueKeys(r.sent.devices))
    && RoundAccounts(s, r, a)
  }

  lemma {:induction false} ForeignWritesAccount(s: Server, ws: seq<ForeignWrite>)
    requires ValidServer(s)
    ensures var t := AfterForeignWrites(s, ws); forall v :: v in t.past && v !in s.past ==> PutIn(ws, t.past[v])
    decreases |ws|
  {
    if ws != [] {
      var mid, rest := AfterForeign(s, ws[0]), ws[1..];
      ForeignWritesAccount(mid, rest);
      ForeignWritesExtend(mid, rest);
      var t := AfterForeignWrites(s, ws);
      forall v | v in t.past && v !in s.past
        ensures PutIn(ws, t.past[v])
      {
        if v in mid.past {
          assert PutBy(ws[0], t.past[v]);
        } else {
          var k :| 0 <= k < |rest| && PutBy(rest[k], t.past[v]);
          assert PutBy(ws[k + 1], t.past[v]);
        }
      }
    }
  }

  lemma ExtendsTransitive(s: Server, t: Server, u: Server)
    requires Extends(s, t) && Extends(t, u)
    ensures Extends(s, u)
  {
  }

  /** An update that the server accepts meets the same version that it was built on. */
  lemma SubmittedIsSafe(s: Server, c: Claim, fault: Fault, original: Claim, driver: string)
    requires ValidServer(s) && Ready(s, c, original, driver)
    ensures var sub := Submitted(s, c, fault);
            && ValidServer(sub.server) && Extends(s, sub.server) && Ready(sub.server, c, original, driver)
            && (sub.accepted.Some? ==> NoLostUpdate(sub.server, sub.accepted.value, original, driver))
            && (sub.accepted.None? ==> sub.server == s && sub.reply.Some?)
            && (sub.accepted.Some? ==> sub.server == Stored(s, c.uid, c.rest, c.devices))
            && (sub.accepted.Some? ==> sub.server.live == Some(sub.accepted.value.after))
  {
  }

  lemma RebasedIsReady(s: Server, original: Claim, driver: string)
    requires ValidServer(s) && s.live.Some? && s.live.value.uid == original.uid
    ensures Ready(s, Rebased(s, original.devices, driver), original, driver)
    ensures UniqueKeys(Rebased(s, original.devices, driver).devices)
  {
    var latest := s.live.value.devices;
    MergeKeepsForeignWritesOwn(latest, original.devices, driver);
    MergeUniqueKeys(latest, original.devices, driver);
    ForeignKeepsUnique(latest, driver);
  }

  lemma {:induction false} ForeignKeepsUnique(list: Statuses, driver: string)
    requires UniqueKeys(list)
    ensures UniqueKeys(Foreign(list, driver))
  {
    if list != [] {
      var front, last := list[..|list| - 1], list[|list| - 1];
      ForeignKeepsUnique(front, driver);
      ForeignEntries(front, driver);
      var f := Foreign(front, driver);
      assert forall i :: 0 <= i < |f| ==> f[i] in f && f[i] in front;
      assert f + [] == f;
    }
  }

  /** A claim stays fit to be sent while others write. */
  lemma OthersKeepReady(s: Server, ws: seq<ForeignWrite>, c: Claim, original: Claim, driver: string)
    requires ValidServer(s) && Ready(s, c, original, driver)
    ensures var t := AfterForeignWrites(s, ws); ValidServer(t) && Extends(s, t) && Ready(t, c, original, driver)
  {
    ForeignWritesExtend(s, ws);
  }

  /** The round up to the reply. */
  lemma SendingIsSafe(s: Server, c: Claim, a: Attempt, original: Claim, driver: string)
    requires ValidServer(s) && Ready(s, c, original, driver)
    ensures var sub := Submitted(AfterForeignWrites(s, a.beforeUpdate), c, a.update);
            && ValidServer(sub.server) && Extends(s, sub.server) && Ready(sub.server, c, original, driver)
            && (sub.accepted.Some? ==> NoLostUpdate(sub.server, sub.accepted.value, original, driver))
            && (forall v :: v in sub.server.past && v !in s.past ==>
                  PutIn(a.beforeUpdate, sub.server.past[v]) ||
                    (sub.accepted.Some? && sub.accepted.value.after == sub.server.past[v]))
            && (sub.reply.None? ==> sub.accepted.Some? && sub.server.live == Some(sub.accepted.value.after))
  {
    var t := AfterForeignWrites(s, a.beforeUpdate);
    OthersKeepReady(s, a.beforeUpdate, c, original, driver);
    ForeignWritesAccount(s, a.beforeUpdate);
    SubmittedIsSafe(t, c, a.update, original, driver);
  }

  lemma ExtendsKeepsWrite(s: Server, t: Server, w: Write, original: Claim, driver: string)
    requires Extends(s, t) && NoLostUpdate(s, w, original, driver)
    ensures NoLostUpdate(t, w, original, driver)
  {
  }

  /** The rest of a round after a conflict. */
  lemma RefetchIsSafe(s: Server, c: Claim, a: Attempt, original: Claim, driver: string)
    requires ValidServer(s) && Ready(s, c, original, driver)
    ensures var t := AfterForeignWrites(s, a.beforeGet);
            && ValidServer(t) && Extends(s, t) && Ready(t, c, original, driver)
            && (FetchFailure(t, c, a.get).None? ==> Ready(t, Rebased(t, original.devices, driver), original, driver))
            && (forall v :: v in t.past && v !in s.past ==> PutIn(a.beforeGet, t.past[v]))
  {
    var t := AfterForeignWrites(s, a.beforeGet);
    OthersKeepReady(s, a.beforeGet, c, original, driver);
    ForeignWritesAccount(s, a.beforeGet);
    if FetchFailure(t, c, a.get).None? {
      RebasedIsReady(t, original, driver);
    }
  }

  /** Every round is safe, and adds nothing to the server that is not accounted for. */
  lemma TriedIsSafe(s: Server, c: Claim, a: Attempt, original: Claim, driver: string)
    requires ValidServer(s) && Ready(s, c, original, driver)
    ensures RoundSafe(s, Tried(s, c, original.devices, driver, a), a, original, driver)
  {
    var sub := Submitted(AfterForeignWrites(s, a.beforeUpdate), c, a.update);
    SendingIsSafe(s, c, a, original, driver);
    if sub.reply == Some(Conflict) {
      RefetchIsSafe(sub.server, c, a, original, driver);
      var t := AfterForeignWrites(sub.server, a.beforeGet);
      ExtendsTransitive(s, sub.server, t);
      if sub.accepted.Some? {
        ExtendsKeepsWrite(sub.server, t, sub.accepted.value, original, driver);
      }
    }
  }

  // ----- The whole loop -----

  /** Every write that the server accepted from the loop is free of lost updates, and every
      update sent carries the claim's UID. */
  ghost predicate AllSafe(t: Server, rounds: seq<Round>, original: Claim, driver: string) {
    forall i :: 0 <= i < |rounds| ==>
      && (rounds[i].accepted.Some? ==> NoLostUpdate(t, rounds[i].accepted.value, original, driver))
      && rounds[i].sent.uid == original.uid
      && (UniqueKeys(original.devices) ==> UniqueKeys(rounds[i].sent.devices))
  }

  /** The version was accepted from the loop in some round. */
  ghost predicate OursIn(rounds: seq<Round>, c: Claim) {
    exists i :: 0 <= i < |rounds| && rounds[i].accepted.Some? && rounds[i].accepted.value.after == c
  }

  /** The version was written by another client during some round. */
  ghost predicate TheirsIn(script: nat -> Attempt, n: nat, rounds: seq<Round>, c: Claim) {
    exists k :: n <= k < n + |rounds| && PutDuring(script(k), c)
  }

  /** Nothing else was stored. */
  ghost predicate Accounted(s: Server, t: Server, script: nat -> Attempt, n: nat, rounds: seq<Round>) {
    forall v :: v in t.past && v !in s.past ==> OursIn(rounds, t.past[v]) || TheirsIn(script, n, rounds, t.past[v])
  }

  /** What a run keeps. */
  ghost predicate Kept(s: Server, rounds: seq<Round>, script: nat -> Attempt, n: nat, original: Claim, driver: string) {
    var t := After(s, rounds);
    ValidServer(t) && Extends(s, t) && AllSafe(t, rounds, original, driver) && Accounted(s, t, script, n, rounds)
  }

  /** The writes of a first round and of a safe rest. */
  lemma FirstRoundSafe(s: Server, r: Round, rest: seq<Round>, a: Attempt, t: Server, original: Claim, driver: string)
    requires RoundSafe(s, r, a, original, driver) && Extends(r.server, t) && AllSafe(t, rest, original, driver)
    ensures AllSafe(t, [r] + rest, original, driver)
  {
    var all := [r] + rest;
    assert forall i :: 0 < i < |all| ==> all[i] == rest[i - 1];
    if r.accepted.Some? {
      ExtendsKeepsWrite(r.server, t, r.accepted.value, original, driver);
    }
  }

  /** The versions of a first round and of the rest. */
  lemma FirstRoundAccounted(s: Server, r: Round, rest: seq<Round>, script: nat -> Attempt, n: nat, t: Server)
    requires RoundAccounts(s, r, script(n)) && Extends(r.server, t) && Accounted(r.server, t, script, n + 1, rest)
    ensures Accounted(s, t, script, n, [r] + rest)
  {
    var all := [r] + rest;
    forall v | v in t.past && v !in s.past
      ensures OursIn(all, t.past[v]) || TheirsIn(script, n, all, t.past[v])
    {
      if v in r.server.past {
        assert all[0] == r;
      } else if OursIn(rest, t.past[v]) {
        var i :| 0 <= i < |rest| && rest[i].accepted.Some? && rest[i].accepted.value.after == t.past[v];
        assert all[i + 1] == rest[i];
      } else {
        assert TheirsIn(script, n + 1, rest, t.past[v]);
      }
    }
  }

  /** Adding a first round to a safe rest. */
  lemma FirstRound(s: Server, r: Round, rest: seq<Round>, script: nat -> Attempt, n: nat, original: Claim,
                   driver: string)
    requires RoundSafe(s, r, script(n), original, driver) && Kept(r.server, rest, script, n + 1, original, driver)
    ensures Kept(s, [r] + rest, script, n, original, driver)
  {
    var t := After(r.server, rest);
    assert After(s, [r] + rest) == t;
    ExtendsTransitive(s, r.server, t);
    FirstRoundSafe(s, r, rest, script(n), t, original, driver);
    FirstRoundAccounted(s, r, rest, script, n, t);
  }

  lemma OnlyRound(s: Server, r: Round, script: nat -> Attempt, n: nat, original: Claim, driver: string)
    requires RoundSafe(s, r, script(n), original, driver)
    ensures Kept(s, [r], script, n, original, driver)
  {
    FirstRound(s, r, [], script, n, original, driver);
    assert [r] + [] == [r];
  }

  /** No lost update: whatever other writers, faults and cancellations do, every write that the
      server accepts changes this driver's entries into the desired ones and nothing else, and
      every version that is new is one of those writes or another client's. */
  lemma {:induction false} NoLostUpdates(s: Server, c: Claim, original: Claim, driver: string, script: nat -> Attempt,
                                         n: nat, remaining: nat)
    requires ValidServer(s) && Ready(s, c, original, driver)
    ensures Kept(s, Rounds(s, c, original.devices, driver, script, n, remaining).rounds, script, n, original, driver)
    decreases remaining
  {
    var rounds := Rounds(s, c, original.devices, driver, script, n, remaining).rounds;
    if remaining > 0 && !script(n).cancelledBefore {
      var r := Tried(s, c, original.devices, driver, script(n));
      TriedIsSafe(s, c, script(n), original, driver);
      if !r.verdict.Again? || remaining == 1 || script(n).cancelledWaiting {
        assert rounds == [r];
        OnlyRound(s, r, script, n, original, driver);
      } else {
        var left := if script(n).capReached then 0 else remaining - 1;
        var rest := Rounds(r.server, r.claim, original.devices, driver, script, n + 1, left).rounds;
        NoLostUpdates(r.server, r.claim, original, driver, script, n + 1, left);
        assert rounds == [r] + rest;
        FirstRound(s, r, rest, script, n, original, driver);
      }
    } else {
      assert rounds == [];
    }
  }

  // ----- How a run ends -----

  /** Only the last error of a run may be permanent. */
  ghost predicate Transient(errors: seq<Failure>) {
    forall i :: 0 <= i < |errors| ==> !IsPermanentStatusUpdateError(errors[i])
  }

  /** The run ends with a permanent error, its first. */
  ghost predicate StoppedBy(errors: seq<Failure>, f: Failure) {
    errors != [] && Transient(errors[..|errors| - 1]) && f == errors[|errors| - 1] && IsPermanentStatusUpdateError(f)
  }

  /** The last accepted write is what the server holds now. */
  ghost predicate Acked(s: Server, rounds: seq<Round>) {
    rounds != [] && rounds[|rounds| - 1].accepted.Some? && s.live == Some(rounds[|rounds| - 1].accepted.value.after)
  }

  /** How the backoff may end. */
  ghost predicate Ends(run: Run, t: Server) {
    var errors := Errors(run.rounds);
    && (run.result.None? ==> Transient(errors) && Acked(t, run.rounds))
    && (run.result in {Some(Timeout), Some(Cancelled)} ==> Transient(errors))
    && (run.result.Some? && run.result !in {Some(Timeout), Some(Cancelled)} ==> StoppedBy(errors, run.result.value))
    && (errors == [] && run.result.Some? ==> run.rounds == [])
  }

  lemma RoundEnds(s: Server, c: Claim, desired: Statuses, driver: string, a: Attempt)
    ensures var r := Tried(s, c, desired, driver, a);
            && (r.verdict.Acknowledged? <==> r.errors == [])
            && (r.verdict.Acknowledged? ==> Acked(r.server, [r]))
            && (r.verdict.Again? ==> Transient(r.errors))
            && (r.verdict.Stop? ==> StoppedBy(r.errors, r.verdict.failure))
            && (r.verdict.Stop? ==> !r.verdict.failure.Timeout? && !r.verdict.failure.Cancelled?)
  {
    var r := Tried(s, c, desired, driver, a);
    if r.verdict.Stop? {
      assert Transient(r.errors[..|r.errors| - 1]);
    }
  }

  lemma MoreErrors(first: seq<Failure>, rest: seq<Failure>)
    requires Transient(first)
    ensures Transient(rest) ==> Transient(first + rest)
    ensures forall f :: StoppedBy(rest, f) ==> StoppedBy(first + rest, f)
  {
    forall f | StoppedBy(rest, f)
      ensures StoppedBy(first + rest, f)
    {
      assert (first + rest)[..|first + rest| - 1] == first + rest[..|rest| - 1];
    }
  }

  /** The loop ends within its steps: acknowledged, at the first permanent error, or with only
      transient errors once the steps are used up or the context is cancelled. */
  lemma {:induction false} LoopEnds(s: Server, c: Claim, desired: Statuses, driver: string, script: nat -> Attempt,
                                    n: nat, remaining: nat)
    ensures var run := Rounds(s, c, desired, driver, script, n, remaining);
            |run.rounds| <= remaining && Ends(run, After(s, run.rounds))
    decreases remaining
  {
    if remaining > 0 && !script(n).cancelledBefore {
      var r := Tried(s, c, desired, driver, script(n));
      RoundEnds(s, c, desired, driver, script(n));
      assert [r][1..] == [] && r.errors + [] == r.errors;
      assert Errors([r]) == r.errors;
      if r.verdict.Again? && remaining > 1 && !script(n).cancelledWaiting {
        var left := if script(n).capReached then 0 else remaining - 1;
        var rest := Rounds(r.server, r.claim, desired, driver, script, n + 1, left);
        LoopEnds(r.server, r.claim, desired, driver, script, n + 1, left);
        assert ([r] + rest.rounds)[1..] == rest.rounds;
        MoreErrors(r.errors, Errors(rest.rounds));
      }
    }
  }

  /** With a live context a failed run reports the last API error seen; success means that the
      server holds the acknowledged write. */
  lemma OutcomeIsHonest(s: Server, c: Claim, desired: Statuses, driver: string, script: nat -> Attempt, steps: nat,
                        cancelledAtEnd: bool)
    ensures var run := Rounds(s, c, desired, driver, script, 0, steps);
            var result, errors := Surfaced(run, cancelledAtEnd), Errors(run.rounds);
            && (result.None? ==> Acked(After(s, run.rounds), run.rounds))
            && (result.Some? && !cancelledAtEnd && result != Some(Cancelled) ==>
                  result.value == if errors == [] then Timeout else errors[|errors| - 1])
            // it stops at the first permanent error
            && (errors != [] ==> Transient(errors[..|errors| - 1]))
  {
    LoopEnds(s, c, desired, driver, script, 0, steps);
    var errors := Errors(Rounds(s, c, desired, driver, script, 0, steps).rounds);
    if errors != [] {
      assert forall i :: 0 <= i < |errors| - 1 ==> errors[..|errors| - 1][i] == errors[i];
    }
  }

  // ----- When it succeeds -----

  /** The server would accept the update now. */
  predicate Acceptable(s: Server, c: Claim) { Refusal(s, c).None? }

  ghost predicate Present(s: Server, original: Claim) {
    s.live.Some? && s.live.value.uid == original.uid
  }

  /** An attempt without faults, cancellation or other writers. */
  predicate Quiet(a: Attempt) {
    !a.cancelledBefore && a.beforeUpdate == [] && a.update.NoFault? && a.beforeGet == [] && a.get.None? &&
    !a.capReached && !a.cancelledWaiting
  }

  /** An undisturbed attempt succeeds, or leaves a claim with which the next one will. */
  lemma QuietRound(s: Server, c: Claim, original: Claim, driver: string, a: Attempt)
    requires ValidServer(s) && Ready(s, c, original, driver) && Quiet(a)
    requires Present(s, original) && UniqueKeys(original.devices)
    ensures var r := Tried(s, c, original.devices, driver, a);
            if Acceptable(s, c) then r.verdict.Acknowledged?
            else r.verdict.Again? && r.server == s && Acceptable(s, r.claim)
  {
    RebasedIsReady(s, original, driver);
  }

  /** A stale claim needs one conflict and one merge: two undisturbed attempts suffice. */
  lemma TwoQuietRoundsSuffice(s: Server, claim: Claim, driver: string, script: nat -> Attempt, steps: nat,
                              cancelledAtEnd: bool)
    requires ValidServer(s) && EditedOwnOnly(s, claim, driver) && Present(s, claim) && UniqueKeys(claim.devices)
    requires steps >= 2 && Quiet(script(0)) && Quiet(script(1))
    ensures Surfaced(Rounds(s, claim, claim.devices, driver, script, 0, steps), cancelledAtEnd).None?
  {
    QuietRound(s, claim, claim, driver, script(0));
    var r := Tried(s, claim, claim.devices, driver, script(0));
    if !r.verdict.Acknowledged? {
      TriedIsSafe(s, claim, script(0), claim, driver);
      QuietRound(s, r.claim, claim, driver, script(1));
      assert Rounds(s, r.claim, claim.devices, driver, script, 1, steps - 1).result.None?;
    }
  }

  // ----- The operations -----

  /** Refetches after a conflict and merges the desired entries over the latest list. */
  method Refresh(s: Server, c: Claim, desired: Statuses, driver: string, get: Option<ApiError>)
    returns (c': Claim, failure: Option<Failure>)
    ensures failure == FetchFailure(s, c, get)
    ensures c' == if failure.None? then Rebased(s, desired, driver) else c
  {
    if get.Some? {
      return c, Some(Api(get.value));
    }
    if s.live.None? {
      return c, Some(Api(NotFound));
    }
    var refetched := s.live.value;
    if refetched.uid != c.uid {
      return c, Some(Replaced(c.uid, refetched.uid));
    }
    var merged := MergeDeviceStatuses(refetched.devices, desired, driver);
    return refetched.(devices := merged), None;
  }

  /** One run of the retried condition. */
  method TryOnce(s: Server, c: Claim, desired: Statuses, driver: string, a: Attempt) returns (r: Round)
    ensures r == Tried(s, c, desired, driver, a)
  {
    var sub := Submitted(AfterForeignWrites(s, a.beforeUpdate), c, a.update);
    if sub.reply.None? {
      return Round(c, sub.server, c, sub.accepted, [], Acknowledged);
    }
    if sub.reply.value == Conflict {
      var t := AfterForeignWrites(sub.server, a.beforeGet);
      var c', failure := Refresh(t, c, desired, driver, a.get);
      if failure.Some? {
        if IsPermanentStatusUpdateError(failure.value) {
          return Round(c, t, c', sub.accepted, [Api(Conflict), failure.value], Stop(failure.value));
        }
        return Round(c, t, c', sub.accepted, [Api(Conflict), failure.value], Again);
      }
      return Round(c, t, c', sub.accepted, [Api(Conflict)], Again);
    }
    var error := Api(sub.reply.value);
    if IsPermanentStatusUpdateError(error) {
      return Round(c, sub.server, c, sub.accepted, [error], Stop(error));
    }
    return Round(c, sub.server, c, sub.accepted, [error], Again);
  }

  /** The backoff loop around the attempts; `steps` bounds them. */
  method Backoff(server: Server, claim: Claim, driver: string, steps: nat, script: nat -> Attempt) returns (run: Run)
    ensures run == Rounds(server, claim, claim.devices, driver, script, 0, steps)
  {
    var s, current, remaining, n := server, claim, steps, 0;
    var rounds: seq<Round> := [];
    ghost var whole := Rounds(server, claim, claim.devices, driver, script, 0, steps);
    while remaining > 0
      invariant remaining >= 0
      invariant var rest := Rounds(s, current, claim.devices, driver, script, n, remaining);
                whole == Run(rounds + rest.rounds, rest.result)
      decreases remaining
    {
      var a := script(n);
      if a.cancelledBefore {
        return Run(rounds, Some(Cancelled));
      }
      var r := TryOnce(s, current, claim.devices, driver, a);
      ghost var before := rounds;
      rounds := rounds + [r];
      if r.verdict.Acknowledged? {
        return Run(rounds, None);
      }
      if r.verdict.Stop? {
        return Run(rounds, Some(r.verdict.failure));
      }
      if remaining == 1 {
        return Run(rounds, Some(Timeout));
      }
      if a.cancelledWaiting {
        return Run(rounds, Some(Cancelled));
      }
      s, current, n, remaining := r.server, r.claim, n + 1, if a.capReached then 0 else remaining - 1;
      ghost var rest := Rounds(s, current, claim.devices, driver, script, n, remaining).rounds;
      assert before + ([r] + rest) == rounds + rest;
    }
    return Run(rounds, Some(Timeout));
  }

  /** What a run of the loop from a fetched claim achieves. */
  lemma RetryIsSafe(server: Server, claim: Claim, driver: string, script: nat -> Attempt, steps: nat,
                    cancelledAtEnd: bool, run: Run)
    requires ValidServer(server) && EditedOwnOnly(server, claim, driver)
    requires run == Rounds(server, claim, claim.devices, driver, script, 0, steps)
    ensures AllSafe(After(server, run.rounds), run.rounds, claim, driver)
    ensures Accounted(server, After(server, run.rounds), script, 0, run.rounds)
    ensures |run.rounds| <= steps
    ensures Surfaced(run, cancelledAtEnd).None? ==> Acked(After(server, run.rounds), run.rounds)
  {
    NoLostUpdates(server, claim, claim, driver, script, 0, steps);
    LoopEnds(server, claim, claim.devices, driver, script, 0, steps);
  }

  /** The retry loop. The server ends where the rounds take it; no accepted write of the loop
      loses another driver's update, and nothing else is stored by it. */
  method UpdateClaimStatusWithRetry(server: Server, claim: Claim, driver: string, steps: nat,
                                    script: nat -> Attempt, cancelledAtEnd: bool)
    returns (result: Option<Failure>, server': Server, rounds: seq<Round>)
    requires ValidServer(server) && EditedOwnOnly(server, claim, driver)
    ensures var run := Rounds(server, claim, claim.devices, driver, script, 0, steps);
            rounds == run.rounds && server' == After(server, rounds) && result == Surfaced(run, cancelledAtEnd)
    ensures AllSafe(server', rounds, claim, driver) && Accounted(server, server', script, 0, rounds)
    ensures |rounds| <= steps
    ensures result.None? ==> Acked(server', rounds)
  {
    var run := Backoff(server, claim, driver, steps, script);
    RetryIsSafe(server, claim, driver, script, steps, cancelledAtEnd, run);
    rounds, result, server' := run.rounds, run.result, After(server, run.rounds);
    var errors := Errors(rounds);
    if result.Some? && errors != [] && !(cancelledAtEnd || result == Some(Cancelled)) {
      result := Some(errors[|errors| - 1]);
    }
  }
}
