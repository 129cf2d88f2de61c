/** Which replies end the status retry loop and which it rides out, stated over what the server
    and the environment do in each round (pkg/types/statusretry.go). */
module RetryOutcomes {
  import opened Attributes
  import opened ClaimStatus
  import opened StatusRetry

  /** The error that the caller sees last in a round, if any: the reply to the update, or after a
      conflict what the refetch finds. */
  function LastSeen(s: Server, c: Claim, a: Attempt): Option<Failure> {
    var sub := Submitted(AfterForeignWrites(s, a.beforeUpdate), c, a.update);
    if sub.reply.None? then None
    else if sub.reply != Some(Conflict) then Some(Api(sub.reply.value))
    else
      var t := AfterForeignWrites(sub.server, a.beforeGet);
      match a.get
      case Some(error) => Some(Api(error))
      case None => if t.live.None? then Some(Api(NotFound))
                   else if t.live.value.uid != c.uid then Some(Replaced(c.uid, t.live.value.uid))
                   else Some(Api(Conflict))
  }

  /** Worth another round: a conflict, and every API error without a name of its own here. */
  predicate Passing(f: Failure) { f.Api? && (f.error.Conflict? || f.error.Other?) }

  /** The state in which round `i` starts, with the claim it sends. */
  function StartOf(s: Server, c: Claim, rounds: seq<Round>, i: nat): (Server, Claim)
    requires i <= |rounds|
  {
    if i == 0 then (s, c) else (rounds[i - 1].server, rounds[i - 1].claim)
  }

  /** The context lives on, and neither the steps nor the cap are used up. */
  predicate MayGoOn(script: nat -> Attempt, n: nat, remaining: nat, i: nat) {
    i + 1 < remaining && !script(n + i).capReached && !script(n + i).cancelledWaiting &&
    !script(n + i + 1).cancelledBefore
  }

  /** What a round shows its caller last. */
  type Sight = (Server, Claim, Attempt) -> Option<Failure>

  /** The error seen in round `i`. */
  function SeenBy(sight: Sight, s: Server, c: Claim, rounds: seq<Round>, script: nat -> Attempt, n: nat,
                  i: nat): Option<Failure>
    requires i < |rounds|
  {
    var (t, d) := StartOf(s, c, rounds, i);
    sight(t, d, script(n + i))
  }

  function SeenIn(s: Server, c: Claim, rounds: seq<Round>, script: nat -> Attempt, n: nat, i: nat): Option<Failure>
    requires i < |rounds|
  {
    SeenBy(LastSeen, s, c, rounds, script, n, i)
  }

  /** A round as what it saw demands. */
  predicate Shows(r: Round, seen: Option<Failure>) {
    && (r.verdict.Acknowledged? <==> seen.None?)
    && (r.verdict.Again? <==> seen.Some? && Passing(seen.value))
    && (seen.Some? && !Passing(seen.value) ==> r.verdict == Stop(seen.value))
    && (seen.Some? ==> r.errors != [] && r.errors[|r.errors| - 1] == seen.value)
  }

  lemma SeenInRound(s: Server, c: Claim, desired: Statuses, driver: string, a: Attempt)
    ensures Shows(Tried(s, c, desired, driver, a), LastSeen(s, c, a))
  {
  }

  /** How the last round decides the backoff's result: nothing seen is success, an error that is not
      passing is the result itself, and a passing one leaves a timeout or a cancellation. */
  predicate Decided(seen: Option<Failure>, result: Option<Failure>, last: Round) {
    && (seen.None? <==> result.None?)
    && (seen.Some? && !Passing(seen.value) ==> result == seen)
    && (seen.Some? && Passing(seen.value) ==> result in {Some(Timeout), Some(Cancelled)})
    && (seen.Some? ==> last.errors != [] && last.errors[|last.errors| - 1] == seen.value)
  }

  // ----- The loop, round by round -----

  /** The runs of a loop, by server, claim, number of the next attempt and attempts left. */
  type Runs = (Server, Claim, nat, nat) -> Run

  /** The first round of a run decides whether there is another, and otherwise the result. */
  ghost predicate Begins(runs: Runs, sight: Sight, script: nat -> Attempt, s: Server, c: Claim, n: nat,
                         remaining: nat) {
    var run, seen := runs(s, c, n, remaining), sight(s, c, script(n));
    && (|run.rounds| > 1 <==>
        run.rounds != [] && seen.Some? && Passing(seen.value) && MayGoOn(script, n, remaining, 0))
    && (|run.rounds| == 1 ==> Decided(seen, run.result, run.rounds[0]))
  }

  /** The rest of a run is a run from where its first round ended. */
  ghost predicate Continues(runs: Runs, s: Server, c: Claim, n: nat, remaining: nat) {
    var run := runs(s, c, n, remaining);
    |run.rounds| <= remaining &&
    (|run.rounds| > 1 ==>
       var r := run.rounds[0]; Run(run.rounds[1..], run.result) == runs(r.server, r.claim, n + 1, remaining - 1))
  }

  /** So what is left of a run from any round on is a run. */
  lemma {:induction false} SuffixIsARun(runs: Runs, s: Server, c: Claim, n: nat, remaining: nat, i: nat)
    requires forall t, d, m, left :: Continues(runs, t, d, m, left)
    requires i < remaining && i < |runs(s, c, n, remaining).rounds|
    ensures var run := runs(s, c, n, remaining);
            var (t, d) := StartOf(s, c, run.rounds, i);
            Run(run.rounds[i..], run.result) == runs(t, d, n + i, remaining - i)
  {
    var run := runs(s, c, n, remaining);
    if i == 0 {
      assert run.rounds[0..] == run.rounds;
    } else {
      SuffixIsARun(runs, s, c, n, remaining, i - 1);
      var (t, d) := StartOf(s, c, run.rounds, i - 1);
      assert Continues(runs, t, d, n + (i - 1), remaining - (i - 1));
      assert n + (i - 1) + 1 == n + i && remaining - (i - 1) - 1 == remaining - i;
      assert run.rounds[i - 1..][1..] == run.rounds[i..];
    }
  }

  lemma EveryRoundDecides(runs: Runs, sight: Sight, script: nat -> Attempt, s: Server, c: Claim, n: nat,
                          remaining: nat, i: nat)
    requires forall t, d, m, left :: Continues(runs, t, d, m, left)
    requires forall t, d, m, left :: Begins(runs, sight, script, t, d, m, left)
    requires i < |runs(s, c, n, remaining).rounds|
    ensures var run := runs(s, c, n, remaining);
            var seen := SeenBy(sight, s, c, run.rounds, script, n, i);
            && (i + 1 < |run.rounds| <==> seen.Some? && Passing(seen.value) && MayGoOn(script, n, remaining, i))
            && (i + 1 == |run.rounds| ==> Decided(seen, run.result, run.rounds[i]))
  {
    var run := runs(s, c, n, remaining);
    assert Continues(runs, s, c, n, remaining);
    SuffixIsARun(runs, s, c, n, remaining, i);
    var (t, d) := StartOf(s, c, run.rounds, i);
    assert Begins(runs, sight, script, t, d, n + i, remaining - i);
  }

  // ----- The status retry loop -----

  ghost function RunsFor(desired: Statuses, driver: string, script: nat -> Attempt): Runs {
    (s: Server, c: Claim, n: nat, remaining: nat) => Rounds(s, c, desired, driver, script, n, remaining)
  }

  lemma FirstRoundDecides(s: Server, c: Claim, desired: Statuses, driver: string, script: nat -> Attempt, n: nat,
                          remaining: nat, run: Run)
    requires run == Rounds(s, c, desired, driver, script, n, remaining) && run.rounds != []
    ensures var seen := LastSeen(s, c, script(n));
            && (|run.rounds| > 1 <==> seen.Some? && Passing(seen.value) && MayGoOn(script, n, remaining, 0))
            && (|run.rounds| == 1 ==> Decided(seen, run.result, run.rounds[0]))
  {
    SeenInRound(s, c, desired, driver, script(n));
  }

  lemma RunsBegin(desired: Statuses, driver: string, script: nat -> Attempt, s: Server, c: Claim, n: nat,
                  remaining: nat)
    ensures Begins(RunsFor(desired, driver, script), LastSeen, script, s, c, n, remaining)
  {
    var run := Rounds(s, c, desired, driver, script, n, remaining);
    if run.rounds != [] {
      FirstRoundDecides(s, c, desired, driver, script, n, remaining, run);
    }
  }

  lemma RunsContinue(desired: Statuses, driver: string, script: nat -> Attempt, s: Server, c: Claim, n: nat,
                     remaining: nat)
    ensures Continues(RunsFor(desired, driver, script), s, c, n, remaining)
  {
    LoopEnds(s, c, desired, driver, script, n, remaining);
  }

  /** Every round decides what follows it: another round exactly when the update was answered with a
      conflict that the refetch could resolve or with any other passing error, or the refetch with a
      passing error, while steps remain and the context lives; otherwise the result. */
  lemma RoundDecides(s: Server, c: Claim, desired: Statuses, driver: string, script: nat -> Attempt, n: nat,
                     remaining: nat, run: Run, i: nat)
    requires run == Rounds(s, c, desired, driver, script, n, remaining) && i < |run.rounds|
    ensures var seen := SeenIn(s, c, run.rounds, script, n, i);
            && (i + 1 < |run.rounds| <==> seen.Some? && Passing(seen.value) && MayGoOn(script, n, remaining, i))
            && (i + 1 == |run.rounds| ==> Decided(seen, run.result, run.rounds[i]))
  {
    var runs := RunsFor(desired, driver, script);
    forall t, d, m, left
      ensures Continues(runs, t, d, m, left)
    {
      RunsContinue(desired, driver, script, t, d, m, left);
    }
    forall t, d, m, left
      ensures Begins(runs, LastSeen, script, t, d, m, left)
    {
      RunsBegin(desired, driver, script, t, d, m, left);
    }
    EveryRoundDecides(runs, LastSeen, script, s, c, n, remaining, i);
  }

  lemma {:induction false} ErrorsEndWithLast(rounds: seq<Round>)
    requires rounds != [] && rounds[|rounds| - 1].errors != []
    ensures var errors, last := Errors(rounds), rounds[|rounds| - 1].errors;
            errors != [] && errors[|errors| - 1] == last[|last| - 1]
  {
    if |rounds| > 1 {
      ErrorsEndWithLast(rounds[1..]);
    }
  }

  /** What the caller gets: success iff the last round saw no error; otherwise, with a live context,
      the error that the last round saw. An error that is not passing comes back in any case. */
  predicate Told(seen: Option<Failure>, backoff: Option<Failure>, cancelledAtEnd: bool, result: Option<Failure>) {
    && (seen.None? <==> result.None?)
    && (seen.Some? && !Passing(seen.value) ==> result == seen)
    && (seen.Some? && Passing(seen.value) ==>
          result == if cancelledAtEnd || backoff == Some(Cancelled) then backoff else seen)
  }

  lemma SurfacesLastSeen(run: Run, seen: Option<Failure>, cancelledAtEnd: bool)
    requires run.rounds != [] && Decided(seen, run.result, run.rounds[|run.rounds| - 1])
    requires seen.Some? ==> !seen.value.Timeout? && !seen.value.Cancelled?
    ensures Told(seen, run.result, cancelledAtEnd, Surfaced(run, cancelledAtEnd))
  {
    if seen.Some? {
      ErrorsEndWithLast(run.rounds);
    }
  }

  lemma CallerGetsLastSeen(s: Server, c: Claim, desired: Statuses, driver: string, script: nat -> Attempt,
                           steps: nat, run: Run, cancelledAtEnd: bool)
    requires run == Rounds(s, c, desired, driver, script, 0, steps) && run.rounds != []
    ensures Told(SeenIn(s, c, run.rounds, script, 0, |run.rounds| - 1), run.result, cancelledAtEnd,
                 Surfaced(run, cancelledAtEnd))
  {
    var seen := SeenIn(s, c, run.rounds, script, 0, |run.rounds| - 1);
    RoundDecides(s, c, desired, driver, script, 0, steps, run, |run.rounds| - 1);
    SurfacesLastSeen(run, seen, cancelledAtEnd);
  }

  // ----- Riding out transient errors -----

  predicate SameObject(ws: seq<ForeignWrite>, uid: string) {
    forall k :: 0 <= k < |ws| ==> ws[k].Put? && ws[k].uid == uid
  }

  /** An attempt that may meet other writers of the same object and any passing error, on requests
      lost as on requests applied. */
  predicate Bumpy(a: Attempt, uid: string) {
    && !a.cancelledBefore && !a.capReached && !a.cancelledWaiting
    && SameObject(a.beforeUpdate, uid) && SameObject(a.beforeGet, uid)
    && (a.update.NoFault? || Passing(Api(a.update.error)))
    && (a.get.None? || Passing(Api(a.get.value)))
  }

  lemma {:induction false} StaysPresent(s: Server, ws: seq<ForeignWrite>, original: Claim)
    requires Present(s, original) && SameObject(ws, original.uid)
    ensures Present(AfterForeignWrites(s, ws), original)
    decreases |ws|
  {
    if ws != [] {
      StaysPresent(AfterForeign(s, ws[0]), ws[1..], original);
    }
  }

  /** The claim can be sent, and its object is there. */
  ghost predicate Standing(s: Server, c: Claim, original: Claim, driver: string) {
    ValidServer(s) && Ready(s, c, original, driver) && Present(s, original) && UniqueKeys(original.devices)
  }

  /** Such a round acknowledges or goes on, with the object still there. */
  lemma BumpyRound(s: Server, c: Claim, original: Claim, driver: string, a: Attempt)
    requires Standing(s, c, original, driver) && Bumpy(a, original.uid)
    ensures var r := Tried(s, c, original.devices, driver, a); !r.verdict.Stop? && Present(r.server, original)
  {
    var t := AfterForeignWrites(s, a.beforeUpdate);
    StaysPresent(s, a.beforeUpdate, original);
    var sub := Submitted(t, c, a.update);
    assert Present(sub.server, original);
    StaysPresent(sub.server, a.beforeGet, original);
  }

  /** Two undisturbed rounds suffice from any point of the loop. */
  lemma QuietEnd(s: Server, c: Claim, original: Claim, driver: string, script: nat -> Attempt, n: nat, remaining: nat)
    requires Standing(s, c, original, driver)
    requires Quiet(script(n)) && Quiet(script(n + 1)) && 2 <= remaining
    ensures Rounds(s, c, original.devices, driver, script, n, remaining).result.None?
  {
    var r := Tried(s, c, original.devices, driver, script(n));
    QuietRound(s, c, original, driver, script(n));
    if !r.verdict.Acknowledged? {
      TriedIsSafe(s, c, script(n), original, driver);
      QuietRound(s, r.claim, original, driver, script(n + 1));
      assert Rounds(s, r.claim, original.devices, driver, script, n + 1, remaining - 1).result.None?;
    }
  }

  /** Some bumpy rounds and then two undisturbed ones. */
  ghost predicate BumpyThenQuiet(script: nat -> Attempt, n: nat, bumps: nat, uid: string) {
    && (forall i :: n <= i < n + bumps ==> Bumpy(script(i), uid))
    && Quiet(script(n + bumps)) && Quiet(script(n + bumps + 1))
  }

  /** A bumpy round succeeds, or leaves the loop where another can follow and the result is the same. */
  ghost predicate Withstands(runs: Runs, standing: (Server, Claim) -> bool, s: Server, c: Claim, n: nat,
                             remaining: nat) {
    var run := runs(s, c, n, remaining);
    standing(s, c) && remaining > 1 && run.result.Some? ==>
      && run.rounds != []
      && var r := run.rounds[0];
      standing(r.server, r.claim) && run.result == runs(r.server, r.claim, n + 1, remaining - 1).result
  }

  lemma {:induction false} BumpySteps(runs: Runs, standing: (Server, Claim) -> bool, s: Server, c: Claim, n: nat,
                                      bumps: nat, remaining: nat) returns (t: Server, d: Claim)
    requires standing(s, c) && bumps < remaining
    requires forall t, d, m, left :: n <= m < n + bumps ==> Withstands(runs, standing, t, d, m, left)
    ensures standing(t, d)
    ensures var result := runs(s, c, n, remaining).result;
            result.None? || result == runs(t, d, n + bumps, remaining - bumps).result
    decreases bumps
  {
    var run := runs(s, c, n, remaining);
    t, d := s, c;
    if bumps > 0 && run.result.Some? {
      assert Withstands(runs, standing, s, c, n, remaining);
      var r := run.rounds[0];
      t, d := BumpySteps(runs, standing, r.server, r.claim, n + 1, bumps - 1, remaining - 1);
    }
  }

  ghost function StandingFor(original: Claim, driver: string): (Server, Claim) -> bool {
    (s, c) => Standing(s, c, original, driver)
  }

  lemma RunsWithstand(original: Claim, driver: string, script: nat -> Attempt, s: Server, c: Claim, n: nat,
                      remaining: nat)
    requires Bumpy(script(n), original.uid)
    ensures Withstands(RunsFor(original.devices, driver, script), StandingFor(original, driver), s, c, n, remaining)
  {
    if Standing(s, c, original, driver) {
      TriedIsSafe(s, c, script(n), original, driver);
      BumpyRound(s, c, original, driver, script(n));
    }
  }

  lemma BumpyRun(s: Server, c: Claim, original: Claim, driver: string, script: nat -> Attempt, n: nat, bumps: nat,
                 remaining: nat, runs: Runs) returns (t: Server, d: Claim)
    requires Standing(s, c, original, driver) && bumps < remaining
    requires forall i :: n <= i < n + bumps ==> Bumpy(script(i), original.uid)
    requires runs == RunsFor(original.devices, driver, script)
    ensures Standing(t, d, original, driver)
    ensures var result := runs(s, c, n, remaining).result;
            result.None? || result == runs(t, d, n + bumps, remaining - bumps).result
  {
    var standing := StandingFor(original, driver);
    forall t, d, m, left | n <= m < n + bumps
      ensures Withstands(runs, standing, t, d, m, left)
    {
      RunsWithstand(original, driver, script, t, d, m, left);
    }
    t, d := BumpySteps(runs, standing, s, c, n, bumps, remaining);
  }

  /** Any number of rounds with passing errors and other writers, followed by two undisturbed ones
      within the steps, ends in success. */
  lemma RidesOutPassingErrors(s: Server, c: Claim, original: Claim, driver: string, script: nat -> Attempt, n: nat,
                              bumps: nat, remaining: nat)
    requires Standing(s, c, original, driver)
    requires BumpyThenQuiet(script, n, bumps, original.uid) && bumps + 2 <= remaining
    ensures Rounds(s, c, original.devices, driver, script, n, remaining).result.None?
  {
    var t, d := BumpyRun(s, c, original, driver, script, n, bumps, remaining,
                         RunsFor(original.devices, driver, script));
    QuietEnd(t, d, original, driver, script, n + bumps, remaining - bumps);
  }

  /** A server that is overloaded once: the update goes through in the second round. */
  lemma OverloadedOnce(s: Server, claim: Claim, driver: string, script: nat -> Attempt, cancelledAtEnd: bool)
    requires ValidServer(s) && s.live == Some(claim) && UniqueKeys(claim.devices)
    requires script(0) == Attempt(false, [], Dropped(Other(503)), [], None, false, false)
    requires Quiet(script(1)) && Quiet(script(2))
    ensures Surfaced(Rounds(s, claim, claim.devices, driver, script, 0, 5), cancelledAtEnd).None?
  {
    RidesOutPassingErrors(s, claim, claim, driver, script, 0, 1, 5);
  }
}
