/** One repository through plan, implement, the bounded review-test-fix loop, and publish. */
module Orchestrator {
  import opened JsText

  datatype Outcome = Published | Declined | NotReady | Failed | Pending

  datatype RepoResult = RepoResult(outcome: Outcome, sha: Option<string>, prUrl: Option<string>, reason: Option<string>)

  /** What one turn of the loop finds: is the diff complete, does the review approve, do the tests pass. */
  datatype Round = Round(complete: bool, approved: bool, pass: bool)

  /** What publish() came back with. */
  datatype PublishReply = Pushed(sha: string, prUrl: Option<string>) | Stub | Refused(message: string)

  datatype Script = Script(
    ready: bool, planApproved: bool, rounds: nat -> Round, publishApproved: bool, publish: PublishReply)

  datatype LoopEnd = Clean(round: nat) | Incomplete(round: nat) | NotClean

  predicate IsClean(r: Round) {
    r.complete && r.approved && r.pass
  }

  /** The loop goes on after this round if a fix is left. */
  predicate NeedsFix(r: Round) {
    r.complete && !(r.approved && r.pass)
  }

  /** The loop from a round on. */
  function LoopFrom(rounds: nat -> Round, round: nat, maxFixes: nat): LoopEnd
    requires round <= maxFixes
    decreases maxFixes - round
  {
    var r := rounds(round);
    if !r.complete then Incomplete(round)
    else if r.approved && r.pass then Clean(round)
    else if round >= maxFixes then NotClean
    else LoopFrom(rounds, round + 1, maxFixes)
  }

  /** Every round from lo up to k leads to a fix. */
  ghost predicate FixedFrom(rounds: nat -> Round, lo: nat, k: nat) {
    forall j: nat | lo <= j < k :: NeedsFix(rounds(j))
  }

  lemma FixedFromStep(rounds: nat -> Round, lo: nat, k: nat)
    requires lo < k
    ensures FixedFrom(rounds, lo, k) <==> NeedsFix(rounds(lo)) && FixedFrom(rounds, lo + 1, k)
  {
    assert FixedFrom(rounds, lo, k) ==> NeedsFix(rounds(lo));
    forall j: nat | lo <= j < k && NeedsFix(rounds(lo)) && FixedFrom(rounds, lo + 1, k) ensures NeedsFix(rounds(j)) {
      assert j > lo ==> lo + 1 <= j;
    }
  }

  lemma {:induction false} LoopEndsAt(rounds: nat -> Round, round: nat, maxFixes: nat, k: nat)
    requires round <= maxFixes
    ensures LoopFrom(rounds, round, maxFixes) == Clean(k) <==>
      round <= k <= maxFixes && IsClean(rounds(k)) && FixedFrom(rounds, round, k)
    ensures LoopFrom(rounds, round, maxFixes) == Incomplete(k) <==>
      round <= k <= maxFixes && !rounds(k).complete && FixedFrom(rounds, round, k)
    ensures LoopFrom(rounds, round, maxFixes) == NotClean <==> FixedFrom(rounds, round, maxFixes + 1)
    decreases maxFixes - round
  {
    assert FixedFrom(rounds, round, round) && FixedFrom(rounds, maxFixes + 1, maxFixes + 1);
    FixedFromStep(rounds, round, maxFixes + 1);
    if round < k {
      FixedFromStep(rounds, round, k);
    }
    hide FixedFrom;
    if round < maxFixes {
      LoopEndsAt(rounds, round + 1, maxFixes, k);
    }
  }

  /** The loop ends clean at the first round that is clean, if all rounds before it could be
      reviewed and at most so many fixes were needed. */
  lemma LoopEndsAtFirst(rounds: nat -> Round, round: nat, maxFixes: nat)
    requires round <= maxFixes
    ensures forall k: nat :: LoopFrom(rounds, round, maxFixes) == Clean(k) <==>
      round <= k <= maxFixes && IsClean(rounds(k)) && FixedFrom(rounds, round, k)
    ensures forall k: nat :: LoopFrom(rounds, round, maxFixes) == Incomplete(k) <==>
      round <= k <= maxFixes && !rounds(k).complete && FixedFrom(rounds, round, k)
    ensures LoopFrom(rounds, round, maxFixes) == NotClean <==> FixedFrom(rounds, round, maxFixes + 1)
  {
    hide FixedFrom;
    hide LoopFrom;
    LoopEndsAt(rounds, round, maxFixes, 0);
    forall k: nat
      ensures LoopFrom(rounds, round, maxFixes) == Clean(k) <==>
        round <= k <= maxFixes && IsClean(rounds(k)) && FixedFrom(rounds, round, k)
      ensures LoopFrom(rounds, round, maxFixes) == Incomplete(k) <==>
        round <= k <= maxFixes && !rounds(k).complete && FixedFrom(rounds, round, k)
    {
      LoopEndsAt(rounds, round, maxFixes, k);
    }
  }

  function ResultOf(s: Script, maxFixes: nat): RepoResult {
    if !s.ready then RepoResult(NotReady, None, None, Some("plan.ready_to_implement=false"))
    else if !s.planApproved then RepoResult(Declined, None, None, Some("plan declined"))
    else
      match LoopFrom(s.rounds, 0, maxFixes)
      case Incomplete(_) => RepoResult(Failed, None, None, Some("incomplete commit-range diff (fail-closed)"))
      case NotClean => RepoResult(Failed, None, None, Some("not clean after " + Decimal(maxFixes) + " fix attempt(s)"))
      case Clean(_) =>
        if !s.publishApproved then RepoResult(Declined, None, None, Some("publish declined"))
        else
          match s.publish
          case Pushed(sha, prUrl) => RepoResult(Published, Some(sha), prUrl, None)
          case Stub => RepoResult(Published, None, None, Some("stub (BROKER_SOCKET unset) \U{2014} nothing pushed"))
          case Refused(message) => RepoResult(Failed, None, None, Some("publish failed: " + message))
  }

  // ---------------------------------------------------------------- what each outcome means

  /** Some round is clean before the fixes run out, and every round before it could be fixed. */
  ghost predicate GetsClean(s: Script, maxFixes: nat) {
    exists k: nat :: k <= maxFixes && IsClean(s.rounds(k)) && FixedFrom(s.rounds, 0, k)
  }

  ghost predicate MeetsIncomplete(s: Script, maxFixes: nat) {
    exists k: nat :: k <= maxFixes && !s.rounds(k).complete && FixedFrom(s.rounds, 0, k)
  }

  lemma LoopEndMeans(s: Script, maxFixes: nat)
    ensures LoopFrom(s.rounds, 0, maxFixes).Clean? <==> GetsClean(s, maxFixes)
    ensures LoopFrom(s.rounds, 0, maxFixes).Incomplete? <==> MeetsIncomplete(s, maxFixes)
    ensures LoopFrom(s.rounds, 0, maxFixes) == NotClean <==> FixedFrom(s.rounds, 0, maxFixes + 1)
  {
    LoopEndsAtFirst(s.rounds, 0, maxFixes);
    var end := LoopFrom(s.rounds, 0, maxFixes);
    hide LoopFrom;
    if end.Clean? {
      assert FixedFrom(s.rounds, 0, end.round);
    }
    if end.Incomplete? {
      assert FixedFrom(s.rounds, 0, end.round);
    }
    if GetsClean(s, maxFixes) {
      var k: nat :| k <= maxFixes && IsClean(s.rounds(k)) && FixedFrom(s.rounds, 0, k);
      assert end == Clean(k);
    }
    if MeetsIncomplete(s, maxFixes) {
      var k: nat :| k <= maxFixes && !s.rounds(k).complete && FixedFrom(s.rounds, 0, k);
      assert end == Incomplete(k);
    }
  }

  /** Each outcome holds exactly in its cases, and carries what its case dictates. */
  lemma OutcomeIff(s: Script, maxFixes: nat)
    ensures var r, begun, clean := ResultOf(s, maxFixes), s.ready && s.planApproved, GetsClean(s, maxFixes);
      && (r.outcome == Published <==> begun && clean && s.publishApproved && !s.publish.Refused?)
      && (r.outcome == Declined <==> s.ready && (!s.planApproved || (clean && !s.publishApproved)))
      && (r.outcome == NotReady <==> !s.ready)
      && (r.outcome == Failed <==> begun && (!clean || (s.publishApproved && s.publish.Refused?)))
    ensures var r := ResultOf(s, maxFixes);
      && (r.sha, r.prUrl) == (if r.outcome == Published && s.publish.Pushed? then (Some(s.publish.sha), s.publish.prUrl)
                              else (None, None))
      && (r.reason.None? <==> r.outcome == Published && s.publish.Pushed?)
  {
    LoopEndMeans(s, maxFixes);
    hide LoopFrom;
    hide GetsClean;
  }

  /** A failure says which of its three causes it had. */
  lemma FailureNamesItsCause(s: Script, maxFixes: nat)
    requires ResultOf(s, maxFixes).outcome == Failed
    ensures ResultOf(s, maxFixes).reason == Some(
      if MeetsIncomplete(s, maxFixes) then "incomplete commit-range diff (fail-closed)"
      else if GetsClean(s, maxFixes) && s.publish.Refused? then "publish failed: " + s.publish.message
      else "not clean after " + Decimal(maxFixes) + " fix attempt(s)")
  {
    LoopEndMeans(s, maxFixes);
    hide LoopFrom;
    hide GetsClean;
    hide MeetsIncomplete;
  }

  /** Runs one repository, counting reviews, test runs and fixes. */
  method RunOrchestrator(s: Script, maxFixes: nat)
    returns (result: RepoResult, reviews: nat, tests: nat, fixes: nat, publishedRound: Option<nat>)
    ensures result == ResultOf(s, maxFixes)
    ensures fixes <= maxFixes && reviews == tests
    ensures s.ready && s.planApproved ==> match LoopFrom(s.rounds, 0, maxFixes)
      case Clean(k) => fixes == k && reviews == fixes + 1
      case Incomplete(k) => fixes == k && reviews == fixes
      case NotClean => fixes == maxFixes && reviews == fixes + 1
    ensures !(s.ready && s.planApproved) ==> reviews == 0 && fixes == 0
    ensures publishedRound.Some? ==>
      publishedRound.value == fixes && IsClean(s.rounds(fixes)) && s.publishApproved && s.ready && s.planApproved
    ensures result.outcome == Published <==> publishedRound.Some? && !s.publish.Refused?
    ensures publishedRound.Some? <==> s.ready && s.planApproved && GetsClean(s, maxFixes) && s.publishApproved
  {
    LoopEndMeans(s, maxFixes);
    hide GetsClean;
    reviews, tests, fixes, publishedRound := 0, 0, 0, None;
    if !s.ready {
      result := RepoResult(NotReady, None, None, Some("plan.ready_to_implement=false"));
      return;
    }
    if !s.planApproved {
      result := RepoResult(Declined, None, None, Some("plan declined"));
      return;
    }
    var attempt := 0;
    while true
      invariant attempt == fixes == reviews == tests <= maxFixes
      invariant LoopFrom(s.rounds, 0, maxFixes) == LoopFrom(s.rounds, attempt, maxFixes)
      decreases maxFixes - attempt
    {
      var round := s.rounds(attempt);
      if !round.complete {
        result := RepoResult(Failed, None, None, Some("incomplete commit-range diff (fail-closed)"));
        return;
      }
      reviews := reviews + 1;
      tests := tests + 1;
      if round.approved && round.pass {
        break;
      }
      if attempt >= maxFixes {
        result := RepoResult(Failed, None, None, Some("not clean after " + Decimal(maxFixes) + " fix attempt(s)"));
        return;
      }
      attempt := attempt + 1;
      fixes := fixes + 1;
    }
    if !s.publishApproved {
      result := RepoResult(Declined, None, None, Some("publish declined"));
      return;
    }
    publishedRound := Some(attempt);
    match s.publish {
      case Pushed(sha, prUrl) => result := RepoResult(Published, Some(sha), prUrl, None);
      case Stub => result :=
        RepoResult(Published, None, None, Some("stub (BROKER_SOCKET unset) \U{2014} nothing pushed"));
      case Refused(message) => result := RepoResult(Failed, None, None, Some("publish failed: " + message));
    }
  }
}
