/** What the human was asked, and answered, before each call to publish(). */
module SpineAnswers {
  import opened JsText
  import opened SpineLedger
  import opened SpineExecutor
  import opened SpineHollow
  import SpineDanger
  import SpineRuns

  // ---------------------------------------------------------------- one step

  /** A yes to the final question. */
  predicate FinalYes(s: State, e: Event) {
    e.Finish? && e.outcome == Answered(true) && s.pending.Some? && s.pending.value.Confirming?
  }

  /** A publish action that its gate lets through, with a complete diff and a unit of the budget. */
  predicate Requests(s: State, e: Event) {
    && e.Dispatch? && e.action.RequestPublish? && e.complete
    && !s.ended && s.pending.None? && s.ledger.actionsUsed < s.ledger.maxActions
    && CanPublish(s.ledger, e.action.repo) == Open
  }

  /** publish() is called for this diff, with the plan and the review on record. */
  predicate Calls(s: State, t: State, repo: string, diff: Diff) {
    && repo in s.ledger.repos
    && var e := s.ledger.repos[repo];
       && e.plan.Some? && e.reviewApproved.Some?
       && t.calls == s.calls + [Call(repo, e.plan.value, e.reviewApproved.value.review, diff)]
  }

  lemma CallPublishCalls(s: State, repo: string, diff: Diff, now: string)
    requires CanPublish(s.ledger, repo) == Open
    ensures Calls(s, CallPublish(s, repo, diff, now), repo, diff)
    ensures CallPublish(s, repo, diff, now).pending.Some? && CallPublish(s, repo, diff, now).pending.value.Publishing?
  {
  }

  /** A request is answered with the question its policy asks, or with the call itself. */
  lemma RequestAsks(policy: Policy, s: State, e: Event)
    requires Enabled(s, e) && Requests(s, e)
    ensures e.action.repo in s.ledger.repos
    ensures var (t, repo) := (Step(policy, s, e), e.action.repo);
      var diff := RangeDiff(s, repo);
      match policy
      case BrokerOnly => Calls(s, t, repo, diff) && t.pending.Some? && t.pending.value.Publishing?
      case InChat =>
        t.calls == s.calls
          && t.pending == Some(if e.touchesTests then Acknowledging(repo, diff) else Confirming(repo, diff))
  {
    var l := ConsumedAction(s.ledger).value;
    if policy == BrokerOnly {
      CallPublishCalls(s.(ledger := l), e.action.repo, RangeDiff(s, e.action.repo), e.now);
    }
    hide CallPublish;
  }

  lemma OtherDispatchAsksNothing(policy: Policy, s: State, e: Event)
    requires Enabled(s, e) && e.Dispatch? && !Requests(s, e)
    ensures var t := Step(policy, s, e);
      && t.calls == s.calls
      && (t.pending.Some? && t.pending != s.pending ==> !t.pending.value.Acknowledging? && !t.pending.value.Confirming?)
  {
    if e.action.RequestPublish? && ConsumedAction(s.ledger).Some? {
      GateReadsEntries(s.ledger, ConsumedAction(s.ledger).value, e.action.repo);
    }
    hide CanPublish;
    hide CallPublish;
    hide ConsumedWorkerRun;
  }

  lemma GateReadsEntries(l: Ledger, l': Ledger, repo: string)
    requires l'.repos == l.repos
    ensures CanPublish(l', repo) == CanPublish(l, repo)
  {
  }

  /** What an answer does. A yes to the caveat leads to the final question, a yes to that one to
      the call; any other answer ends the matter. */
  lemma AnswerDecides(policy: Policy, s: State, e: Event)
    requires Kept(s) && Enabled(s, e) && e.Finish? && s.pending.Some?
    requires s.pending.value.Acknowledging? || s.pending.value.Confirming?
    ensures var (t, repo, diff) := (Step(policy, s, e), s.pending.value.repo, s.pending.value.diff);
      && (e.outcome == Answered(true) && s.pending.value.Acknowledging? ==>
           t.calls == s.calls && t.pending == Some(Confirming(repo, diff)))
      && (e.outcome == Answered(true) && s.pending.value.Confirming? ==>
           Calls(s, t, repo, diff) && t.pending.Some? && t.pending.value.Publishing?)
      && (e.outcome != Answered(true) ==>
           && t.calls == s.calls && t.ledger == s.ledger && t.pending.None?
           && t.reply == if e.outcome.Failed? then Threw else Refused(PublishDeclined))
  {
    if e.outcome == Answered(true) && s.pending.value.Confirming? {
      CallPublishCalls(s, s.pending.value.repo, s.pending.value.diff, e.now);
    }
    hide CallPublish;
    hide CanPublish;
  }

  lemma OtherFinishAsksNothing(policy: Policy, s: State, e: Event)
    requires Enabled(s, e) && e.Finish? && s.pending.Some?
    requires !s.pending.value.Acknowledging? && !s.pending.value.Confirming?
    ensures Step(policy, s, e).calls == s.calls && Step(policy, s, e).pending.None?
  {
    hide WorkerRunRecorded;
    hide TestsRecorded;
    hide ReviewRecorded;
    hide PlanRecorded;
    hide PublishRecorded;
  }

  /** publish() is called exactly by a yes to the final question or, where the broker alone asks, by
      a request whose gate is open; and then exactly once. */
  lemma CallIff(policy: Policy, s: State, e: Event)
    requires Kept(s) && Enabled(s, e)
    ensures var (t, calls) := (Step(policy, s, e), FinalYes(s, e) || (policy == BrokerOnly && Requests(s, e)));
      && (t.calls != s.calls <==> calls)
      && (calls ==> |t.calls| == |s.calls| + 1 && t.calls[..|s.calls|] == s.calls)
  {
    match e
    case Dispatch(_, _, _, _) =>
      if Requests(s, e) { RequestAsks(policy, s, e); } else { OtherDispatchAsksNothing(policy, s, e); }
    case Finish(_, _) =>
      hide Kept;
      if s.pending.value.Acknowledging? || s.pending.value.Confirming? {
        AnswerDecides(policy, s, e);
      } else {
        OtherFinishAsksNothing(policy, s, e);
      }
    case MoveHead(_, _) =>
    case Crash => SpineRuns.RestartKeepsHistory(s);
  }

  /** The gate names the first thing that is missing, and opens when nothing is. */
  lemma GateNamesWhatIsMissing(l: Ledger, repo: string)
    requires repo in l.repos
    ensures var (e, gate) := (l.repos[repo], CanPublish(l, repo));
      && (gate == Open <==>
           && e.plan.Some? && e.testGreen == Some(e.headSha)
           && e.reviewApproved.Some? && e.reviewApproved.value.sha == e.headSha)
      && (gate == NoPlan <==> e.plan.None?)
      && (gate == NoGreenTests <==> e.plan.Some? && e.testGreen.None?)
      && (gate == StaleTests <==> e.plan.Some? && e.testGreen.Some? && e.testGreen != Some(e.headSha))
      && (gate == NoApproval <==> e.plan.Some? && e.testGreen == Some(e.headSha) && e.reviewApproved.None?)
      && gate != UnknownRepo
  {
  }

  // ---------------------------------------------------------------- whole runs

  predicate Yes(e: Event) {
    e.Finish? && e.outcome == Answered(true)
  }

  /** Nothing that the running action waits for happens from lo to hi. */
  predicate Quiet(es: seq<Event>, lo: int, hi: int) {
    forall k | 0 <= lo <= k < hi <= |es| :: es[k].Dispatch? || es[k].MoveHead?
  }

  /** The d-th event asked to publish this repository, and its range diff was this one then. */
  ghost predicate AskedFor(policy: Policy, s: State, es: seq<Event>, d: nat, repo: string, diff: Diff) {
    && d < |es| && es[d].Dispatch? && es[d].action == RequestPublish(repo) && es[d].complete
    && ValidRun(policy, s, es[..d])
    && var u := After(policy, s, es[..d]);
       repo in u.ledger.repos && CanPublish(u.ledger, repo) == Open && diff == RangeDiff(u, repo)
  }

  /** The caveat about tests is the open question. */
  ghost predicate CaveatOpen(policy: Policy, s: State, es: seq<Event>, repo: string, diff: Diff) {
    exists d: nat :: AskedFor(policy, s, es, d, repo, diff) && es[d].touchesTests && Quiet(es, d + 1, |es|)
  }

  /** The final question is open; where the change touches tests, the caveat was acknowledged. */
  ghost predicate FinalOpen(policy: Policy, s: State, es: seq<Event>, repo: string, diff: Diff) {
    exists d: nat :: AskedFor(policy, s, es, d, repo, diff) && FinalSince(es, d)
  }

  ghost predicate FinalSince(es: seq<Event>, d: nat)
    requires d < |es| && es[d].Dispatch?
  {
    if es[d].touchesTests then
      exists g: nat :: d < g < |es| && Yes(es[g]) && Quiet(es, d + 1, g) && Quiet(es, g + 1, |es|)
    else Quiet(es, d + 1, |es|)
  }

  ghost predicate QuestionMatches(policy: Policy, s: State, es: seq<Event>, p: Option<Pending>) {
    match p
    case Some(Acknowledging(repo, diff)) => CaveatOpen(policy, s, es, repo, diff)
    case Some(Confirming(repo, diff)) => FinalOpen(policy, s, es, repo, diff)
    case _ => true
  }

  lemma AskedStays(policy: Policy, s: State, es: seq<Event>, e: Event, d: nat, repo: string, diff: Diff)
    requires AskedFor(policy, s, es, d, repo, diff)
    ensures AskedFor(policy, s, es + [e], d, repo, diff) && (es + [e])[d] == es[d]
  {
    assert (es + [e])[..d] == es[..d];
    hide ValidRun;
    hide After;
    hide CanPublish;
  }

  lemma QuietStays(es: seq<Event>, e: Event, lo: int)
    requires Quiet(es, lo, |es|) && (e.Dispatch? || e.MoveHead?)
    ensures Quiet(es + [e], lo, |es| + 1)
  {
  }

  lemma QuietWithin(es: seq<Event>, e: Event, lo: int, hi: int)
    requires Quiet(es, lo, hi) && hi <= |es|
    ensures Quiet(es + [e], lo, hi)
  {
  }

  lemma CaveatStays(policy: Policy, s: State, es: seq<Event>, e: Event, repo: string, diff: Diff)
    requires CaveatOpen(policy, s, es, repo, diff) && (e.Dispatch? || e.MoveHead?)
    ensures CaveatOpen(policy, s, es + [e], repo, diff)
  {
    var d: nat :| AskedFor(policy, s, es, d, repo, diff) && es[d].touchesTests && Quiet(es, d + 1, |es|);
    hide AskedFor;
    hide Quiet;
    AskedStays(policy, s, es, e, d, repo, diff);
    QuietStays(es, e, d + 1);
  }

  lemma FinalStays(policy: Policy, s: State, es: seq<Event>, e: Event, repo: string, diff: Diff)
    requires FinalOpen(policy, s, es, repo, diff) && (e.Dispatch? || e.MoveHead?)
    ensures FinalOpen(policy, s, es + [e], repo, diff)
  {
    var d: nat :| AskedFor(policy, s, es, d, repo, diff) && FinalSince(es, d);
    AskedStays(policy, s, es, e, d, repo, diff);
    hide AskedFor;
    hide Quiet;
    if es[d].touchesTests {
      var g: nat :| d < g < |es| && Yes(es[g]) && Quiet(es, d + 1, g) && Quiet(es, g + 1, |es|);
      QuietWithin(es, e, d + 1, g);
      QuietStays(es, e, g + 1);
      assert (es + [e])[g] == es[g];
    } else {
      QuietStays(es, e, d + 1);
    }
  }

  lemma CaveatAcknowledged(policy: Policy, s: State, es: seq<Event>, e: Event, repo: string, diff: Diff)
    requires CaveatOpen(policy, s, es, repo, diff) && Yes(e)
    ensures FinalOpen(policy, s, es + [e], repo, diff)
  {
    var d: nat :| AskedFor(policy, s, es, d, repo, diff) && es[d].touchesTests && Quiet(es, d + 1, |es|);
    AskedStays(policy, s, es, e, d, repo, diff);
    hide AskedFor;
    QuietWithin(es, e, d + 1, |es|);
    assert (es + [e])[|es|] == e;
  }

  lemma RequestOpens(policy: Policy, s: State, es: seq<Event>, e: Event)
    requires ValidRun(policy, s, es) && Enabled(After(policy, s, es), e) && Requests(After(policy, s, es), e)
    ensures e.action.repo in After(policy, s, es).ledger.repos
    ensures var (repo, diff) := (e.action.repo, RangeDiff(After(policy, s, es), e.action.repo));
      if e.touchesTests then CaveatOpen(policy, s, es + [e], repo, diff) else FinalOpen(policy, s, es + [e], repo, diff)
  {
    var repo, d := e.action.repo, |es|;
    assert (es + [e])[..d] == es && (es + [e])[d] == e;
    hide After;
    hide ValidRun;
    assert repo in After(policy, s, es).ledger.repos by { GateKnows(After(policy, s, es).ledger, repo); }
    assert AskedFor(policy, s, es + [e], d, repo, RangeDiff(After(policy, s, es), repo));
    hide AskedFor;
    assert Quiet(es + [e], d + 1, |es + [e]|);
  }

  lemma GateKnows(l: Ledger, repo: string)
    requires CanPublish(l, repo) == Open
    ensures repo in l.repos
  {
  }

  lemma StepKeepsQuestion(s: State, es: seq<Event>, e: Event)
    requires ValidRun(InChat, s, es) && Kept(After(InChat, s, es)) && Enabled(After(InChat, s, es), e)
    requires QuestionMatches(InChat, s, es, After(InChat, s, es).pending)
    ensures QuestionMatches(InChat, s, es + [e], Step(InChat, After(InChat, s, es), e).pending)
  {
    hide After;
    hide ValidRun;
    hide Kept;
    hide CaveatOpen;
    hide FinalOpen;
    hide Requests;
    var u := After(InChat, s, es);
    var t := Step(InChat, u, e);
    match e
    case Dispatch(_, _, _, _) =>
      if Requests(u, e) {
        RequestOpens(InChat, s, es, e);
        RequestAsks(InChat, u, e);
      } else {
        OtherDispatchAsksNothing(InChat, u, e);
        QuestionStays(s, es, e, u.pending);
      }
    case MoveHead(_, _) => QuestionStays(s, es, e, u.pending);
    case Finish(_, _) =>
      if u.pending.value.Acknowledging? || u.pending.value.Confirming? {
        AnswerDecides(InChat, u, e);
        if Yes(e) && u.pending.value.Acknowledging? {
          CaveatAcknowledged(InChat, s, es, e, u.pending.value.repo, u.pending.value.diff);
        }
      } else {
        OtherFinishAsksNothing(InChat, u, e);
      }
    case Crash => SpineRuns.RestartKeepsHistory(u);
  }

  lemma QuestionStays(s: State, es: seq<Event>, e: Event, p: Option<Pending>)
    requires QuestionMatches(InChat, s, es, p) && (e.Dispatch? || e.MoveHead?)
    ensures QuestionMatches(InChat, s, es + [e], p)
  {
    hide CaveatOpen;
    hide FinalOpen;
    match p
    case Some(Acknowledging(repo, diff)) => CaveatStays(InChat, s, es, e, repo, diff);
    case Some(Confirming(repo, diff)) => FinalStays(InChat, s, es, e, repo, diff);
    case _ =>
  }

  lemma {:induction false} RunSplits(policy: Policy, s: State, xs: seq<Event>, e: Event)
    ensures ValidRun(policy, s, xs + [e]) <==> ValidRun(policy, s, xs) && Enabled(After(policy, s, xs), e)
    ensures ValidRun(policy, s, xs + [e]) ==> After(policy, s, xs + [e]) == Step(policy, After(policy, s, xs), e)
    decreases |xs|
  {
    hide Step;
    hide Enabled;
    if xs == [] {
      assert xs + [e] == [e] && [e][1..] == [];
    } else {
      assert (xs + [e])[0] == xs[0] && (xs + [e])[1..] == xs[1..] + [e];
      if Enabled(s, xs[0]) {
        RunSplits(policy, Step(policy, s, xs[0]), xs[1..], e);
      }
    }
  }

  lemma LastEvent(policy: Policy, s: State, es: seq<Event>)
    requires es != [] && ValidRun(policy, s, es)
    ensures var front := es[..|es| - 1];
      && ValidRun(policy, s, front) && Enabled(After(policy, s, front), es[|es| - 1])
      && After(policy, s, es) == Step(policy, After(policy, s, front), es[|es| - 1])
      && es == front + [es[|es| - 1]]
  {
    assert es == es[..|es| - 1] + [es[|es| - 1]];
    RunSplits(policy, s, es[..|es| - 1], es[|es| - 1]);
  }

  lemma {:induction false} QuestionAlwaysMatches(s: State, es: seq<Event>)
    requires Prepared(s) && Persistable(s.ledger) && ValidRun(InChat, s, es) && AllWellFormed(es)
    ensures QuestionMatches(InChat, s, es, After(InChat, s, es).pending) && Kept(After(InChat, s, es))
    decreases |es|
  {
    SpineRuns.PreparedIsSound(s);
    SpineDanger.PreparedIsHarmless(s);
    hide Sound;
    hide Kept;
    SpineDanger.RunKeepsKept(InChat, s, es);
    if es != [] {
      var front, e := es[..|es| - 1], es[|es| - 1];
      LastEvent(InChat, s, es);
      hide Prepared;
      hide QuestionMatches;
      hide ValidRun;
      hide After;
      QuestionAlwaysMatches(s, front);
      StepKeepsQuestion(s, front, e);
    }
  }

  /** In chat, every call in every run was made by a yes to the final question about the very diff
      of a request of that repository; where the change touches tests, a yes to the caveat came
      first; nothing else was answered in between. Different calls have different answers. */
  lemma {:induction false} EveryCallWasConfirmed(s: State, es: seq<Event>, n: nat) returns (f: nat)
    requires Prepared(s) && Persistable(s.ledger) && ValidRun(InChat, s, es) && AllWellFormed(es)
    requires n < |After(InChat, s, es).calls|
    ensures f < |es| && Yes(es[f]) && ValidRun(InChat, s, es[..f]) && |After(InChat, s, es[..f]).calls| == n
    ensures var c := After(InChat, s, es).calls[n]; FinalOpen(InChat, s, es[..f], c.repo, c.diff)
    decreases |es|
  {
    var u := After(InChat, s, es);
    if es == [] {
      assert false;
    } else {
      var front, e := es[..|es| - 1], es[|es| - 1];
      LastEvent(InChat, s, es);
      hide ValidRun;
      hide FinalOpen;
      var v := After(InChat, s, front);
      hide After;
      QuestionAlwaysMatches(s, front);
      CallIff(InChat, v, e);
      if n < |v.calls| {
        f := EveryCallWasConfirmed(s, front, n);
        assert front[..f] == es[..f] && front[f] == es[f] && u.calls[n] == v.calls[n];
      } else {
        f := |front|;
        AnswerDecides(InChat, v, e);
        hide Step;
        hide Prepared;
        hide Kept;
      }
    }
  }

  predicate NoQuestion(s: State) {
    s.pending.Some? ==> !s.pending.value.Acknowledging? && !s.pending.value.Confirming?
  }

  /** Where the broker alone asks, nothing is ever asked here. */
  lemma {:induction false} BrokerOnlyNeverAsks(s: State, es: seq<Event>)
    requires NoQuestion(s) && ValidRun(BrokerOnly, s, es)
    ensures NoQuestion(After(BrokerOnly, s, es))
    decreases |es|
  {
    if es != [] {
      BrokerStepAsksNothing(s, es[0]);
      hide Step;
      hide Enabled;
      BrokerOnlyNeverAsks(Step(BrokerOnly, s, es[0]), es[1..]);
    }
  }

  lemma BrokerStepAsksNothing(s: State, e: Event)
    requires NoQuestion(s) && Enabled(s, e)
    ensures NoQuestion(Step(BrokerOnly, s, e))
  {
    match e
    case Dispatch(_, _, _, _) =>
      if Requests(s, e) { RequestAsks(BrokerOnly, s, e); } else { OtherDispatchAsksNothing(BrokerOnly, s, e); }
      hide Step;
    case Finish(_, _) =>
      OtherFinishAsksNothing(BrokerOnly, s, e);
      hide Step;
    case MoveHead(_, _) =>
    case Crash => SpineRuns.RestartKeepsHistory(s);
  }
}
