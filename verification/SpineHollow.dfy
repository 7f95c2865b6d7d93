/** Verdicts that count without having been given, and how they lead to an unbacked publish. */
module SpineHollow {
  import opened JsText
  import opened SpineLedger
  import opened SpineExecutor
  import opened SpineAttest
  import SpineRuns

  // ---------------------------------------------------------------- what can mislead

  predicate TestsCount(e: Entry) {
    e.testGreen == Some(e.headSha)
  }

  predicate ReviewCounts(e: Entry) {
    e.reviewApproved.Some? && e.reviewApproved.value.sha == e.headSha
  }

  /** A verdict that counts at the recorded head, and that no step gave there. */
  predicate Hollow(facts: seq<Fact>, repo: string, e: Entry) {
    || (TestsCount(e) && TestsPassed(repo, e.headSha, e.headSha) !in facts)
    || (ReviewCounts(e) && Reviewed(repo, Diff(e.baseSha, e.headSha), e.reviewApproved.value.review) !in facts)
  }

  /** The actions a publish still needs, given which of the two verdicts count. */
  function Missing(e: Entry, tests: bool, review: bool): nat {
    Cost(e) + (if tests then 0 else 1) + (if review then 0 else 1)
  }

  /** The actions and worker runs that are left once whatever runs is cut short. */
  function Left(s: State): int {
    s.ledger.maxActions - Used(s)
  }

  function WorkersLeft(s: State): int {
    s.ledger.maxWorkerRuns - s.ledger.workerRunsUsed + WorkerInFlight(s)
  }

  /** With this commit checked out and nothing running: a hollow verdict can be kept to the end; or
      both verdicts count, but not for this commit; or a worker run can go back to a hollow one. */
  predicate EntryMisleads(facts: seq<Fact>, repo: string, e: Entry, head: Sha, left: int, workers: int) {
    var missing := Missing(e, TestsCount(e), ReviewCounts(e));
    if head == e.headSha then Hollow(facts, repo, e) && missing <= left
    else
      || (BothAtHead(e) && !Vouched(facts, repo, e, head) && Cost(e) <= left)
      || (Hollow(facts, repo, e) && 1 + missing <= left && 1 <= workers)
  }

  /** The running action was begun at another commit, and will count at this one; or it is about
      to publish what the verdicts were not given for. */
  predicate PendingMisleads(facts: seq<Fact>, p: Option<Pending>, repo: string, e: Entry, head: Sha, left: int) {
    match p
    case Some(Tests(r, startedAt)) =>
      && r == repo && head == e.headSha && startedAt != head && TestsPassed(repo, head, head) !in facts
      && 1 + Missing(e, true, ReviewCounts(e)) <= left
    case Some(Reviewing(r, diff)) =>
      r == repo && head == e.headSha && diff.headSha != head && 1 + Missing(e, TestsCount(e), true) <= left
    case Some(Acknowledging(r, diff)) => r == repo && !Vouched(facts, repo, e, diff.headSha)
    case Some(Confirming(r, diff)) => r == repo && !Vouched(facts, repo, e, diff.headSha)
    case _ => false
  }

  /** With this commit checked out, an unbacked publish of the repository is within reach. */
  predicate Dangerous(s: State, repo: string, head: Sha) {
    repo in s.ledger.repos &&
    var e := s.ledger.repos[repo];
    EntryMisleads(s.facts, repo, e, head, Left(s), WorkersLeft(s))
    || PendingMisleads(s.facts, s.pending, repo, e, head, Left(s))
  }

  predicate DangerIn(s: State) {
    exists repo <- s.ledger.repos :: Dangerous(s, repo, Head(s, repo))
  }

  /** Nothing unbacked was published, and nothing unbacked is within reach. */
  predicate Harmless(s: State) {
    CallsAttested(s) && !DangerIn(s)
  }

  // ---------------------------------------------------------------- what every step keeps, HEAD moves included

  /** Plans and approvals are real ones, and what waits belongs to this ticket. */
  predicate EntryKept(facts: seq<Fact>, repo: string, e: Entry) {
    && (e.plan.Some? ==> Planned(repo, e.plan.value) in facts)
    && (e.reviewApproved.Some? ==> e.reviewApproved.value.review.verdict == Approve)
  }

  predicate PendingKept(l: Ledger, p: Pending) {
    match p
    case Worker(repo) => repo in l.repos
    case Tests(repo, _) => repo in l.repos
    case Reviewing(repo, diff) => repo in l.repos && diff.baseSha == l.repos[repo].baseSha
    case Planning(repo) => repo in l.repos
    case Acknowledging(repo, diff) => CanPublish(l, repo) == Open && diff.baseSha == l.repos[repo].baseSha
    case Confirming(repo, diff) => CanPublish(l, repo) == Open && diff.baseSha == l.repos[repo].baseSha
    case Publishing(call) => call.repo in l.repos
    case Asking => true
  }

  predicate Kept(s: State) {
    && (forall repo <- s.ledger.repos :: EntryKept(s.facts, repo, s.ledger.repos[repo]))
    && (s.pending.Some? ==> PendingKept(s.ledger, s.pending.value))
  }

  lemma DispatchKeepsKept(s: State, policy: Policy, a: Action, complete: bool, touchesTests: bool, now: string)
    requires Kept(s) && Sound(s)
    ensures Kept(Dispatched(s, policy, a, complete, touchesTests, now))
  {
    hide RunAction;
    hide EntryKept;
    hide Persistable;
    DispatchKeepsFacts(s, policy, a, complete, touchesTests, now);
    if ConsumedAction(s.ledger).Some? {
      var s1 := s.(ledger := ConsumedAction(s.ledger).value);
      SpineRuns.RunActionCounts(s1, policy, a, complete, touchesTests, now);
      RunActionKeepsFacts(s1, policy, a, complete, touchesTests, now);
      if s.pending.None? {
        RunActionWaits(s1, policy, a, complete, touchesTests, now);
      }
    }
  }

  lemma RunActionWaits(s: State, policy: Policy, a: Action, complete: bool, touchesTests: bool, now: string)
    requires s.pending.None?
    ensures var t := RunAction(s, policy, a, complete, touchesTests, now);
      t.pending.Some? ==> PendingKept(t.ledger, t.pending.value)
  {
    hide OnRepo;
    if (a.RunWorker? || a.RunTests? || a.ReviewDiff? || a.PlanRepo? || a.RequestPublish?) && a.repo in s.ledger.repos {
      OnRepoWaits(s, policy, a, complete, touchesTests, now);
    }
  }

  lemma OnRepoWaits(s: State, policy: Policy, a: Action, complete: bool, touchesTests: bool, now: string)
    requires a.RunWorker? || a.RunTests? || a.ReviewDiff? || a.PlanRepo? || a.RequestPublish?
    requires a.repo in s.ledger.repos && s.pending.None?
    ensures var t := OnRepo(s, policy, a, complete, touchesTests, now);
      t.pending.Some? ==> PendingKept(t.ledger, t.pending.value)
  {
    hide StartPublish;
    if a.RequestPublish? {
      PublishWaits(s, policy, a.repo, complete, touchesTests, now);
    }
  }

  lemma PublishWaits(s: State, policy: Policy, repo: string, complete: bool, touchesTests: bool, now: string)
    requires repo in s.ledger.repos && s.pending.None?
    ensures var t := StartPublish(s, policy, repo, complete, touchesTests, now);
      t.pending.Some? ==> PendingKept(t.ledger, t.pending.value)
  {
    hide CanPublish;
  }

  lemma OneEntryKept(s: State, t: State, repo: string, e: Entry, more: seq<Fact>)
    requires Kept(s) && t.pending.None? && t.facts == s.facts + more
    requires t.ledger.repos == if repo in s.ledger.repos then s.ledger.repos[repo := e] else s.ledger.repos
    requires repo in s.ledger.repos ==> EntryKept(t.facts, repo, e)
    ensures Kept(t)
  {
  }

  lemma AnsweredKeepsKept(s: State, o: Outcome, now: string)
    requires Kept(s) && s.pending.Some? && Fits(s.pending.value, o)
    requires s.pending.value.Acknowledging? || s.pending.value.Confirming?
    ensures Kept(Resumed(s, s.pending.value, o, now))
  {
    hide EntryKept;
  }

  lemma ResumedKeepsKept(s: State, o: Outcome, now: string)
    requires Kept(s) && s.pending.Some? && Fits(s.pending.value, o)
    ensures Kept(Resumed(s, s.pending.value, o, now))
  {
    var p, t := s.pending.value, Resumed(s, s.pending.value, o, now);
    assert s.facts + [] == s.facts;
    if p.Acknowledging? || p.Confirming? {
      AnsweredKeepsKept(s, o, now);
    } else if o.Failed? || p.Asking? || o.StubPublish? {
      hide EntryKept;
    } else {
      hide CanPublish;
      hide Head;
      var repo := if p.Publishing? then p.call.repo else p.repo;
      var e := if repo in t.ledger.repos then t.ledger.repos[repo] else Entry("", "", "", None, None, None, None);
      ResumedIsSettled(s, p, o, now);
      OneEntryKept(s, t, repo, e, t.facts[|s.facts|..]);
    }
  }

  lemma StepKeepsKept(policy: Policy, s: State, e: Event)
    requires Kept(s) && Sound(s) && Enabled(s, e)
    ensures Kept(Step(policy, s, e))
  {
    hide Dispatched;
    hide Resumed;
    hide Restarted;
    hide EntryKept;
    hide Persistable;
    match e
    case Dispatch(a, complete, touchesTests, now) => DispatchKeepsKept(s, policy, a, complete, touchesTests, now);
    case Finish(o, now) => ResumedKeepsKept(s, o, now);
    case MoveHead(_, _) =>
    case Crash =>
      CrashKeeps(s);
      SpineRuns.RestartKeepsHistory(s);
  }

  // ---------------------------------------------------------------- runs

  /** A run in which every further move of HEAD is the work of a worker run that succeeds. */
  predicate Proper(policy: Policy, s: State, es: seq<Event>) {
    ValidRun(policy, s, es) && AllWellFormed(es) && HeadsAreOurs(es)
  }

  predicate HasUnbackedCall(s: State) {
    exists c <- s.calls :: !CallAttested(s.facts, c)
  }

  lemma ProperAppend(policy: Policy, s: State, xs: seq<Event>, ys: seq<Event>)
    requires Proper(policy, s, xs) && Proper(policy, After(policy, s, xs), ys)
    ensures Proper(policy, s, xs + ys) && After(policy, s, xs + ys) == After(policy, After(policy, s, xs), ys)
  {
    RunAppend(policy, s, xs, ys);
  }

  lemma {:induction false} RunAppend(policy: Policy, s: State, xs: seq<Event>, ys: seq<Event>)
    requires ValidRun(policy, s, xs) && ValidRun(policy, After(policy, s, xs), ys)
    ensures ValidRun(policy, s, xs + ys) && After(policy, s, xs + ys) == After(policy, After(policy, s, xs), ys)
    decreases |xs|
  {
    hide Step;
    hide Enabled;
    if xs == [] {
      assert xs + ys == ys;
    } else {
      assert (xs + ys)[0] == xs[0] && (xs + ys)[1..] == xs[1..] + ys;
      RunAppend(policy, Step(policy, s, xs[0]), xs[1..], ys);
    }
  }

  lemma RunOne(policy: Policy, s: State, e: Event)
    requires Enabled(s, e)
    ensures ValidRun(policy, s, [e]) && After(policy, s, [e]) == Step(policy, s, e)
  {
    hide Step;
    assert [e][1..] == [];
  }

  lemma RunTwo(policy: Policy, s: State, e: Event, f: Event)
    requires Enabled(s, e) && Enabled(Step(policy, s, e), f)
    ensures ValidRun(policy, s, [e, f]) && After(policy, s, [e, f]) == Step(policy, Step(policy, s, e), f)
  {
    hide Step;
    RunOne(policy, s, e);
    RunOne(policy, Step(policy, s, e), f);
    RunAppend(policy, s, [e], [f]);
    assert [e] + [f] == [e, f];
  }

  /** Whatever runs is cut short, and a session that has ended is restarted. */
  lemma Wake(policy: Policy, s: State) returns (es: seq<Event>)
    requires Sound(s)
    ensures Proper(policy, s, es)
    ensures var t := After(policy, s, es);
      && t.up && !t.ended && t.pending.None?
      && t.ledger == Durable(s) && t.heads == s.heads && t.facts == s.facts && t.calls == s.calls
  {
    hide Persistable;
    es := [Crash];
    CrashKeeps(s);
    SpineRuns.RestartKeepsHistory(s);
    RestartedIsAwake(s);
    RunOne(policy, s, Crash);
    assert Step(policy, s, Crash) == Restarted(s);
  }

  lemma RestartedIsAwake(s: State)
    ensures !Restarted(s).ended || !Restarted(s).up
  {
  }

  const SOME_PLAN := Plan("", ["step"], [], true)

  /** A missing plan is made. */
  lemma MakePlan(policy: Policy, s: State, repo: string) returns (es: seq<Event>)
    requires s.up && s.pending.None? && !s.ended && repo in s.ledger.repos && s.ledger.repos[repo].plan.None?
    requires s.ledger.actionsUsed < s.ledger.maxActions
    ensures Proper(policy, s, es)
    ensures var t := After(policy, s, es);
      && t.up && t.pending.None? && !t.ended && t.heads == s.heads && t.calls == s.calls
      && t.facts == s.facts + [Planned(repo, SOME_PLAN)]
      && t.ledger == PlanRecorded(s.ledger, repo, SOME_PLAN).(actionsUsed := s.ledger.actionsUsed + 1)
  {
    var e, f := Dispatch(PlanRepo(repo), true, false, ""), Finish(PlanGiven(SOME_PLAN), "");
    es := [e, f];
    RunTwo(policy, s, e, f);
  }

  /** The gate is open, and the diff of the moment is handed over. */
  lemma PublishNow(policy: Policy, s: State, repo: string) returns (es: seq<Event>)
    requires s.up && s.pending.None? && !s.ended && repo in s.ledger.repos
    requires CanPublish(s.ledger, repo) == Open && s.ledger.actionsUsed < s.ledger.maxActions
    ensures Proper(policy, s, es)
    ensures var t, e := After(policy, s, es), s.ledger.repos[repo];
      && t.facts == s.facts && e.plan.Some? && e.reviewApproved.Some?
      && t.calls == s.calls + [Call(repo, e.plan.value, e.reviewApproved.value.review, Diff(e.baseSha, Head(s, repo)))]
  {
    var e := Dispatch(RequestPublish(repo), true, false, "");
    if policy == BrokerOnly {
      es := [e];
      RunOne(policy, s, e);
    } else {
      var f := Finish(Answered(true), "");
      es := [e, f];
      RunTwo(policy, s, e, f);
    }
  }

  const APPROVING_REVIEW := Review(Approve, [], "")

  lemma PassTests(policy: Policy, s: State, repo: string) returns (es: seq<Event>)
    requires s.up && s.pending.None? && !s.ended && repo in s.ledger.repos && s.ledger.actionsUsed < s.ledger.maxActions
    ensures Proper(policy, s, es)
    ensures var t, head := After(policy, s, es), Head(s, repo);
      && t.up && t.pending.None? && !t.ended && t.heads == s.heads
      && t.facts == s.facts + [TestsPassed(repo, head, head)]
      && t.ledger == TestsRecorded(s.ledger, repo, true, head).(actionsUsed := s.ledger.actionsUsed + 1)
  {
    var e, f := Dispatch(RunTests(repo), true, false, ""), Finish(TestsRan(true), "");
    es := [e, f];
    RunTwo(policy, s, e, f);
  }

  lemma PassReview(policy: Policy, s: State, repo: string) returns (es: seq<Event>)
    requires s.up && s.pending.None? && !s.ended && repo in s.ledger.repos && s.ledger.actionsUsed < s.ledger.maxActions
    ensures Proper(policy, s, es)
    ensures var t, head := After(policy, s, es), Head(s, repo);
      && t.up && t.pending.None? && !t.ended && t.heads == s.heads
      && t.facts == s.facts + [Reviewed(repo, Diff(s.ledger.repos[repo].baseSha, head), APPROVING_REVIEW)]
      && t.ledger == ReviewRecorded(s.ledger, repo, APPROVING_REVIEW, head).(actionsUsed := s.ledger.actionsUsed + 1)
  {
    var e, f := Dispatch(ReviewDiff(repo), true, false, ""), Finish(ReviewGiven(APPROVING_REVIEW), "");
    es := [e, f];
    RunTwo(policy, s, e, f);
  }

  // ---------------------------------------------------------------- the danger is real

  /** The session waits for its next action. */
  predicate Idle(s: State) {
    s.up && s.pending.None? && !s.ended
  }

  lemma UnbackedNow(s: State, repo: string, diff: Diff)
    requires repo in s.ledger.repos && CanPublish(s.ledger, repo) == Open
      && diff.baseSha == s.ledger.repos[repo].baseSha
    requires !Vouched(s.facts, repo, s.ledger.repos[repo], diff.headSha)
    ensures var e := s.ledger.repos[repo];
      !CallAttested(s.facts, Call(repo, e.plan.value, e.reviewApproved.value.review, diff))
  {
  }

  /** Both verdicts count, but not for the commit that is checked out. */
  lemma PublishMisleads(policy: Policy, s: State, repo: string) returns (es: seq<Event>)
    requires Idle(s) && repo in s.ledger.repos && BothAtHead(s.ledger.repos[repo])
    requires !Vouched(s.facts, repo, s.ledger.repos[repo], Head(s, repo)) && Cost(s.ledger.repos[repo]) <= Left(s)
    ensures Proper(policy, s, es) && HasUnbackedCall(After(policy, s, es))
  {
    hide Step;
    es := [];
    if s.ledger.repos[repo].plan.None? {
      es := MakePlan(policy, s, repo);
    }
    var s1 := After(policy, s, es);
    UnbackedNow(s1, repo, RangeDiff(s1, repo));
    var last := PublishNow(policy, s1, repo);
    ProperAppend(policy, s, es, last);
    es := es + last;
    var t := After(policy, s, es);
    var c := t.calls[|t.calls| - 1];
    hide CallAttested;
    assert c in t.calls && !CallAttested(t.facts, c);
  }

  /** A hollow verdict at the checked-out commit stays hollow while the other one is got. */
  lemma HollowMisleads(policy: Policy, s: State, repo: string) returns (es: seq<Event>)
    requires Idle(s) && repo in s.ledger.repos && Head(s, repo) == s.ledger.repos[repo].headSha
    requires var e := s.ledger.repos[repo];
      Hollow(s.facts, repo, e) && Missing(e, TestsCount(e), ReviewCounts(e)) <= Left(s)
    ensures Proper(policy, s, es) && HasUnbackedCall(After(policy, s, es))
  {
    hide Step;
    hide HasUnbackedCall;
    es := [];
    if !TestsCount(s.ledger.repos[repo]) {
      es := PassTests(policy, s, repo);
    } else if !ReviewCounts(s.ledger.repos[repo]) {
      es := PassReview(policy, s, repo);
    }
    var s1 := After(policy, s, es);
    var last := PublishMisleads(policy, s1, repo);
    ProperAppend(policy, s, es, last);
    es := es + last;
  }

  /** A worker run ends at the recorded head, so the verdicts stay. */
  lemma GoBack(policy: Policy, s: State, repo: string) returns (es: seq<Event>)
    requires Idle(s) && repo in s.ledger.repos && s.ledger.repos[repo].headSha != "" && 1 <= Left(s)
      && 1 <= WorkersLeft(s)
    ensures Proper(policy, s, es)
    ensures var t, head := After(policy, s, es), s.ledger.repos[repo].headSha;
      && Idle(t) && Head(t, repo) == head && t.facts == s.facts && t.calls == s.calls
      && t.ledger.repos == s.ledger.repos && Left(t) == Left(s) - 1
  {
    var head := s.ledger.repos[repo].headSha;
    var e, f := Dispatch(RunWorker(repo), true, false, ""), Finish(WorkerRan(head), "");
    es := [e, f];
    RunTwo(policy, s, e, f);
  }

  lemma EntryDangerIsReal(policy: Policy, s: State, repo: string) returns (es: seq<Event>)
    requires Idle(s) && repo in s.ledger.repos && s.ledger.repos[repo].headSha != ""
    requires EntryMisleads(s.facts, repo, s.ledger.repos[repo], Head(s, repo), Left(s), WorkersLeft(s))
    ensures Proper(policy, s, es) && HasUnbackedCall(After(policy, s, es))
  {
    hide Step;
    hide HasUnbackedCall;
    hide Hollow;
    hide Vouched;
    var e := s.ledger.repos[repo];
    if Head(s, repo) == e.headSha {
      es := HollowMisleads(policy, s, repo);
    } else if BothAtHead(e) && !Vouched(s.facts, repo, e, Head(s, repo)) && Cost(e) <= Left(s) {
      es := PublishMisleads(policy, s, repo);
    } else {
      es := GoBack(policy, s, repo);
      var last := HollowMisleads(policy, After(policy, s, es), repo);
      ProperAppend(policy, s, es, last);
      es := es + last;
    }
  }

  /** A review that nobody has given yet. */
  lemma UnheardOf(facts: seq<Fact>, repo: string, diff: Diff) returns (review: Review)
    ensures review.verdict == Approve && Reviewed(repo, diff, review) !in facts
  {
    var longest := LongestSummary(facts);
    review := Review(Approve, [], longest + "!");
  }

  lemma {:induction false} LongestSummary(facts: seq<Fact>) returns (longest: string)
    ensures forall f <- facts | f.Reviewed? :: |f.review.summary| <= |longest|
  {
    if facts == [] {
      longest := "";
    } else {
      var rest := LongestSummary(facts[1..]);
      var f := facts[0];
      assert facts == [f] + facts[1..];
      longest := if f.Reviewed? && |f.review.summary| > |rest| then f.review.summary else rest;
    }
  }

  /** What runs ends well, and leaves a verdict that no step gave at the recorded head. */
  lemma PendingEndsHollow(policy: Policy, s: State, repo: string) returns (f: Event)
    requires Sound(s) && s.pending.Some? && (s.pending.value.Tests? || s.pending.value.Reviewing?) && Kept(s)
    requires repo in s.ledger.repos
    requires PendingMisleads(s.facts, s.pending, repo, s.ledger.repos[repo], Head(s, repo), Left(s))
    ensures Enabled(s, f) && WellFormed(f) && !f.MoveHead?
    ensures var t := Step(policy, s, f);
      && Idle(t) && repo in t.ledger.repos && Head(t, repo) == t.ledger.repos[repo].headSha
      && var e := t.ledger.repos[repo];
         Hollow(t.facts, repo, e) && Missing(e, TestsCount(e), ReviewCounts(e)) <= Left(t)
  {
    hide Persistable;
    if s.pending.value.Tests? {
      f := Finish(TestsRan(true), "");
    } else {
      var e := s.ledger.repos[repo];
      var review := UnheardOf(s.facts, repo, Diff(e.baseSha, e.headSha));
      f := Finish(ReviewGiven(review), "");
    }
  }

  /** The answers that let a publish through. */
  lemma Confirmed(policy: Policy, s: State, repo: string) returns (es: seq<Event>)
    requires Sound(s) && s.pending.Some? && (s.pending.value.Acknowledging? || s.pending.value.Confirming?) && Kept(s)
    requires repo in s.ledger.repos
    requires PendingMisleads(s.facts, s.pending, repo, s.ledger.repos[repo], Head(s, repo), Left(s))
    ensures Proper(policy, s, es) && HasUnbackedCall(After(policy, s, es))
  {
    hide Persistable;
    var yes := Finish(Answered(true), "");
    var diff := s.pending.value.diff;
    UnbackedNow(s, repo, diff);
    hide Vouched;
    hide CallAttested;
    if s.pending.value.Acknowledging? {
      es := [yes, yes];
      RunTwo(policy, s, yes, yes);
    } else {
      es := [yes];
      RunOne(policy, s, yes);
    }
    var t := After(policy, s, es);
    var c := t.calls[|t.calls| - 1];
    assert c in t.calls && !CallAttested(t.facts, c);
  }

  lemma DangerIsReal(policy: Policy, s: State, repo: string) returns (es: seq<Event>)
    requires Sound(s) && Kept(s) && Dangerous(s, repo, Head(s, repo))
    ensures Proper(policy, s, es) && HasUnbackedCall(After(policy, s, es))
  {
    hide Step;
    hide HasUnbackedCall;
    hide EntryMisleads;
    hide Missing;
    var e := s.ledger.repos[repo];
    if EntryMisleads(s.facts, repo, e, Head(s, repo), Left(s), WorkersLeft(s)) {
      HeadIsNamed(s, repo);
      hide Kept;
      es := Wake(policy, s);
      var t := After(policy, s, es);
      hide Sound;
      var last := EntryDangerIsReal(policy, t, repo);
      ProperAppend(policy, s, es, last);
      es := es + last;
    } else if s.pending.value.Tests? || s.pending.value.Reviewing? {
      var f := PendingEndsHollow(policy, s, repo);
      hide Sound;
      hide Kept;
      hide PendingMisleads;
      RunOne(policy, s, f);
      var last := HollowMisleads(policy, Step(policy, s, f), repo);
      es := [f];
      ProperAppend(policy, s, es, last);
      es := es + last;
    } else {
      hide Vouched;
      es := Confirmed(policy, s, repo);
    }
  }

  lemma HeadIsNamed(s: State, repo: string)
    requires Sound(s) && repo in s.ledger.repos
    ensures s.ledger.repos[repo].headSha != ""
  {
    EntryHasShape(s.ledger, repo);
    SpineRuns.ShapeNamesCommits(s.ledger.repos[repo]);
  }
}
