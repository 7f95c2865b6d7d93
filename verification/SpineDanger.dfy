/** Exactly when a HEAD that moves by other hands lets an unbacked publish through. */
module SpineDanger {
  import opened JsText
  import opened SpineLedger
  import opened SpineExecutor
  import opened SpineAttest
  import opened SpineHollow
  import SpineRuns

  // ---------------------------------------------------------------- the danger is complete

  /** The same entry and head, perhaps more facts and fewer actions left. */
  lemma EntryStaysHarmless(
    facts: seq<Fact>, more: seq<Fact>, repo: string, e: Entry, head: Sha,
    left: int, left': int, workers: int, workers': int)
    requires left' <= left && workers' <= workers
    ensures EntryMisleads(facts + more, repo, e, head, left', workers') ==>
      EntryMisleads(facts, repo, e, head, left, workers)
  {
  }

  /** No other repository has anything waiting. */
  predicate WaitsElsewhere(p: Option<Pending>, repo: string) {
    match p
    case Some(Tests(r, _)) => r != repo
    case Some(Reviewing(r, _)) => r != repo
    case Some(Acknowledging(r, _)) => r != repo
    case Some(Confirming(r, _)) => r != repo
    case _ => true
  }

  /** Budgets only shrink, facts only grow. */
  predicate Later(s: State, t: State, more: seq<Fact>) {
    && t.facts == s.facts + more && Left(t) <= Left(s) && WorkersLeft(t) <= WorkersLeft(s)
  }

  /** One entry is recorded anew, and the step is over. */
  lemma OneEntrySettles(s: State, t: State, repo: string, e: Entry, more: seq<Fact>)
    requires Harmless(s) && Later(s, t, more) && repo in s.ledger.repos
    requires t.ledger.repos == s.ledger.repos[repo := e] && t.calls == s.calls && t.pending.None?
    requires forall other | other != repo :: Head(t, other) == Head(s, other)
    requires !EntryMisleads(t.facts, repo, e, Head(t, repo), Left(t), WorkersLeft(t))
    ensures Harmless(t)
  {
    hide EntryMisleads;
    hide CallAttested;
    forall r <- t.ledger.repos ensures !Dangerous(t, r, Head(t, r)) {
      if r != repo {
        var x := s.ledger.repos[r];
        assert !Dangerous(s, r, Head(s, r));
        EntryStaysHarmless(s.facts, more, r, x, Head(s, r), Left(s), Left(t), WorkersLeft(s), WorkersLeft(t));
      }
    }
    forall c <- t.calls ensures CallAttested(t.facts, c) {
      CallsGrow(s.facts, more, c);
    }
  }

  /** The same entries, and nothing dangerous that waits. */
  lemma EntriesStayHarmless(s: State, t: State)
    requires Harmless(s) && Later(s, t, []) && t.ledger.repos == s.ledger.repos && t.heads == s.heads
    requires CallsAttested(t)
    requires forall repo <- t.ledger.repos ::
      !PendingMisleads(t.facts, t.pending, repo, t.ledger.repos[repo], Head(t, repo), Left(t))
    ensures Harmless(t)
  {
    hide EntryMisleads;
    hide PendingMisleads;
    hide CallAttested;
    assert s.facts + [] == s.facts;
    forall r <- t.ledger.repos ensures !Dangerous(t, r, Head(t, r)) {
      assert !Dangerous(s, r, Head(s, r));
      var e := s.ledger.repos[r];
      EntryStaysHarmless(s.facts, [], r, e, Head(s, r), Left(s), Left(t), WorkersLeft(s), WorkersLeft(t));
    }
  }

  /** A worker run keeps the verdicts only by going to the head they count at. */
  lemma WorkerEntryStaysHarmless(facts: seq<Fact>, repo: string, e: Entry, head: Sha, sha: Sha, left: int, workers: int)
    requires !EntryMisleads(facts, repo, e, head, left, workers) && 1 <= workers
    ensures !EntryMisleads(facts, repo, AfterWorkerRun(e, sha), sha, left - 1, workers - 1)
  {
  }

  lemma TestsEntryStaysHarmless(
    facts: seq<Fact>, repo: string, e: Entry, head: Sha, startedAt: Sha, pass: bool, left: int, workers: int)
    requires !EntryMisleads(facts, repo, e, head, left, workers)
    requires !PendingMisleads(facts, Some(Tests(repo, startedAt)), repo, e, head, left)
    ensures var more := if pass then [TestsPassed(repo, startedAt, head)] else [];
      !EntryMisleads(facts + more, repo, AfterTests(e, pass, head), head, left - 1, workers)
  {
  }

  lemma ReviewEntryStaysHarmless(
    facts: seq<Fact>, repo: string, e: Entry, head: Sha, diff: Diff, review: Review, left: int, workers: int)
    requires !EntryMisleads(facts, repo, e, head, left, workers) && diff.baseSha == e.baseSha
    requires !PendingMisleads(facts, Some(Reviewing(repo, diff)), repo, e, head, left)
    ensures var more := [Reviewed(repo, diff, review)];
      !EntryMisleads(facts + more, repo, AfterReview(e, review, head), head, left - 1, workers)
  {
  }

  lemma PlanEntryStaysHarmless(facts: seq<Fact>, repo: string, e: Entry, head: Sha, plan: Plan, left: int, workers: int)
    requires !EntryMisleads(facts, repo, e, head, left, workers)
    ensures !EntryMisleads(facts + [Planned(repo, plan)], repo, e.(plan := Some(plan)), head, left - 1, workers)
  {
  }

  lemma EntryIsHarmless(s: State, repo: string)
    requires Harmless(s) && repo in s.ledger.repos
    ensures var e := s.ledger.repos[repo];
      && !EntryMisleads(s.facts, repo, e, Head(s, repo), Left(s), WorkersLeft(s))
      && !PendingMisleads(s.facts, s.pending, repo, e, Head(s, repo), Left(s))
  {
    hide CallsAttested;
    assert !Dangerous(s, repo, Head(s, repo));
  }

  lemma WorkerEndsHarmless(s: State, repo: string, sha: Sha, now: string)
    requires Harmless(s) && Kept(s) && Sound(s) && s.pending == Some(Worker(repo))
    ensures Harmless(Resumed(s, Worker(repo), WorkerRan(sha), now))
  {
    var e, t := s.ledger.repos[repo], Resumed(s, Worker(repo), WorkerRan(sha), now);
    EntryIsHarmless(s, repo);
    hide Harmless;
    hide Persistable;
    hide EntryMisleads;
    hide AfterWorkerRun;
    WorkerEntryStaysHarmless(s.facts, repo, e, Head(s, repo), sha, Left(s), WorkersLeft(s));
    assert s.facts + [] == s.facts;
    OneEntrySettles(s, t, repo, AfterWorkerRun(e, sha), []);
  }

  lemma TestsEndHarmless(s: State, repo: string, startedAt: Sha, pass: bool, now: string)
    requires Harmless(s) && Kept(s) && Sound(s) && s.pending == Some(Tests(repo, startedAt))
    ensures Harmless(Resumed(s, Tests(repo, startedAt), TestsRan(pass), now))
  {
    var e, head, t := s.ledger.repos[repo], Head(s, repo), Resumed(s, Tests(repo, startedAt), TestsRan(pass), now);
    var more := if pass then [TestsPassed(repo, startedAt, head)] else [];
    EntryIsHarmless(s, repo);
    hide Harmless;
    hide Persistable;
    hide EntryMisleads;
    hide PendingMisleads;
    hide AfterTests;
    TestsEntryStaysHarmless(s.facts, repo, e, head, startedAt, pass, Left(s), WorkersLeft(s));
    assert t.facts == s.facts + more;
    OneEntrySettles(s, t, repo, AfterTests(e, pass, head), more);
  }

  lemma ReviewEndsHarmless(s: State, repo: string, diff: Diff, review: Review, now: string)
    requires Harmless(s) && Kept(s) && Sound(s) && s.pending == Some(Reviewing(repo, diff))
    ensures Harmless(Resumed(s, Reviewing(repo, diff), ReviewGiven(review), now))
  {
    var e, head, t := s.ledger.repos[repo], Head(s, repo), Resumed(s, Reviewing(repo, diff), ReviewGiven(review), now);
    EntryIsHarmless(s, repo);
    hide Harmless;
    hide Persistable;
    hide EntryMisleads;
    hide PendingMisleads;
    hide AfterReview;
    ReviewEntryStaysHarmless(s.facts, repo, e, head, diff, review, Left(s), WorkersLeft(s));
    OneEntrySettles(s, t, repo, AfterReview(e, review, head), [Reviewed(repo, diff, review)]);
  }

  lemma PlanEndsHarmless(s: State, repo: string, plan: Plan, now: string)
    requires Harmless(s) && Kept(s) && Sound(s) && s.pending == Some(Planning(repo))
    ensures Harmless(Resumed(s, Planning(repo), PlanGiven(plan), now))
  {
    var e, t := s.ledger.repos[repo], Resumed(s, Planning(repo), PlanGiven(plan), now);
    EntryIsHarmless(s, repo);
    hide Harmless;
    hide Persistable;
    hide EntryMisleads;
    PlanEntryStaysHarmless(s.facts, repo, e, Head(s, repo), plan, Left(s), WorkersLeft(s));
    OneEntrySettles(s, t, repo, e.(plan := Some(plan)), [Planned(repo, plan)]);
  }

  /** Recording a publish touches no verdict. */
  lemma PublishEndsHarmless(s: State, call: Call, sha: Sha, prUrl: Option<string>, now: string)
    requires Harmless(s) && Kept(s) && Sound(s) && s.pending == Some(Publishing(call))
    ensures Harmless(Resumed(s, Publishing(call), PublishedAt(sha, prUrl), now))
  {
    var repo, t := call.repo, Resumed(s, Publishing(call), PublishedAt(sha, prUrl), now);
    var e := s.ledger.repos[repo].(published := Some(Published(sha, prUrl)));
    EntryIsHarmless(s, repo);
    hide Harmless;
    hide Persistable;
    PublishedEntry(s.facts, repo, s.ledger.repos[repo], e.published, Head(s, repo), Left(s), WorkersLeft(s));
    hide EntryMisleads;
    assert s.facts + [] == s.facts;
    OneEntrySettles(s, t, repo, e, []);
  }

  lemma PublishedEntry(
    facts: seq<Fact>, repo: string, e: Entry, published: Option<Published>, head: Sha, left: int, workers: int)
    requires !EntryMisleads(facts, repo, e, head, left, workers)
    ensures !EntryMisleads(facts, repo, e.(published := published), head, left - 1, workers)
  {
  }

  /** A step that fails, or an answer that ends the matter. */
  lemma SettledStaysHarmless(s: State, reply: Reply, now: string)
    requires Harmless(s) && Sound(s)
    ensures Harmless(Settled(s, reply, now))
  {
    hide CallAttested;
    hide Persistable;
    hide DangerIn;
    assert s.facts + [] == s.facts;
    EntriesStayHarmless(s, Settled(s, reply, now));
  }

  /** What a publish would hand over is backed. */
  lemma AnswerStaysHarmless(s: State, o: Outcome, now: string)
    requires Harmless(s) && Kept(s) && Sound(s) && s.pending.Some? && Fits(s.pending.value, o)
    requires s.pending.value.Acknowledging? || s.pending.value.Confirming?
    ensures Harmless(Resumed(s, s.pending.value, o, now))
  {
    hide Sound;
    hide CallPublish;
    SettledStaysHarmless(s, Threw, now);
    SettledStaysHarmless(s, Refused(PublishDeclined), now);
    if !o.Failed? && o.yes {
      var repo, diff := s.pending.value.repo, s.pending.value.diff;
      EntryIsHarmless(s, repo);
      assert s.facts + [] == s.facts;
      hide EntryMisleads;
      hide CallAttested;
      hide DangerIn;
      hide Vouched;
      if s.pending.value.Acknowledging? {
        EntriesStayHarmless(s, Waiting(s, Confirming(repo, diff)));
      } else {
        CallStaysHarmless(s, repo, diff, now);
        EntriesStayHarmless(s, CallPublish(s, repo, diff, now));
      }
    }
  }

  lemma CallStaysHarmless(s: State, repo: string, diff: Diff, now: string)
    requires CallsAttested(s) && repo in s.ledger.repos && EntryKept(s.facts, repo, s.ledger.repos[repo])
    requires CanPublish(s.ledger, repo) == Open && diff.baseSha == s.ledger.repos[repo].baseSha
    requires Vouched(s.facts, repo, s.ledger.repos[repo], diff.headSha)
    ensures var t := CallPublish(s, repo, diff, now);
      && CallsAttested(t) && t.pending.Some? && t.pending.value.Publishing?
      && t == s.(pending := t.pending, calls := t.calls)
  {
    var e := s.ledger.repos[repo];
    assert CallAttested(s.facts, Call(repo, e.plan.value, e.reviewApproved.value.review, diff));
    hide CallAttested;
  }

  lemma FinishStaysHarmless(s: State, o: Outcome, now: string)
    requires Harmless(s) && Kept(s) && Sound(s) && s.pending.Some? && Fits(s.pending.value, o)
    ensures Harmless(Resumed(s, s.pending.value, o, now))
  {
    hide Harmless;
    hide Sound;
    hide Kept;
    SettledStaysHarmless(s, Refused(StepFailed), now);
    SettledStaysHarmless(s, Refused(PublishFailed), now);
    SettledStaysHarmless(s, Fine, now);
    SettledStaysHarmless(s, Threw, now);
    match s.pending.value
    case Worker(repo) => if o.WorkerRan? { WorkerEndsHarmless(s, repo, o.headSha, now); }
    case Tests(repo, startedAt) => if o.TestsRan? { TestsEndHarmless(s, repo, startedAt, o.pass, now); }
    case Reviewing(repo, diff) => if o.ReviewGiven? { ReviewEndsHarmless(s, repo, diff, o.review, now); }
    case Planning(repo) => if o.PlanGiven? { PlanEndsHarmless(s, repo, o.plan, now); }
    case Asking =>
    case Acknowledging(_, _) => AnswerStaysHarmless(s, o, now);
    case Confirming(_, _) => AnswerStaysHarmless(s, o, now);
    case Publishing(call) => if o.PublishedAt? { PublishEndsHarmless(s, call, o.sha, o.prUrl, now); }
  }

  /** With the gate open and an action to spend, the verdicts hold at the checked-out commit. */
  lemma OpenGateIsVouched(s: State, repo: string)
    requires Harmless(s) && repo in s.ledger.repos && CanPublish(s.ledger, repo) == Open && 1 <= Left(s)
    ensures Vouched(s.facts, repo, s.ledger.repos[repo], Head(s, repo))
  {
    EntryIsHarmless(s, repo);
    hide Harmless;
  }

  /** No repository has something dangerous waiting. */
  predicate NothingDangerousWaits(s: State) {
    forall repo <- s.ledger.repos ::
      !PendingMisleads(s.facts, s.pending, repo, s.ledger.repos[repo], Head(s, repo), Left(s))
  }

  predicate GatesVouched(s: State) {
    forall repo <- s.ledger.repos | CanPublish(s.ledger, repo) == Open ::
      Vouched(s.facts, repo, s.ledger.repos[repo], Head(s, repo))
  }

  lemma OnRepoStaysHarmless(s: State, policy: Policy, a: Action, complete: bool, touchesTests: bool, now: string)
    requires a.RunWorker? || a.RunTests? || a.ReviewDiff? || a.PlanRepo? || a.RequestPublish?
    requires a.repo in s.ledger.repos && s.pending.None? && Kept(s) && CallsAttested(s) && GatesVouched(s)
    ensures var t := OnRepo(s, policy, a, complete, touchesTests, now);
      && CallsAttested(t) && NothingDangerousWaits(t)
      && t.ledger.workerRunsUsed - WorkerInFlight(t) == s.ledger.workerRunsUsed
  {
    hide CallAttested;
    hide Vouched;
    hide CanPublish;
    hide CallPublish;
    hide Left;
    if a.RequestPublish? && CanPublish(s.ledger, a.repo) == Open && complete && policy == BrokerOnly {
      CallStaysHarmless(s, a.repo, RangeDiff(s, a.repo), now);
    }
  }

  lemma RunActionStaysHarmless(s: State, policy: Policy, a: Action, complete: bool, touchesTests: bool, now: string)
    requires s.pending.None? && Kept(s) && CallsAttested(s) && GatesVouched(s)
    ensures var t := RunAction(s, policy, a, complete, touchesTests, now);
      && CallsAttested(t) && NothingDangerousWaits(t)
      && t.ledger.workerRunsUsed - WorkerInFlight(t) == s.ledger.workerRunsUsed
  {
    hide CallAttested;
    hide OnRepo;
    hide Kept;
    hide GatesVouched;
    if (a.RunWorker? || a.RunTests? || a.ReviewDiff? || a.PlanRepo? || a.RequestPublish?) && a.repo in s.ledger.repos {
      OnRepoStaysHarmless(s, policy, a, complete, touchesTests, now);
    }
  }

  lemma DispatchStaysHarmless(s: State, policy: Policy, a: Action, complete: bool, touchesTests: bool, now: string)
    requires Harmless(s) && Kept(s) && Sound(s)
    ensures Harmless(Dispatched(s, policy, a, complete, touchesTests, now))
  {
    var t := Dispatched(s, policy, a, complete, touchesTests, now);
    DispatchMoves(s, policy, a, complete, touchesTests, now);
    assert s.facts + [] == s.facts;
    if s.ended || s.pending.Some? {
      ReplyStaysHarmless(s, t.reply);
    } else if ConsumedAction(s.ledger).None? {
      SettledStaysHarmless(s, Refused(BudgetExhausted), now);
    } else {
      var s1 := s.(ledger := ConsumedAction(s.ledger).value);
      ConsumedStaysVouched(s);
      hide RunAction;
      hide GatesVouched;
      hide CallAttested;
      hide EntryKept;
      hide Persistable;
      RunActionStaysHarmless(s1, policy, a, complete, touchesTests, now);
      SpineRuns.DispatchCounts(s, policy, a, complete, touchesTests, now);
      hide PendingMisleads;
      hide DangerIn;
      hide Dispatched;
      EntriesStayHarmless(s, t);
    }
  }

  lemma ReplyStaysHarmless(s: State, reply: Reply)
    requires Harmless(s)
    ensures Harmless(s.(reply := reply))
  {
    hide CallAttested;
    hide EntryMisleads;
    hide PendingMisleads;
    forall repo <- s.ledger.repos ensures !Dangerous(s.(reply := reply), repo, Head(s, repo)) {
      assert !Dangerous(s, repo, Head(s, repo));
    }
  }

  lemma ConsumedStaysVouched(s: State)
    requires Harmless(s) && ConsumedAction(s.ledger).Some? && s.pending.None?
    ensures GatesVouched(s.(ledger := ConsumedAction(s.ledger).value))
  {
    hide Harmless;
    hide Vouched;
    forall repo <- s.ledger.repos | CanPublish(s.ledger, repo) == Open
      ensures Vouched(s.facts, repo, s.ledger.repos[repo], Head(s, repo))
    {
      OpenGateIsVouched(s, repo);
    }
  }

  lemma CrashStaysHarmless(s: State)
    requires Harmless(s) && Sound(s)
    ensures Harmless(Restarted(s))
  {
    CrashKeeps(s);
    SpineRuns.RestartKeepsHistory(s);
    hide Restarted;
    hide CallAttested;
    hide Persistable;
    hide DangerIn;
    assert s.facts + [] == s.facts;
    EntriesStayHarmless(s, Restarted(s));
  }

  /** Another hand moves HEAD: harmless exactly when this commit is not a dangerous one. */
  lemma MoveStaysHarmlessIff(policy: Policy, s: State, repo: string, sha: Sha)
    ensures var t := Step(policy, s, MoveHead(repo, sha));
      && t.calls == s.calls && t.facts == s.facts && t.ledger == s.ledger
      && (forall r :: Dangerous(t, r, Head(t, r)) <==> Dangerous(s, r, if r == repo then sha else Head(s, r)))
  {
    hide EntryMisleads;
    hide PendingMisleads;
  }

  lemma StepStaysHarmless(policy: Policy, s: State, e: Event)
    requires Harmless(s) && Kept(s) && Sound(s) && Enabled(s, e)
    requires e.MoveHead? ==> !Dangerous(s, e.repo, e.sha)
    ensures Harmless(Step(policy, s, e))
  {
    hide Sound;
    hide Kept;
    hide Dispatched;
    hide Resumed;
    hide Restarted;
    match e
    case Dispatch(a, complete, touchesTests, now) => DispatchStaysHarmless(s, policy, a, complete, touchesTests, now);
    case Finish(o, now) => FinishStaysHarmless(s, o, now);
    case MoveHead(repo, sha) =>
      MoveStaysHarmlessIff(policy, s, repo, sha);
      hide Dangerous;
      hide CallAttested;
    case Crash => CrashStaysHarmless(s);
  }

  lemma {:induction false} RunKeepsKept(policy: Policy, s: State, es: seq<Event>)
    requires Kept(s) && Sound(s) && ValidRun(policy, s, es) && AllWellFormed(es)
    ensures Kept(After(policy, s, es)) && Sound(After(policy, s, es))
    decreases |es|
  {
    hide Kept;
    hide Sound;
    hide Step;
    hide Enabled;
    hide WellFormed;
    if es != [] {
      StepKeepsSound(policy, s, es[0]);
      StepKeepsKept(policy, s, es[0]);
      RunKeepsKept(policy, Step(policy, s, es[0]), es[1..]);
    }
  }

  lemma {:induction false} RunStaysHarmless(policy: Policy, s: State, es: seq<Event>)
    requires Harmless(s) && Kept(s) && Sound(s) && Proper(policy, s, es)
    ensures Harmless(After(policy, s, es))
    decreases |es|
  {
    hide Harmless;
    hide Kept;
    hide Sound;
    hide Step;
    hide Enabled;
    hide WellFormed;
    if es != [] {
      StepKeepsSound(policy, s, es[0]);
      StepKeepsKept(policy, s, es[0]);
      StepStaysHarmless(policy, s, es[0]);
      RunStaysHarmless(policy, Step(policy, s, es[0]), es[1..]);
    }
  }

  // ---------------------------------------------------------------- exactly when

  /** An unbacked publish was made, or can follow without any further move of HEAD by other hands. */
  ghost predicate CanMislead(policy: Policy, s: State) {
    exists es :: Proper(policy, s, es) && HasUnbackedCall(After(policy, s, es))
  }

  lemma HarmlessIsBacked(s: State)
    requires Harmless(s)
    ensures !HasUnbackedCall(s)
  {
    hide DangerIn;
    hide CallAttested;
  }

  lemma MisleadsIffFrom(policy: Policy, s: State)
    requires Kept(s) && Sound(s)
    ensures CanMislead(policy, s) <==> !Harmless(s)
  {
    hide Kept;
    hide Sound;
    hide Dangerous;
    hide CallAttested;
    if HasUnbackedCall(s) {
      assert Proper(policy, s, []) && HasUnbackedCall(After(policy, s, []));
    } else if DangerIn(s) {
      var repo :| repo in s.ledger.repos && Dangerous(s, repo, Head(s, repo));
      var es := DangerIsReal(policy, s, repo);
      assert Proper(policy, s, es) && HasUnbackedCall(After(policy, s, es));
    } else {
      assert Harmless(s);
      hide HasUnbackedCall;
      hide Harmless;
      forall es | Proper(policy, s, es) ensures !HasUnbackedCall(After(policy, s, es)) {
        RunStaysHarmless(policy, s, es);
        HarmlessIsBacked(After(policy, s, es));
      }
    }
  }

  lemma PreparedIsHarmless(s: State)
    requires Prepared(s)
    ensures Harmless(s) && Kept(s)
  {
  }

  /** At any moment of any run, whoever moved HEAD in it: an unbacked publish can follow from a
      move by another hand exactly when that commit is a dangerous one, or was before it. */
  lemma MoveIsHarmfulIff(policy: Policy, s: State, es: seq<Event>, repo: string, sha: Sha)
    requires Prepared(s) && Persistable(s.ledger) && ValidRun(policy, s, es) && AllWellFormed(es) && sha != ""
    ensures var t := After(policy, s, es);
      && (CanMislead(policy, t) <==> HasUnbackedCall(t) || DangerIn(t))
      && (CanMislead(policy, Step(policy, t, MoveHead(repo, sha))) <==>
           HasUnbackedCall(t) || Dangerous(t, repo, sha)
           || exists r <- t.ledger.repos :: r != repo && Dangerous(t, r, Head(t, r)))
      && (!CanMislead(policy, t) ==>
           (CanMislead(policy, Step(policy, t, MoveHead(repo, sha))) <==> Dangerous(t, repo, sha)))
  {
    SpineRuns.PreparedIsSound(s);
    PreparedIsHarmless(s);
    hide Kept;
    hide Sound;
    hide Prepared;
    hide CanMislead;
    hide Dangerous;
    hide CallAttested;
    RunKeepsKept(policy, s, es);
    var t := After(policy, s, es);
    var t' := Step(policy, t, MoveHead(repo, sha));
    StepKeepsSound(policy, t, MoveHead(repo, sha));
    StepKeepsKept(policy, t, MoveHead(repo, sha));
    MoveStaysHarmlessIff(policy, t, repo, sha);
    hide Step;
    hide Head;
    MisleadsIffFrom(policy, t);
    MisleadsIffFrom(policy, t');
    DangerousIsListed(t, repo, sha);
  }

  lemma DangerousIsListed(s: State, repo: string, sha: Sha)
    ensures Dangerous(s, repo, sha) ==> repo in s.ledger.repos
  {
    hide EntryMisleads;
    hide PendingMisleads;
  }

  /** No other hand moves HEAD to a dangerous commit. */
  ghost predicate NoDangerousMove(policy: Policy, s: State, es: seq<Event>)
    requires ValidRun(policy, s, es)
    decreases |es|
  {
    es == [] ||
    (!(es[0].MoveHead? && Dangerous(s, es[0].repo, es[0].sha))
      && NoDangerousMove(policy, Step(policy, s, es[0]), es[1..]))
  }

  /** At every state the run passes through nothing unbacked was published, and nothing unbacked
      can be before another hand moves HEAD again. */
  ghost predicate ReliablyBacked(policy: Policy, s: State, es: seq<Event>)
    requires ValidRun(policy, s, es)
    decreases |es|
  {
    !CanMislead(policy, s) && (es == [] || ReliablyBacked(policy, Step(policy, s, es[0]), es[1..]))
  }

  lemma {:induction false} BackedIffNoDangerousMoveFrom(policy: Policy, s: State, es: seq<Event>)
    requires Harmless(s) && Kept(s) && Sound(s) && ValidRun(policy, s, es) && AllWellFormed(es)
    ensures ReliablyBacked(policy, s, es) <==> NoDangerousMove(policy, s, es)
    decreases |es|
  {
    MisleadsIffFrom(policy, s);
    hide CanMislead;
    if es != [] {
      var t := Step(policy, s, es[0]);
      StepKeepsSound(policy, s, es[0]);
      StepKeepsKept(policy, s, es[0]);
      if es[0].MoveHead? && Dangerous(s, es[0].repo, es[0].sha) {
        MoveStaysHarmlessIff(policy, s, es[0].repo, es[0].sha);
        DangerousIsListed(s, es[0].repo, es[0].sha);
        hide Dangerous;
        hide Kept;
        hide Sound;
        hide Step;
        assert DangerIn(t);
        MisleadsIffFrom(policy, t);
      } else {
        StepStaysHarmless(policy, s, es[0]);
        hide Dangerous;
        hide Harmless;
        hide Kept;
        hide Sound;
        hide Step;
        hide Enabled;
        BackedIffNoDangerousMoveFrom(policy, t, es[1..]);
      }
    }
  }

  /** For whole runs: backing can be relied on throughout exactly when no other hand moves HEAD
      to a dangerous commit; and then every publish is backed. */
  lemma BackedIffNoDangerousMove(policy: Policy, s: State, es: seq<Event>)
    requires Prepared(s) && Persistable(s.ledger) && ValidRun(policy, s, es) && AllWellFormed(es)
    ensures ReliablyBacked(policy, s, es) <==> NoDangerousMove(policy, s, es)
    ensures NoDangerousMove(policy, s, es) ==>
      forall c <- After(policy, s, es).calls :: CallAttested(After(policy, s, es).facts, c)
  {
    SpineRuns.PreparedIsSound(s);
    PreparedIsHarmless(s);
    hide Kept;
    hide Sound;
    hide Harmless;
    hide Prepared;
    BackedIffNoDangerousMoveFrom(policy, s, es);
    if ReliablyBacked(policy, s, es) {
      ReliableEndIsBacked(policy, s, es);
    }
  }

  lemma {:induction false} ReliableEndIsBacked(policy: Policy, s: State, es: seq<Event>)
    requires ValidRun(policy, s, es) && ReliablyBacked(policy, s, es)
    ensures !HasUnbackedCall(After(policy, s, es))
    decreases |es|
  {
    hide Step;
    hide HasUnbackedCall;
    if es == [] {
      assert Proper(policy, s, []) && After(policy, s, []) == s;
    } else {
      hide CanMislead;
      ReliableEndIsBacked(policy, Step(policy, s, es[0]), es[1..]);
    }
  }

  // ---------------------------------------------------------------- the danger is reachable

  /** From every prepared ticket with a repository and four actions: tests and review at one
      commit, then another hand moves HEAD, then an unbacked publish. */
  lemma UnbackedCallIsReachable(policy: Policy, s: State, repo: string, sha: Sha)
    returns (before: seq<Event>, after: seq<Event>)
    requires Prepared(s) && Persistable(s.ledger) && repo in s.ledger.repos && s.ledger.maxActions >= 4
    requires sha != "" && sha != Head(s, repo)
    ensures Proper(policy, s, before) && ValidRun(policy, s, before + [MoveHead(repo, sha)] + after)
      && HeadsAreOurs(after)
    ensures HasUnbackedCall(After(policy, s, before + [MoveHead(repo, sha)] + after))
  {
    hide Step;
    hide Persistable;
    hide Sound;
    hide Enabled;
    hide CallAttested;
    SpineRuns.PreparedIsSound(s);
    PreparedIsHarmless(s);
    hide Kept;
    before := PassTests(policy, s, repo);
    var s1 := After(policy, s, before);
    var more := PassReview(policy, s1, repo);
    ProperAppend(policy, s, before, more);
    before := before + more;
    var s2 := After(policy, s, before);
    RunKeepsKept(policy, s, before);
    after := MoveAndPublish(policy, s2, repo, sha);
    RunAppend(policy, s, before, [MoveHead(repo, sha)] + after);
    assert before + ([MoveHead(repo, sha)] + after) == before + [MoveHead(repo, sha)] + after;
  }

  lemma MoveAndPublish(policy: Policy, s: State, repo: string, sha: Sha) returns (after: seq<Event>)
    requires Sound(s) && Kept(s) && Dangerous(s, repo, sha) && sha != ""
    ensures ValidRun(policy, s, [MoveHead(repo, sha)] + after) && HeadsAreOurs(after)
    ensures HasUnbackedCall(After(policy, s, [MoveHead(repo, sha)] + after))
  {
    hide Sound;
    hide Kept;
    hide HasUnbackedCall;
    var t := Step(policy, s, MoveHead(repo, sha));
    StepKeepsSound(policy, s, MoveHead(repo, sha));
    StepKeepsKept(policy, s, MoveHead(repo, sha));
    MoveStaysHarmlessIff(policy, s, repo, sha);
    hide Dangerous;
    after := DangerIsReal(policy, t, repo);
    RunOne(policy, s, MoveHead(repo, sha));
    RunAppend(policy, s, [MoveHead(repo, sha)], after);
  }
}
