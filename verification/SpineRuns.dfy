/** What holds over every run of dispatches, crashes and restarts. */
module SpineRuns {
  import opened JsText
  import opened SpineLedger
  import opened SpineExecutor

  // ---------------------------------------------------------------- runs

  lemma {:induction false} RunKeepsSound(policy: Policy, s: State, es: seq<Event>)
    requires Sound(s) && ValidRun(policy, s, es) && AllWellFormed(es)
    ensures Sound(After(policy, s, es))
    decreases |es|
  {
    hide Sound;
    hide Step;
    hide Enabled;
    hide WellFormed;
    if es != [] {
      StepKeepsSound(policy, s, es[0]);
      RunKeepsSound(policy, Step(policy, s, es[0]), es[1..]);
    }
  }

  lemma PreparedIsSound(s: State)
    requires Prepared(s) && Persistable(s.ledger)
    ensures Sound(s)
  {
    hide EntryShape;
    forall repo <- s.ledger.repos ensures Head(s, repo) != "" {
      assert EntryShape(s.ledger.repos[repo]);
      ShapeNamesCommits(s.ledger.repos[repo]);
    }
  }

  lemma ShapeNamesCommits(e: Entry)
    requires EntryShape(e)
    ensures e.headSha != "" && e.baseSha != ""
  {
  }

  // ---------------------------------------------------------------- worker steps are bounded

  function Crashes(es: seq<Event>): nat {
    if es == [] then 0 else (if es[0].Crash? then 1 else 0) + Crashes(es[1..])
  }

  /** Crashes that hit a worker run. */
  function Interrupted(policy: Policy, s: State, es: seq<Event>): nat
    requires ValidRun(policy, s, es)
    decreases |es|
  {
    if es == [] then 0
    else (if es[0].Crash? then WorkerInFlight(s) else 0) + Interrupted(policy, Step(policy, s, es[0]), es[1..])
  }

  lemma ResumedStartsNoWorker(s: State, p: Pending, o: Outcome, now: string)
    requires Fits(p, o)
    ensures var t := Resumed(s, p, o, now);
      t.workerSteps == s.workerSteps && t.ledger == s.ledger.(repos := t.ledger.repos)
        && t.ledger.repos.Keys == s.ledger.repos.Keys
  {
    hide AfterWorkerRun;
    hide AfterTests;
    hide AfterReview;
  }

  /** Only the counters of the ledger change, and the worker steps with theirs. */
  predicate Counted(s: State, t: State) {
    && t.workerSteps - s.workerSteps == t.ledger.workerRunsUsed - s.ledger.workerRunsUsed
    && t.ledger == s.ledger.(actionsUsed := t.ledger.actionsUsed, workerRunsUsed := t.ledger.workerRunsUsed)
  }

  lemma OnRepoCounts(s: State, policy: Policy, a: Action, complete: bool, touchesTests: bool, now: string)
    requires a.RunWorker? || a.RunTests? || a.ReviewDiff? || a.PlanRepo? || a.RequestPublish?
    requires a.repo in s.ledger.repos
    ensures Counted(s, OnRepo(s, policy, a, complete, touchesTests, now))
  {
    hide CanPublish;
    hide RangeDiff;
  }

  lemma RunActionCounts(s: State, policy: Policy, a: Action, complete: bool, touchesTests: bool, now: string)
    ensures Counted(s, RunAction(s, policy, a, complete, touchesTests, now))
  {
    hide OnRepo;
    if (a.RunWorker? || a.RunTests? || a.ReviewDiff? || a.PlanRepo? || a.RequestPublish?) && a.repo in s.ledger.repos {
      OnRepoCounts(s, policy, a, complete, touchesTests, now);
    }
  }

  lemma DispatchCounts(s: State, policy: Policy, a: Action, complete: bool, touchesTests: bool, now: string)
    ensures Counted(s, Dispatched(s, policy, a, complete, touchesTests, now))
  {
    hide RunAction;
    if ConsumedAction(s.ledger).Some? {
      RunActionCounts(s.(ledger := ConsumedAction(s.ledger).value), policy, a, complete, touchesTests, now);
    }
  }

  lemma StepCountsWorkers(policy: Policy, s: State, e: Event)
    requires Sound(s) && Enabled(s, e)
    ensures var t := Step(policy, s, e);
      && t.workerSteps - t.ledger.workerRunsUsed
         == s.workerSteps - s.ledger.workerRunsUsed + (if e.Crash? then WorkerInFlight(s) else 0)
      && t.ledger.maxWorkerRuns == s.ledger.maxWorkerRuns && t.ledger.maxActions == s.ledger.maxActions
  {
    hide Dispatched;
    hide Resumed;
    hide Restarted;
    match e
    case Dispatch(a, complete, touchesTests, now) => DispatchCounts(s, policy, a, complete, touchesTests, now);
    case Finish(o, now) => ResumedStartsNoWorker(s, s.pending.value, o, now);
    case MoveHead(_, _) =>
    case Crash =>
      CrashKeeps(s);
      RestartKeepsHistory(s);
  }

  lemma RestartKeepsHistory(s: State)
    ensures Restarted(s).workerSteps == s.workerSteps && Restarted(s).calls == s.calls && Restarted(s).facts == s.facts
    ensures Restarted(s).heads == s.heads && Restarted(s).pending.None?
  {
  }

  lemma {:induction false} RunCountsWorkers(policy: Policy, s: State, es: seq<Event>)
    requires Sound(s) && ValidRun(policy, s, es) && AllWellFormed(es)
    ensures var t := After(policy, s, es);
      && t.workerSteps - t.ledger.workerRunsUsed == s.workerSteps - s.ledger.workerRunsUsed + Interrupted(policy, s, es)
      && t.ledger.maxWorkerRuns == s.ledger.maxWorkerRuns && t.ledger.maxActions == s.ledger.maxActions
      && Interrupted(policy, s, es) <= Crashes(es)
    decreases |es|
  {
    hide Sound;
    hide Step;
    hide Enabled;
    hide WellFormed;
    hide WorkerInFlight;
    if es != [] {
      StepKeepsSound(policy, s, es[0]);
      StepCountsWorkers(policy, s, es[0]);
      RunCountsWorkers(policy, Step(policy, s, es[0]), es[1..]);
      InFlightIsOne(s);
    }
  }

  lemma InFlightIsOne(s: State)
    ensures WorkerInFlight(s) <= 1
  {
  }

  /** Through any crashes and restarts the counters keep their bounds, and a worker run is
      started beyond the budget only where a crash cut one short. */
  lemma BudgetsHold(policy: Policy, s: State, es: seq<Event>)
    requires Prepared(s) && Persistable(s.ledger) && ValidRun(policy, s, es) && AllWellFormed(es)
    ensures var t := After(policy, s, es);
      && t.ledger.workerRunsUsed <= t.ledger.actionsUsed <= s.ledger.maxActions
      && t.ledger.workerRunsUsed <= s.ledger.maxWorkerRuns
      && t.workerSteps == t.ledger.workerRunsUsed + Interrupted(policy, s, es)
      && t.workerSteps <= s.ledger.maxWorkerRuns + Crashes(es)
  {
    hide Step;
    hide Persistable;
    hide HeadsNamed;
    hide Interrupted;
    PreparedIsSound(s);
    RunKeepsSound(policy, s, es);
    RunCountsWorkers(policy, s, es);
  }

  /** A restart always finds a ledger it can trust. */
  lemma EveryRestartSucceeds(policy: Policy, s: State, es: seq<Event>)
    requires Prepared(s) && Persistable(s.ledger) && ValidRun(policy, s, es) && AllWellFormed(es)
    ensures var t := After(policy, s, es);
      Sound(t) && Loaded(t.ledger.ticket, t.file) == Ok(Durable(t))
  {
    PreparedIsSound(s);
    RunKeepsSound(policy, s, es);
    hide Persistable;
    DurableIsPersistable(After(policy, s, es));
  }

  // ---------------------------------------------------------------- the end of a session

  predicate NoCrash(es: seq<Event>) {
    forall e <- es :: !e.Crash?
  }

  /** After done or abort no dispatch changes the ledger or its file. */
  lemma {:induction false} EndedIsFinal(policy: Policy, s: State, es: seq<Event>)
    requires s.ended && s.pending.None? && ValidRun(policy, s, es) && NoCrash(es)
    ensures var t := After(policy, s, es);
      t.ended && t.ledger == s.ledger && t.file == s.file && t.calls == s.calls && t.workerSteps == s.workerSteps
    decreases |es|
  {
    if es != [] {
      var t := Step(policy, s, es[0]);
      assert t == s.(reply := t.reply, heads := t.heads);
      EndedIsFinal(policy, t, es[1..]);
    }
  }

  /** No action is left. */
  predicate Exhausted(s: State) {
    s.pending.None? && !s.ended && s.ledger.actionsUsed == s.ledger.maxActions
  }

  lemma ExhaustedStep(policy: Policy, s: State, e: Event)
    requires Sound(s) && Exhausted(s) && Enabled(s, e)
    ensures var t := Step(policy, s, e);
      Exhausted(t) && t.ledger == s.ledger && t.calls == s.calls && t.workerSteps == s.workerSteps
  {
    hide Persistable;
    if e.Crash? {
      CrashKeeps(s);
    }
  }

  /** An exhausted session does nothing more, not even end: done and abort need an action too. */
  lemma {:induction false} ExhaustedForGood(policy: Policy, s: State, es: seq<Event>)
    requires Sound(s) && Exhausted(s) && ValidRun(policy, s, es) && AllWellFormed(es)
    ensures var t := After(policy, s, es);
      !t.ended && t.ledger == s.ledger && t.calls == s.calls && t.workerSteps == s.workerSteps
    decreases |es|
  {
    hide Sound;
    hide Step;
    hide Enabled;
    hide WellFormed;
    if es != [] {
      ExhaustedStep(policy, s, es[0]);
      StepKeepsSound(policy, s, es[0]);
      ExhaustedForGood(policy, Step(policy, s, es[0]), es[1..]);
    }
  }

  /** A well-formed run in which done or abort ends the session. */
  ghost predicate CanEnd(policy: Policy, s: State) {
    exists es :: ValidRun(policy, s, es) && AllWellFormed(es) && After(policy, s, es).ended
  }

  /** A session that waits for its next action can still be ended exactly while one is left. */
  lemma CanEndIffActionsLeft(policy: Policy, s: State)
    requires Sound(s) && s.pending.None? && !s.ended
    ensures CanEnd(policy, s) <==> s.ledger.actionsUsed < s.ledger.maxActions
  {
    if s.ledger.actionsUsed < s.ledger.maxActions {
      var done := Dispatch(Done(""), true, false, "");
      assert Step(policy, s, done).ended;
      RunOfOne(policy, s, done);
      assert ValidRun(policy, s, [done]) && AllWellFormed([done]) && After(policy, s, [done]).ended;
    } else {
      SoundIsExhausted(s);
      hide Sound;
      forall es | ValidRun(policy, s, es) && AllWellFormed(es) ensures !After(policy, s, es).ended {
        ExhaustedForGood(policy, s, es);
      }
    }
  }

  lemma SoundIsExhausted(s: State)
    requires Sound(s) && s.pending.None? && !s.ended && s.ledger.actionsUsed >= s.ledger.maxActions
    ensures Exhausted(s)
  {
  }

  lemma RunOfOne(policy: Policy, s: State, e: Event)
    requires Enabled(s, e)
    ensures ValidRun(policy, s, [e]) && After(policy, s, [e]) == Step(policy, s, e)
  {
    hide Step;
    assert [e][1..] == [];
  }

  lemma RunCons(policy: Policy, s: State, e: Event, es: seq<Event>)
    requires Enabled(s, e) && ValidRun(policy, Step(policy, s, e), es)
    ensures ValidRun(policy, s, [e] + es) && After(policy, s, [e] + es) == After(policy, Step(policy, s, e), es)
  {
    hide Step;
    assert ([e] + es)[1..] == es;
  }

  /** Showing lines to the human is enough to use a session up. */
  lemma {:induction false} ShowingExhausts(policy: Policy, s: State) returns (es: seq<Event>)
    requires Sound(s) && s.pending.None? && !s.ended
    ensures ValidRun(policy, s, es) && AllWellFormed(es) && Exhausted(After(policy, s, es))
    decreases s.ledger.maxActions - s.ledger.actionsUsed
  {
    if s.ledger.actionsUsed >= s.ledger.maxActions {
      SoundIsExhausted(s);
      es := [];
    } else {
      var e := Dispatch(ShowHuman, true, false, "");
      ShowingCosts(policy, s, e);
      StepKeepsSound(policy, s, e);
      var rest := ShowingExhausts(policy, Step(policy, s, e));
      RunCons(policy, s, e, rest);
      es := [e] + rest;
      hide After;
    }
  }

  lemma ShowingCosts(policy: Policy, s: State, e: Event)
    requires Sound(s) && s.pending.None? && !s.ended && s.ledger.actionsUsed < s.ledger.maxActions
    requires e == Dispatch(ShowHuman, true, false, "")
    ensures Enabled(s, e)
    ensures var t := Step(policy, s, e);
      && t.pending.None? && !t.ended
      && t.ledger == s.ledger.(actionsUsed := s.ledger.actionsUsed + 1)
  {
    hide Persistable;
  }

  /** Every prepared ticket can come to a session that nothing ends any more. */
  lemma ExhaustedIsReachable(policy: Policy, s: State) returns (es: seq<Event>)
    requires Prepared(s) && Persistable(s.ledger)
    ensures ValidRun(policy, s, es) && AllWellFormed(es)
    ensures Exhausted(After(policy, s, es)) && !CanEnd(policy, After(policy, s, es))
  {
    PreparedIsSound(s);
    es := ShowingExhausts(policy, s);
    RunKeepsSound(policy, s, es);
    CanEndIffActionsLeft(policy, After(policy, s, es));
    hide CanEnd;
  }

  // ---------------------------------------------------------------- resuming

  predicate SameButReply(s: State, t: State) {
    t == s.(reply := t.reply)
  }

  lemma PublishIgnoresReply(
    policy: Policy, s: State, t: State, repo: string, complete: bool, touchesTests: bool, now: string)
    requires SameButReply(s, t) && repo in s.ledger.repos
    ensures SameButReply(StartPublish(s, policy, repo, complete, touchesTests, now),
                         StartPublish(t, policy, repo, complete, touchesTests, now))
  {
    hide CanPublish;
  }

  lemma RunActionIgnoresReply(
    policy: Policy, s: State, t: State, a: Action, complete: bool, touchesTests: bool, now: string)
    requires SameButReply(s, t)
    ensures SameButReply(RunAction(s, policy, a, complete, touchesTests, now),
      RunAction(t, policy, a, complete, touchesTests, now))
  {
    hide StartPublish;
    if a.RequestPublish? && a.repo in s.ledger.repos {
      PublishIgnoresReply(policy, s, t, a.repo, complete, touchesTests, now);
    }
  }

  lemma DispatchIgnoresReply(
    policy: Policy, s: State, t: State, a: Action, complete: bool, touchesTests: bool, now: string)
    requires SameButReply(s, t)
    ensures SameButReply(Dispatched(s, policy, a, complete, touchesTests, now),
                         Dispatched(t, policy, a, complete, touchesTests, now))
  {
    hide RunAction;
    if ConsumedAction(s.ledger).Some? {
      var l := ConsumedAction(s.ledger).value;
      RunActionIgnoresReply(policy, s.(ledger := l), t.(ledger := l), a, complete, touchesTests, now);
    }
  }

  lemma ResumedIgnoresReply(s: State, t: State, p: Pending, o: Outcome, now: string)
    requires SameButReply(s, t) && Fits(p, o)
    ensures SameButReply(Resumed(s, p, o, now), Resumed(t, p, o, now))
  {
    hide WorkerRunRecorded;
    hide TestsRecorded;
    hide ReviewRecorded;
    hide PlanRecorded;
    hide PublishRecorded;
  }

  lemma StepIgnoresReply(policy: Policy, s: State, t: State, e: Event)
    requires SameButReply(s, t) && Enabled(s, e)
    ensures Enabled(t, e) && SameButReply(Step(policy, s, e), Step(policy, t, e))
  {
    hide Dispatched;
    hide Resumed;
    hide Loaded;
    match e
    case Dispatch(a, complete, touchesTests, now) => DispatchIgnoresReply(policy, s, t, a, complete, touchesTests, now);
    case Finish(o, now) => ResumedIgnoresReply(s, t, s.pending.value, o, now);
    case MoveHead(_, _) =>
    case Crash =>
  }

  lemma {:induction false} RunIgnoresReply(policy: Policy, s: State, t: State, es: seq<Event>)
    requires SameButReply(s, t) && ValidRun(policy, s, es)
    ensures ValidRun(policy, t, es) && SameButReply(After(policy, s, es), After(policy, t, es))
    decreases |es|
  {
    hide Step;
    hide Enabled;
    hide SameButReply;
    if es != [] {
      StepIgnoresReply(policy, s, t, es[0]);
      RunIgnoresReply(policy, Step(policy, s, es[0]), Step(policy, t, es[0]), es[1..]);
    }
  }

  /** A crash between dispatches is invisible: every later run goes the same way. */
  lemma ResumeCommutes(policy: Policy, s: State, es: seq<Event>)
    requires Sound(s) && s.pending.None? && !s.ended && ValidRun(policy, s, es)
    ensures ValidRun(policy, s, [Crash] + es)
      && SameButReply(After(policy, s, es), After(policy, s, [Crash] + es))
  {
    hide Persistable;
    var t := Restarted(s);
    CrashKeeps(s);
    assert t == s.(reply := t.reply);
    RunIgnoresReply(policy, s, t, es);
    var all := [Crash] + es;
    assert all[0] == Crash && all[1..] == es && Step(policy, s, Crash) == t;
  }
}
