/** What each dispatch costs and is answered, and which steps write which part of the ledger. */
module SpineReplies {
  import opened JsText
  import opened SpineLedger
  import opened SpineExecutor
  import SpineRuns

  predicate Refuses(s: State, why: Refusal) {
    s.reply == Refused(why) && s.pending.None?
  }

  predicate Starts(s: State, p: Pending) {
    s.pending == Some(p)
  }

  /** An action on a repository of the ticket: what it begins, or why not. */
  predicate RepoActionAnswered(policy: Policy, s: State, t: State, e: Event)
    requires e.Dispatch? && (e.action.RunWorker? || e.action.RunTests? || e.action.ReviewDiff? || e.action.PlanRepo?
                             || e.action.RequestPublish?)
    requires e.action.repo in s.ledger.repos
  {
    var repo := e.action.repo;
    match e.action
    case RunWorker(_) =>
      if s.ledger.workerRunsUsed < s.ledger.maxWorkerRuns
      then Starts(t, Worker(repo)) && t.ledger.workerRunsUsed == s.ledger.workerRunsUsed + 1
        && t.workerSteps == s.workerSteps + 1
      else Refuses(t, BudgetExhausted) && t.workerSteps == s.workerSteps
    case RunTests(_) => Starts(t, Tests(repo, Head(s, repo)))
    case PlanRepo(_) => Starts(t, Planning(repo))
    case ReviewDiff(_) => if e.complete then Starts(t, Reviewing(repo, RangeDiff(s, repo))) else Refuses(t, StepFailed)
    case RequestPublish(_) =>
      if CanPublish(s.ledger, repo) != Open then Refuses(t, InvariantsNotMet(CanPublish(s.ledger, repo)))
      else if !e.complete then Refuses(t, StepFailed)
      else t.pending.Some?
  }

  /** A refusal before the budget is free; everything else costs one action, whatever comes of it. */
  lemma EveryDispatchIsAnswered(policy: Policy, s: State, e: Event)
    requires Enabled(s, e) && e.Dispatch?
    ensures var t := Step(policy, s, e);
      && (s.ended ==> t == s.(reply := Refused(SessionEnded)))
      && (!s.ended && s.pending.Some? ==> t == s.(reply := Refused(Busy)))
      && (!s.ended && s.pending.None? ==>
           && (s.ledger.actionsUsed >= s.ledger.maxActions ==> Refuses(t, BudgetExhausted) && t.ledger == s.ledger)
           && (s.ledger.actionsUsed < s.ledger.maxActions ==> t.ledger.actionsUsed == s.ledger.actionsUsed + 1)
           && t.ledger.repos == s.ledger.repos
           && (t.pending.None? ==> t.file == Json(SnapshotOf(t.ledger, e.now)))
           && (t.pending.Some? ==> t.file == s.file))
  {
    SpineRuns.DispatchCounts(s, policy, e.action, e.complete, e.touchesTests, e.now);
    if ConsumedAction(s.ledger).Some? && s.pending.None? {
      ActionCostsOne(s.(ledger := ConsumedAction(s.ledger).value), policy, e.action, e.complete, e.touchesTests, e.now);
    }
    hide RunAction;
  }

  /** One action of the budget is taken, and the file is written unless the action waits. */
  predicate Paid(s: State, t: State, now: string) {
    && t.ledger.actionsUsed == s.ledger.actionsUsed
    && t.file == if t.pending.Some? then s.file else Json(SnapshotOf(t.ledger, now))
  }

  lemma ActionCostsOne(s: State, policy: Policy, a: Action, complete: bool, touchesTests: bool, now: string)
    requires s.pending.None?
    ensures Paid(s, RunAction(s, policy, a, complete, touchesTests, now), now)
  {
    hide OnRepo;
    if (a.RunWorker? || a.RunTests? || a.ReviewDiff? || a.PlanRepo? || a.RequestPublish?) && a.repo in s.ledger.repos {
      RepoActionCostsOne(s, policy, a, complete, touchesTests, now);
    }
  }

  lemma RepoActionCostsOne(s: State, policy: Policy, a: Action, complete: bool, touchesTests: bool, now: string)
    requires a.RunWorker? || a.RunTests? || a.ReviewDiff? || a.PlanRepo? || a.RequestPublish?
    requires a.repo in s.ledger.repos && s.pending.None?
    ensures Paid(s, OnRepo(s, policy, a, complete, touchesTests, now), now)
  {
    hide StartPublish;
    if a.RequestPublish? {
      RequestCostsOne(s, policy, a.repo, complete, touchesTests, now);
    }
  }

  lemma RequestCostsOne(s: State, policy: Policy, repo: string, complete: bool, touchesTests: bool, now: string)
    requires repo in s.ledger.repos && s.pending.None?
    ensures Paid(s, StartPublish(s, policy, repo, complete, touchesTests, now), now)
  {
    hide CanPublish;
    hide Head;
  }

  lemma EveryActionIsAnswered(policy: Policy, s: State, e: Event)
    requires Enabled(s, e) && e.Dispatch?
    requires !s.ended && s.pending.None? && s.ledger.actionsUsed < s.ledger.maxActions
    ensures var t := Step(policy, s, e);
      match e.action
      case AskHuman => Starts(t, Asking)
      case ShowHuman => t.reply == Fine && t.pending.None? && !t.ended
      case Done(_) => t.reply == Fine && t.pending.None? && t.ended
      case Abort(_) => t.reply == Fine && t.pending.None? && t.ended
      case _ =>
        if e.action.repo in s.ledger.repos then RepoActionAnswered(policy, s, t, e) else Refuses(t, RepoUnknown)
  {
  }

  // ---------------------------------------------------------------- the ledger

  /** What a step writes into the entry of its repository. */
  function Written(s: State, p: Pending, o: Outcome, e: Entry): Entry {
    match (p, o)
    case (Worker(_), WorkerRan(sha)) =>
      if sha == e.headSha then e else e.(headSha := sha, testGreen := None, reviewApproved := None)
    case (Tests(repo, _), TestsRan(pass)) => e.(testGreen := if pass then Some(Head(s, repo)) else None)
    case (Reviewing(repo, _), ReviewGiven(review)) =>
      e.(reviewApproved := if review.verdict == Approve then Some(Approval(Head(s, repo), review)) else None)
    case (Planning(_), PlanGiven(plan)) => e.(plan := Some(plan))
    case (Publishing(_), PublishedAt(sha, prUrl)) => e.(published := Some(Published(sha, prUrl)))
    case _ => e
  }

  function Target(p: Pending): Option<string> {
    match p
    case Publishing(call) => Some(call.repo)
    case Asking => None
    case _ => Some(p.repo)
  }

  lemma FinishWrites(s: State, p: Pending, o: Outcome, now: string, repo: string)
    requires Fits(p, o) && repo in s.ledger.repos
    ensures var t := Resumed(s, p, o, now);
      && repo in t.ledger.repos
      && t.ledger.repos[repo] ==
         if Target(p) == Some(repo) then Written(s, p, o, s.ledger.repos[repo]) else s.ledger.repos[repo]
  {
    if p.Acknowledging? || p.Confirming? {
      AnswerWritesNothing(s, p, o, now);
      hide Resumed;
    } else {
      StepWrites(s, p, o, now, repo);
      hide Resumed;
      hide Written;
    }
  }

  lemma AnswerWritesNothing(s: State, p: Pending, o: Outcome, now: string)
    requires Fits(p, o) && (p.Acknowledging? || p.Confirming?)
    ensures Resumed(s, p, o, now).ledger == s.ledger
  {
  }

  lemma StepWrites(s: State, p: Pending, o: Outcome, now: string, repo: string)
    requires Fits(p, o) && repo in s.ledger.repos && !p.Acknowledging? && !p.Confirming?
    ensures var t := Resumed(s, p, o, now);
      && repo in t.ledger.repos
      && t.ledger.repos[repo] ==
         if Target(p) == Some(repo) then Written(s, p, o, s.ledger.repos[repo]) else s.ledger.repos[repo]
  {
    hide CallPublish;
    hide Head;
  }

  /** An entry is written only when a step on its repository ends, and then as that step dictates;
      dispatches, crashes, moves of HEAD and answers write nothing. */
  lemma OnlyStepsWriteEntries(policy: Policy, s: State, e: Event, repo: string)
    requires Sound(s) && Enabled(s, e) && repo in s.ledger.repos
    ensures var t := Step(policy, s, e);
      && repo in t.ledger.repos
      && t.ledger.repos[repo] ==
         if e.Finish? && Target(s.pending.value) == Some(repo)
         then Written(s, s.pending.value, e.outcome, s.ledger.repos[repo])
         else s.ledger.repos[repo]
  {
    match e
    case Dispatch(a, complete, touchesTests, now) =>
      SpineRuns.DispatchCounts(s, policy, a, complete, touchesTests, now);
      hide Dispatched;
      hide Sound;
    case Finish(o, now) =>
      hide Sound;
      FinishWrites(s, s.pending.value, o, now, repo);
      hide Resumed;
      hide Written;
    case MoveHead(_, _) => hide Sound;
    case Crash =>
      CrashKeeps(s);
      hide Restarted;
      hide Persistable;
  }
}
