/** The executor that turns proposed actions into effects, one at a time, across restarts. */
module SpineExecutor {
  import opened JsText
  import opened SpineLedger

  // ---------------------------------------------------------------- actions, diffs and calls

  datatype Action =
    | RunWorker(repo: string)
    | RunTests(repo: string)
    | ReviewDiff(repo: string)
    | PlanRepo(repo: string)
    | AskHuman
    | ShowHuman
    | RequestPublish(repo: string)
    | Done(message: string)
    | Abort(message: string)

  /** The changes between two commits. */
  datatype Diff = Diff(baseSha: Sha, headSha: Sha)

  /** What one call to publish() hands to the broker. */
  datatype Call = Call(repo: string, plan: Plan, review: Review, diff: Diff)

  /** Steps that really happened, as they happened. */
  datatype Fact =
    | TestsPassed(repo: string, startedAt: Sha, endedAt: Sha)
    | Reviewed(repo: string, diff: Diff, review: Review)
    | Planned(repo: string, plan: Plan)

  /** Where the running action is waiting. */
  datatype Pending =
    | Worker(repo: string)
    | Tests(repo: string, startedAt: Sha)
    | Reviewing(repo: string, diff: Diff)
    | Planning(repo: string)
    | Asking
    | Acknowledging(repo: string, diff: Diff)
    | Confirming(repo: string, diff: Diff)
    | Publishing(call: Call)

  datatype Outcome =
    | WorkerRan(headSha: Sha)
    | TestsRan(pass: bool)
    | ReviewGiven(review: Review)
    | PlanGiven(plan: Plan)
    | Answered(yes: bool)
    | PublishedAt(sha: Sha, prUrl: Option<string>)
    | StubPublish
    | Failed

  datatype Policy = InChat | BrokerOnly

  datatype Refusal =
    | SessionEnded | Busy | BudgetExhausted | RepoUnknown | StepFailed | InvariantsNotMet(gate: Gate)
    | PublishDeclined | PublishFailed

  datatype Reply = NoReply | Fine | Threw | Refused(why: Refusal)

  datatype State = State(
    up: bool, ledger: Ledger, file: Content, pending: Option<Pending>, ended: bool,
    heads: map<string, Sha>,
    reply: Reply, facts: seq<Fact>, calls: seq<Call>, workerSteps: nat)

  datatype Event =
    /** An action arrives; the range diff may be incomplete, and may touch tests. */
    | Dispatch(action: Action, complete: bool, touchesTests: bool, now: string)
    /** What the running action waited for. */
    | Finish(outcome: Outcome, now: string)
    /** Something other than a worker run that succeeds moves a repository's HEAD. */
    | MoveHead(repo: string, sha: Sha)
    /** The process dies and a new one loads the ledger. */
    | Crash

  // ---------------------------------------------------------------- one step

  function Head(s: State, repo: string): Sha {
    if repo in s.heads then s.heads[repo] else ""
  }

  function RangeDiff(s: State, repo: string): Diff
    requires repo in s.ledger.repos
  {
    Diff(s.ledger.repos[repo].baseSha, Head(s, repo))
  }

  /** The end of a dispatch: the ledger is persisted, whatever happened. */
  function Settled(s: State, reply: Reply, now: string): State {
    s.(pending := None, reply := reply, file := Json(SnapshotOf(s.ledger, now)))
  }

  function Waiting(s: State, p: Pending): State {
    s.(pending := Some(p))
  }

  /** publish() is called with what the ledger holds at that moment. */
  function CallPublish(s: State, repo: string, diff: Diff, now: string): State {
    if repo !in s.ledger.repos then Settled(s, Refused(PublishFailed), now)
    else
      var e := s.ledger.repos[repo];
      if e.plan.None? || e.reviewApproved.None? then Settled(s, Refused(PublishFailed), now)
      else
        var call := Call(repo, e.plan.value, e.reviewApproved.value.review, diff);
        Waiting(s, Publishing(call)).(calls := s.calls + [call])
  }

  function StartWorker(s: State, repo: string, now: string): State {
    match ConsumedWorkerRun(s.ledger)
    case None => Settled(s, Refused(BudgetExhausted), now)
    case Some(l) => Waiting(s.(ledger := l, workerSteps := s.workerSteps + 1), Worker(repo))
  }

  function StartPublish(s: State, policy: Policy, repo: string, complete: bool, touchesTests: bool, now: string): State
    requires repo in s.ledger.repos
  {
    var gate := CanPublish(s.ledger, repo);
    if gate != Open then Settled(s, Refused(InvariantsNotMet(gate)), now)
    else if !complete then Settled(s, Refused(StepFailed), now)
    else
      var diff := RangeDiff(s, repo);
      match policy
      case BrokerOnly => CallPublish(s, repo, diff, now)
      case InChat => Waiting(s, if touchesTests then Acknowledging(repo, diff) else Confirming(repo, diff))
  }

  /** An action on a repository of this ticket. */
  function OnRepo(s: State, policy: Policy, a: Action, complete: bool, touchesTests: bool, now: string): State
    requires a.RunWorker? || a.RunTests? || a.ReviewDiff? || a.PlanRepo? || a.RequestPublish?
    requires a.repo in s.ledger.repos
  {
    match a
    case RunWorker(repo) => StartWorker(s, repo, now)
    case RunTests(repo) => Waiting(s, Tests(repo, Head(s, repo)))
    case ReviewDiff(repo) =>
      if complete then Waiting(s, Reviewing(repo, RangeDiff(s, repo))) else Settled(s, Refused(StepFailed), now)
    case PlanRepo(repo) => Waiting(s, Planning(repo))
    case RequestPublish(repo) => StartPublish(s, policy, repo, complete, touchesTests, now)
  }

  /** What an action does once its unit of the budget is taken. */
  function RunAction(s: State, policy: Policy, a: Action, complete: bool, touchesTests: bool, now: string): State {
    match a
    case AskHuman => Waiting(s, Asking)
    case ShowHuman => Settled(s, Fine, now)
    case Done(_) => Settled(s.(ended := true), Fine, now)
    case Abort(_) => Settled(s.(ended := true), Fine, now)
    case _ =>
      if a.repo in s.ledger.repos then OnRepo(s, policy, a, complete, touchesTests, now)
      else Settled(s, Refused(RepoUnknown), now)
  }

  function Dispatched(s: State, policy: Policy, a: Action, complete: bool, touchesTests: bool, now: string): State {
    if s.ended then s.(reply := Refused(SessionEnded))
    else if s.pending.Some? then s.(reply := Refused(Busy))
    else
      match ConsumedAction(s.ledger)
      case None => Settled(s, Refused(BudgetExhausted), now)
      case Some(l) => RunAction(s.(ledger := l), policy, a, complete, touchesTests, now)
  }

  /** The outcomes an action can be waiting for. */
  predicate Fits(p: Pending, o: Outcome) {
    match p
    case Worker(_) => o.WorkerRan? || o.Failed?
    case Tests(_, _) => o.TestsRan? || o.Failed?
    case Reviewing(_, _) => o.ReviewGiven? || o.Failed?
    case Planning(_) => o.PlanGiven? || o.Failed?
    case Publishing(_) => o.PublishedAt? || o.StubPublish? || o.Failed?
    case _ => o.Answered? || o.Failed?
  }

  function Resumed(s: State, p: Pending, o: Outcome, now: string): State
    requires Fits(p, o)
  {
    match p
    case Worker(repo) =>
      if o.Failed? then Settled(s, Refused(StepFailed), now)
      else
        Settled(s.(ledger := WorkerRunRecorded(s.ledger, repo, o.headSha),
                   heads := s.heads[repo := o.headSha]), Fine, now)
    case Tests(repo, startedAt) =>
      if o.Failed? then Settled(s, Refused(StepFailed), now)
      else
        var fact := TestsPassed(repo, startedAt, Head(s, repo));
        Settled(s.(ledger := TestsRecorded(s.ledger, repo, o.pass, Head(s, repo)),
                   facts := if o.pass then s.facts + [fact] else s.facts), Fine, now)
    case Reviewing(repo, diff) =>
      if o.Failed? then Settled(s, Refused(StepFailed), now)
      else
        Settled(s.(ledger := ReviewRecorded(s.ledger, repo, o.review, Head(s, repo)),
                   facts := s.facts + [Reviewed(repo, diff, o.review)]), Fine, now)
    case Planning(repo) =>
      if o.Failed? then Settled(s, Refused(StepFailed), now)
      else
        Settled(s.(ledger := PlanRecorded(s.ledger, repo, o.plan),
                   facts := s.facts + [Planned(repo, o.plan)]), Fine, now)
    case Asking => Settled(s, if o.Failed? then Threw else Fine, now)
    case Acknowledging(repo, diff) =>
      if o.Failed? then Settled(s, Threw, now)
      else if o.yes then Waiting(s, Confirming(repo, diff))
      else Settled(s, Refused(PublishDeclined), now)
    case Confirming(repo, diff) =>
      if o.Failed? then Settled(s, Threw, now)
      else if o.yes then CallPublish(s, repo, diff, now)
      else Settled(s, Refused(PublishDeclined), now)
    case Publishing(call) =>
      match o
      case PublishedAt(sha, prUrl) => Settled(s.(ledger := PublishRecorded(s.ledger, call.repo, sha, prUrl)), Fine, now)
      case StubPublish => Settled(s, Fine, now)
      case _ => Settled(s, Refused(PublishFailed), now)
  }

  /** A new process knows only the file; a file it cannot trust keeps it down. */
  function Restarted(s: State): State {
    match Loaded(s.ledger.ticket, s.file)
    case Ok(l) => s.(ledger := l, pending := None, ended := false, reply := NoReply)
    case Err(_) => s.(up := false, pending := None, reply := NoReply)
  }

  predicate Enabled(s: State, e: Event) {
    match e
    case Dispatch(_, _, _, _) => s.up
    case Finish(o, _) => s.up && s.pending.Some? && Fits(s.pending.value, o)
    case MoveHead(_, _) => true
    case Crash => s.up
  }

  function Step(policy: Policy, s: State, e: Event): State
    requires Enabled(s, e)
  {
    match e
    case Dispatch(a, complete, touchesTests, now) => Dispatched(s, policy, a, complete, touchesTests, now)
    case Finish(o, now) => Resumed(s, s.pending.value, o, now)
    case MoveHead(repo, sha) => s.(heads := s.heads[repo := sha])
    case Crash => Restarted(s)
  }

  predicate ValidRun(policy: Policy, s: State, es: seq<Event>)
    decreases |es|
  {
    es == [] || (Enabled(s, es[0]) && ValidRun(policy, Step(policy, s, es[0]), es[1..]))
  }

  function After(policy: Policy, s: State, es: seq<Event>): State
    requires ValidRun(policy, s, es)
    decreases |es|
  {
    if es == [] then s else After(policy, Step(policy, s, es[0]), es[1..])
  }

  predicate Holds(file: Content, l: Ledger) {
    file.Json? && file.snapshot == SnapshotOf(l, file.snapshot.updatedAt)
  }

  /** A prepared ticket: a new ledger on disk, and every repository at its base. */
  predicate Prepared(s: State) {
    && s.up && s.pending.None? && !s.ended && s.facts == [] && s.calls == [] && s.workerSteps == 0
    && s.ledger.actionsUsed == 0 && s.ledger.workerRunsUsed == 0
    && Holds(s.file, s.ledger)
    && (forall repo <- s.ledger.repos ::
         var e := s.ledger.repos[repo];
         e.plan.None? && e.testGreen.None? && e.reviewApproved.None? && e.headSha == e.baseSha == Head(s, repo))
  }

  /** Commits have names and plans have steps, as their schemas demand. */
  predicate WellFormed(e: Event) {
    match e
    case Finish(WorkerRan(sha), _) => sha != ""
    case Finish(PlanGiven(plan), _) => PlanShape(plan)
    case Finish(PublishedAt(sha, _), _) => sha != ""
    case MoveHead(_, sha) => sha != ""
    case _ => true
  }

  predicate AllWellFormed(es: seq<Event>) {
    forall e <- es :: WellFormed(e)
  }

  /** HEAD moves only inside worker runs that succeed. */
  predicate HeadsAreOurs(es: seq<Event>) {
    forall e <- es :: !e.MoveHead?
  }

  // ---------------------------------------------------------------- budgets and the file, over every run

  /** What the running action has taken that the file does not show yet. */
  function ActionInFlight(s: State): nat {
    if s.pending.Some? then 1 else 0
  }

  function WorkerInFlight(s: State): nat {
    if s.pending.Some? && s.pending.value.Worker? then 1 else 0
  }

  /** The ledger as it was before the running action began. */
  function Durable(s: State): Ledger
    requires s.ledger.actionsUsed >= ActionInFlight(s) && s.ledger.workerRunsUsed >= WorkerInFlight(s)
  {
    s.ledger.(actionsUsed := s.ledger.actionsUsed - ActionInFlight(s),
              workerRunsUsed := s.ledger.workerRunsUsed - WorkerInFlight(s))
  }

  predicate FileFollows(s: State) {
    && s.ledger.actionsUsed >= ActionInFlight(s) && s.ledger.workerRunsUsed >= WorkerInFlight(s)
    && Holds(s.file, Durable(s))
  }

  predicate WithinBudget(l: Ledger) {
    l.workerRunsUsed <= l.actionsUsed <= l.maxActions && l.workerRunsUsed <= l.maxWorkerRuns
  }

  /** Every repository has a commit checked out. */
  predicate HeadsNamed(s: State) {
    forall repo <- s.ledger.repos :: Head(s, repo) != ""
  }

  predicate Sound(s: State) {
    && s.up && FileFollows(s)
    && WithinBudget(s.ledger) && WithinBudget(Durable(s))
    && (s.ended ==> s.pending.None?)
    && Persistable(s.ledger) && HeadsNamed(s)
  }

  /** Between taking the budget and the first wait, or the end. */
  predicate Running(s: State, worker: nat) {
    && s.up && !s.ended && worker <= 1 <= s.ledger.actionsUsed && worker <= s.ledger.workerRunsUsed
    && WithinBudget(s.ledger) && Persistable(s.ledger) && HeadsNamed(s)
    && var before :=
      s.ledger.(actionsUsed := s.ledger.actionsUsed - 1, workerRunsUsed := s.ledger.workerRunsUsed - worker);
       WithinBudget(before) && Holds(s.file, before)
  }

  lemma SettledIsSound(s: State, reply: Reply, now: string)
    requires s.up && WithinBudget(s.ledger) && Persistable(s.ledger) && HeadsNamed(s)
    ensures Sound(Settled(s, reply, now))
  {
    hide Persistable;
  }

  lemma WaitingIsSound(s: State, p: Pending)
    requires Running(s, if p.Worker? then 1 else 0)
    ensures Sound(Waiting(s, p))
  {
    hide Persistable;
  }

  lemma PendingIsRunning(s: State)
    requires Sound(s) && s.pending.Some?
    ensures Running(s, if s.pending.value.Worker? then 1 else 0)
  {
    hide Persistable;
  }

  lemma ConsumedIsRunning(s: State)
    requires Sound(s) && s.pending.None? && !s.ended && ConsumedAction(s.ledger).Some?
    ensures Running(s.(ledger := ConsumedAction(s.ledger).value), 0)
  {
    hide EntriesShape;
  }

  lemma CallPublishKeeps(s: State, repo: string, diff: Diff, now: string)
    requires Running(s, 0)
    ensures Sound(CallPublish(s, repo, diff, now))
  {
    hide Sound;
    hide Persistable;
    var t := CallPublish(s, repo, diff, now);
    if t.pending.Some? && |t.calls| > |s.calls| {
      WaitingIsSound(s.(calls := t.calls), t.pending.value);
    } else {
      SettledIsSound(s, t.reply, now);
    }
  }

  lemma OnRepoKeeps(s: State, policy: Policy, a: Action, complete: bool, touchesTests: bool, now: string)
    requires Running(s, 0)
    requires a.RunWorker? || a.RunTests? || a.ReviewDiff? || a.PlanRepo? || a.RequestPublish?
    requires a.repo in s.ledger.repos
    ensures Sound(OnRepo(s, policy, a, complete, touchesTests, now))
  {
    hide Sound;
    hide Running;
    hide CanPublish;
    hide CallPublish;
    hide RangeDiff;
    RunningIsWithin(s, 0);
    match a
    case RunWorker(repo) => WorkerKeeps(s, repo, now);
    case RunTests(repo) => WaitingIsSound(s, Tests(repo, Head(s, repo)));
    case ReviewDiff(repo) =>
      if complete {
        WaitingIsSound(s, Reviewing(repo, RangeDiff(s, repo)));
      } else {
        SettledIsSound(s, Refused(StepFailed), now);
      }
    case PlanRepo(repo) => WaitingIsSound(s, Planning(repo));
    case RequestPublish(repo) =>
      var gate, diff := CanPublish(s.ledger, repo), RangeDiff(s, repo);
      SettledIsSound(s, Refused(InvariantsNotMet(gate)), now);
      SettledIsSound(s, Refused(StepFailed), now);
      CallPublishKeeps(s, repo, diff, now);
      WaitingIsSound(s, Acknowledging(repo, diff));
      WaitingIsSound(s, Confirming(repo, diff));
  }

  lemma RunningIsWithin(s: State, worker: nat)
    requires Running(s, worker)
    ensures s.up && WithinBudget(s.ledger) && Persistable(s.ledger) && HeadsNamed(s)
  {
  }

  lemma WorkerKeeps(s: State, repo: string, now: string)
    requires Running(s, 0)
    ensures Sound(StartWorker(s, repo, now))
  {
    hide Sound;
    hide EntriesShape;
    match ConsumedWorkerRun(s.ledger)
    case None => SettledIsSound(s, Refused(BudgetExhausted), now);
    case Some(l) => WaitingIsSound(s.(ledger := l, workerSteps := s.workerSteps + 1), Worker(repo));
  }

  lemma RunActionKeeps(s: State, policy: Policy, a: Action, complete: bool, touchesTests: bool, now: string)
    requires Running(s, 0)
    ensures Sound(RunAction(s, policy, a, complete, touchesTests, now))
  {
    hide Sound;
    hide Running;
    hide OnRepo;
    RunningIsWithin(s, 0);
    match a
    case AskHuman => WaitingIsSound(s, Asking);
    case ShowHuman => SettledIsSound(s, Fine, now);
    case Done(_) => SettledIsSound(s.(ended := true), Fine, now);
    case Abort(_) => SettledIsSound(s.(ended := true), Fine, now);
    case _ =>
      if a.repo in s.ledger.repos {
        OnRepoKeeps(s, policy, a, complete, touchesTests, now);
      } else {
        SettledIsSound(s, Refused(RepoUnknown), now);
      }
  }

  lemma DispatchKeeps(s: State, policy: Policy, a: Action, complete: bool, touchesTests: bool, now: string)
    requires Sound(s)
    ensures Sound(Dispatched(s, policy, a, complete, touchesTests, now))
  {
    hide RunAction;
    hide Persistable;
    if !s.ended && s.pending.None? {
      SettledIsSound(s, Refused(BudgetExhausted), now);
      if ConsumedAction(s.ledger).Some? {
        ConsumedIsRunning(s);
        RunActionKeeps(s.(ledger := ConsumedAction(s.ledger).value), policy, a, complete, touchesTests, now);
      }
    }
  }

  /** One entry changes, and keeps its shape. */
  lemma RecordedIsPersistable(l: Ledger, repo: string, e: Entry)
    requires Persistable(l) && EntryShape(e)
    ensures Persistable(WithEntry(l, repo, e))
  {
  }

  lemma EntryHasShape(l: Ledger, repo: string)
    requires Persistable(l) && repo in l.repos
    ensures EntryShape(l.repos[repo])
  {
  }

  /** What a step that ends well does to the ledger and the heads. */
  lemma ResumedIsSettled(s: State, p: Pending, o: Outcome, now: string)
    requires Fits(p, o) && !p.Acknowledging? && !p.Confirming?
    ensures var t := Resumed(s, p, o, now);
      t == Settled(s.(ledger := t.ledger, heads := t.heads, facts := t.facts), t.reply, now)
  {
    hide WorkerRunRecorded;
    hide TestsRecorded;
    hide ReviewRecorded;
    hide PlanRecorded;
    hide PublishRecorded;
  }

  /** Only entries changed, and the schema still takes them. */
  predicate Recorded(l: Ledger, l': Ledger) {
    l' == l.(repos := l'.repos) && l'.repos.Keys == l.repos.Keys && Persistable(l')
  }

  lemma EntryRecorded(l: Ledger, repo: string, e: Entry)
    requires Persistable(l) && repo in l.repos && EntryShape(e)
    ensures Recorded(l, WithEntry(l, repo, e))
  {
    RecordedIsPersistable(l, repo, e);
    hide Persistable;
  }

  lemma WorkerRecorded(l: Ledger, repo: string, sha: Sha)
    requires Persistable(l) && sha != ""
    ensures Recorded(l, WorkerRunRecorded(l, repo, sha))
  {
    hide EntriesShape;
    if repo in l.repos {
      EntryHasShape(l, repo);
      EntryRecorded(l, repo, AfterWorkerRun(l.repos[repo], sha));
    }
  }

  lemma VerdictRecorded(l: Ledger, repo: string, pass: bool, review: Review, sha: Sha)
    requires Persistable(l) && (repo in l.repos ==> sha != "")
    ensures Recorded(l, TestsRecorded(l, repo, pass, sha)) && Recorded(l, ReviewRecorded(l, repo, review, sha))
  {
    hide EntriesShape;
    if repo in l.repos {
      EntryHasShape(l, repo);
      EntryRecorded(l, repo, AfterTests(l.repos[repo], pass, sha));
      EntryRecorded(l, repo, AfterReview(l.repos[repo], review, sha));
    }
  }

  lemma PlanIsRecorded(l: Ledger, repo: string, plan: Plan)
    requires Persistable(l) && PlanShape(plan)
    ensures Recorded(l, PlanRecorded(l, repo, plan))
  {
    hide EntriesShape;
    if repo in l.repos {
      EntryHasShape(l, repo);
      EntryRecorded(l, repo, l.repos[repo].(plan := Some(plan)));
    }
  }

  lemma PublishIsRecorded(l: Ledger, repo: string, sha: Sha, prUrl: Option<string>)
    requires Persistable(l) && sha != ""
    ensures Recorded(l, PublishRecorded(l, repo, sha, prUrl))
  {
    hide EntriesShape;
    if repo in l.repos {
      EntryHasShape(l, repo);
      EntryRecorded(l, repo, l.repos[repo].(published := Some(Published(sha, prUrl))));
    }
  }

  lemma ResumedLedger(s: State, p: Pending, o: Outcome, now: string)
    requires Fits(p, o) && !p.Acknowledging? && !p.Confirming?
    requires Persistable(s.ledger) && HeadsNamed(s) && WellFormed(Finish(o, now))
    ensures Recorded(s.ledger, Resumed(s, p, o, now).ledger) && HeadsNamed(Resumed(s, p, o, now))
  {
    hide Persistable;
    hide WorkerRunRecorded;
    hide TestsRecorded;
    hide ReviewRecorded;
    hide PlanRecorded;
    hide PublishRecorded;
    if !o.Failed? {
      match p
      case Worker(repo) => WorkerRecorded(s.ledger, repo, o.headSha);
      case Tests(repo, _) => VerdictRecorded(s.ledger, repo, o.pass, Review(Approve, [], ""), Head(s, repo));
      case Reviewing(repo, _) => VerdictRecorded(s.ledger, repo, true, o.review, Head(s, repo));
      case Planning(repo) => PlanIsRecorded(s.ledger, repo, o.plan);
      case Publishing(call) => if o.PublishedAt? { PublishIsRecorded(s.ledger, call.repo, o.sha, o.prUrl); }
      case _ =>
    }
  }

  lemma FinishKeeps(s: State, o: Outcome, now: string)
    requires Sound(s) && s.pending.Some? && Fits(s.pending.value, o) && WellFormed(Finish(o, now))
    ensures Sound(Resumed(s, s.pending.value, o, now))
  {
    hide Persistable;
    hide Resumed;
    hide HeadsNamed;
    var p := s.pending.value;
    PendingIsRunning(s);
    if p.Acknowledging? || p.Confirming? {
      AnswerKeeps(s, o, now);
    } else {
      ResumedIsSettled(s, p, o, now);
      ResumedLedger(s, p, o, now);
      var t := Resumed(s, p, o, now);
      SettledIsSound(t, t.reply, now);
    }
  }

  lemma AnswerKeeps(s: State, o: Outcome, now: string)
    requires Running(s, 0) && s.pending.Some? && (s.pending.value.Acknowledging? || s.pending.value.Confirming?)
    requires Fits(s.pending.value, o)
    ensures Sound(Resumed(s, s.pending.value, o, now))
  {
    hide Sound;
    hide Running;
    hide CallPublish;
    RunningIsWithin(s, 0);
    SettledIsSound(s, Threw, now);
    SettledIsSound(s, Refused(PublishDeclined), now);
    match s.pending.value
    case Acknowledging(repo, diff) => WaitingIsSound(s, Confirming(repo, diff));
    case Confirming(repo, diff) => CallPublishKeeps(s, repo, diff, now);
  }

  lemma DurableIsPersistable(s: State)
    requires Sound(s)
    ensures Persistable(Durable(s)) && Loaded(s.ledger.ticket, s.file) == Ok(Durable(s))
  {
    LoadUndoesPersistIff(Durable(s), s.file.snapshot.updatedAt);
    hide EntriesShape;
  }

  lemma CrashKeeps(s: State)
    requires Sound(s)
    ensures Sound(Restarted(s)) && Restarted(s).ledger == Durable(s)
  {
    DurableIsPersistable(s);
    hide Persistable;
    hide Loaded;
  }

  lemma StepKeepsSound(policy: Policy, s: State, e: Event)
    requires Sound(s) && Enabled(s, e) && WellFormed(e)
    ensures Sound(Step(policy, s, e))
  {
    hide Dispatched;
    hide Resumed;
    hide Restarted;
    match e
    case Dispatch(a, complete, touchesTests, now) => DispatchKeeps(s, policy, a, complete, touchesTests, now);
    case Finish(o, now) => FinishKeeps(s, o, now);
    case MoveHead(_, _) =>
    case Crash => CrashKeeps(s);
  }
}
