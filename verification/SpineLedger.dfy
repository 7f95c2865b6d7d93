/** The per-repo ledger of verdicts and budgets, and the file it is persisted to. */
module SpineLedger {
  import opened JsText

  type Sha = string

  datatype Plan = Plan(summary: string, steps: seq<string>, risks: seq<string>, readyToImplement: bool)

  datatype Severity = Blocker | Major | Minor

  datatype Finding = Finding(severity: Severity, file: Option<string>, detail: string)

  datatype Verdict = Approve | RequestChanges

  datatype Review = Review(verdict: Verdict, findings: seq<Finding>, summary: string)

  datatype Approval = Approval(sha: Sha, review: Review)

  datatype Published = Published(sha: Sha, prUrl: Option<string>)

  datatype Entry = Entry(
    repoDir: string, baseSha: Sha, headSha: Sha, plan: Option<Plan>,
    testGreen: Option<Sha>, reviewApproved: Option<Approval>, published: Option<Published>)

  datatype Init = Init(repoDir: string, baseSha: Sha)

  datatype Ledger = Ledger(
    ticket: string, maxActions: nat, maxWorkerRuns: nat, repos: map<string, Entry>,
    actionsUsed: nat, workerRunsUsed: nat, instruction: Option<string>)

  // ---------------------------------------------------------------- transitions

  function Fresh(ticket: string, inits: map<string, Init>, maxActions: nat, maxWorkerRuns: nat): Ledger {
    Ledger(ticket, maxActions, maxWorkerRuns,
           map name | name in inits ::
             Entry(inits[name].repoDir, inits[name].baseSha, inits[name].baseSha, None, None, None, None),
           0, 0, None)
  }

  function ConsumedAction(l: Ledger): Option<Ledger> {
    if l.actionsUsed >= l.maxActions then None else Some(l.(actionsUsed := l.actionsUsed + 1))
  }

  function ConsumedWorkerRun(l: Ledger): Option<Ledger> {
    if l.workerRunsUsed >= l.maxWorkerRuns then None else Some(l.(workerRunsUsed := l.workerRunsUsed + 1))
  }

  /** A moved HEAD invalidates both verdicts. */
  function AfterWorkerRun(e: Entry, headSha: Sha): Entry {
    if e.headSha != headSha then e.(testGreen := None, reviewApproved := None, headSha := headSha) else e
  }

  function AfterTests(e: Entry, pass: bool, sha: Sha): Entry {
    e.(testGreen := if pass then Some(sha) else None)
  }

  function AfterReview(e: Entry, review: Review, sha: Sha): Entry {
    e.(reviewApproved := if review.verdict == Approve then Some(Approval(sha, review)) else None)
  }

  function WithEntry(l: Ledger, repo: string, e: Entry): Ledger {
    l.(repos := l.repos[repo := e])
  }

  function WorkerRunRecorded(l: Ledger, repo: string, headSha: Sha): Ledger {
    if repo !in l.repos then l else WithEntry(l, repo, AfterWorkerRun(l.repos[repo], headSha))
  }

  function TestsRecorded(l: Ledger, repo: string, pass: bool, sha: Sha): Ledger {
    if repo !in l.repos then l else WithEntry(l, repo, AfterTests(l.repos[repo], pass, sha))
  }

  function ReviewRecorded(l: Ledger, repo: string, review: Review, sha: Sha): Ledger {
    if repo !in l.repos then l else WithEntry(l, repo, AfterReview(l.repos[repo], review, sha))
  }

  function PlanRecorded(l: Ledger, repo: string, plan: Plan): Ledger {
    if repo !in l.repos then l else WithEntry(l, repo, l.repos[repo].(plan := Some(plan)))
  }

  function PublishRecorded(l: Ledger, repo: string, sha: Sha, prUrl: Option<string>): Ledger {
    if repo !in l.repos then l else WithEntry(l, repo, l.repos[repo].(published := Some(Published(sha, prUrl))))
  }

  // ---------------------------------------------------------------- the publish gate

  datatype Gate = Open | UnknownRepo | NoPlan | NoGreenTests | StaleTests | NoApproval | StaleReview

  function CanPublish(l: Ledger, repo: string): Gate {
    if repo !in l.repos then UnknownRepo
    else
      var e := l.repos[repo];
      if e.plan.None? then NoPlan
      else if e.testGreen.None? then NoGreenTests
      else if e.testGreen.value != e.headSha then StaleTests
      else if e.reviewApproved.None? then NoApproval
      else if e.reviewApproved.value.sha != e.headSha then StaleReview
      else Open
  }

  // ---------------------------------------------------------------- the persisted form

  const LEDGER_VERSION := 1

  datatype Snapshot = Snapshot(
    version: int, ticket: string, actionsUsed: int, maxActions: int, workerRunsUsed: int, maxWorkerRuns: int,
    repos: map<string, Entry>, instruction: Option<string>, updatedAt: string)

  datatype Content = Absent | Garbled | Json(snapshot: Snapshot)

  datatype LoadError = Missing | InvalidJson | ShapeMismatch | TicketMismatch

  datatype Result<+T, +E> = Ok(value: T) | Err(error: E)

  function SnapshotOf(l: Ledger, now: string): Snapshot {
    Snapshot(LEDGER_VERSION, l.ticket, l.actionsUsed, l.maxActions, l.workerRunsUsed, l.maxWorkerRuns,
             l.repos, l.instruction, now)
  }

  predicate PlanShape(p: Plan) {
    p.steps != []
  }

  predicate EntryShape(e: Entry) {
    && e.repoDir != "" && e.baseSha != "" && e.headSha != ""
    && (e.plan.Some? ==> PlanShape(e.plan.value))
    && (e.testGreen.Some? ==> e.testGreen.value != "")
    && (e.reviewApproved.Some? ==> e.reviewApproved.value.sha != "")
    && (e.published.Some? ==> e.published.value.sha != "")
  }

  predicate EntriesShape(repos: map<string, Entry>) {
    forall name <- repos :: EntryShape(repos[name])
  }

  /** The schema a persisted ledger has to satisfy. */
  predicate Shape(s: Snapshot) {
    && s.version == LEDGER_VERSION && s.ticket != ""
    && s.actionsUsed >= 0 && s.maxActions >= 0 && s.workerRunsUsed >= 0 && s.maxWorkerRuns >= 0
    && EntriesShape(s.repos)
  }

  function Loaded(ticket: string, content: Content): Result<Ledger, LoadError> {
    match content
    case Absent => Err(Missing)
    case Garbled => Err(InvalidJson)
    case Json(s) =>
      if !Shape(s) then Err(ShapeMismatch)
      else if s.ticket != ticket then Err(TicketMismatch)
      else
        Ok(Ledger(s.ticket, s.maxActions, s.maxWorkerRuns, s.repos, s.actionsUsed, s.workerRunsUsed, s.instruction))
  }

  /** What a ledger needs to survive the schema. */
  predicate Persistable(l: Ledger) {
    l.ticket != "" && EntriesShape(l.repos)
  }

  /** Loading what was persisted gives the whole ledger back, or else is refused. */
  lemma LoadUndoesPersistIff(l: Ledger, now: string)
    ensures Loaded(l.ticket, Json(SnapshotOf(l, now))) == if Persistable(l) then Ok(l) else Err(ShapeMismatch)
  {
  }

  // ---------------------------------------------------------------- the ledger object

  class LedgerFile {
    var content: Content

    constructor (content: Content)
      ensures this.content == content
    {
      this.content := content;
    }
  }

  class SpineLedger {
    const ticket: string
    const maxActions: nat
    const maxWorkerRuns: nat
    var repos: map<string, Entry>
    var actionsUsed: nat
    var workerRunsUsed: nat
    var instruction: Option<string>

    ghost function State(): Ledger
      reads this
    {
      Ledger(ticket, maxActions, maxWorkerRuns, repos, actionsUsed, workerRunsUsed, instruction)
    }

    constructor (ticket: string, inits: map<string, Init>, maxActions: nat, maxWorkerRuns: nat)
      ensures State() == Fresh(ticket, inits, maxActions, maxWorkerRuns)
    {
      this.ticket := ticket;
      this.maxActions := maxActions;
      this.maxWorkerRuns := maxWorkerRuns;
      repos := map name | name in inits ::
        Entry(inits[name].repoDir, inits[name].baseSha, inits[name].baseSha, None, None, None, None);
      actionsUsed := 0;
      workerRunsUsed := 0;
      instruction := None;
    }

    method ConsumeAction() returns (ok: bool)
      modifies this
      ensures ok == ConsumedAction(old(State())).Some?
      ensures State() == ConsumedAction(old(State())).GetOr(old(State()))
    {
      if actionsUsed >= maxActions {
        return false;
      }
      actionsUsed := actionsUsed + 1;
      return true;
    }

    method ConsumeWorkerRun() returns (ok: bool)
      modifies this
      ensures ok == ConsumedWorkerRun(old(State())).Some?
      ensures State() == ConsumedWorkerRun(old(State())).GetOr(old(State()))
    {
      if workerRunsUsed >= maxWorkerRuns {
        return false;
      }
      workerRunsUsed := workerRunsUsed + 1;
      return true;
    }

    method RecordWorkerRun(repo: string, headSha: Sha)
      modifies this
      ensures State() == WorkerRunRecorded(old(State()), repo, headSha)
    {
      if repo !in repos {
        return;
      }
      if repos[repo].headSha != headSha {
        repos := repos[repo := repos[repo].(testGreen := None, reviewApproved := None)];
      }
      repos := repos[repo := repos[repo].(headSha := headSha)];
      assert State().repos == WorkerRunRecorded(old(State()), repo, headSha).repos;
    }

    method RecordTests(repo: string, pass: bool, sha: Sha)
      modifies this
      ensures State() == TestsRecorded(old(State()), repo, pass, sha)
    {
      if repo !in repos {
        return;
      }
      repos := repos[repo := repos[repo].(testGreen := if pass then Some(sha) else None)];
    }

    method RecordReview(repo: string, review: Review, sha: Sha)
      modifies this
      ensures State() == ReviewRecorded(old(State()), repo, review, sha)
    {
      if repo !in repos {
        return;
      }
      var approved := if review.verdict == Approve then Some(Approval(sha, review)) else None;
      repos := repos[repo := repos[repo].(reviewApproved := approved)];
    }

    method RecordPlan(repo: string, plan: Plan)
      modifies this
      ensures State() == PlanRecorded(old(State()), repo, plan)
    {
      if repo !in repos {
        return;
      }
      repos := repos[repo := repos[repo].(plan := Some(plan))];
    }

    method RecordPublished(repo: string, sha: Sha, prUrl: Option<string>)
      modifies this
      ensures State() == PublishRecorded(old(State()), repo, sha, prUrl)
    {
      if repo !in repos {
        return;
      }
      repos := repos[repo := repos[repo].(published := Some(Published(sha, prUrl)))];
    }

    method SetInstruction(text: string)
      modifies this
      ensures State() == old(State()).(instruction := Some(text))
    {
      instruction := Some(text);
    }

    method Persist(file: LedgerFile, now: string)
      modifies file
      ensures file.content == Json(SnapshotOf(State(), now))
    {
      file.content := Json(Snapshot(LEDGER_VERSION, ticket, actionsUsed, maxActions, workerRunsUsed, maxWorkerRuns,
                                    repos, instruction, now));
    }

    /** Fails closed: a ledger comes back whole or not at all. */
    static method Load(ticket: string, file: LedgerFile) returns (r: Result<SpineLedger, LoadError>)
      ensures match Loaded(ticket, file.content)
        case Ok(l) => r.Ok? && fresh(r.value) && r.value.State() == l
        case Err(e) => r == Err(e)
    {
      match file.content {
        case Absent => return Err(Missing);
        case Garbled => return Err(InvalidJson);
        case Json(s) =>
          if !Shape(s) {
            return Err(ShapeMismatch);
          }
          if s.ticket != ticket {
            return Err(TicketMismatch);
          }
          var ledger := new SpineLedger(s.ticket, map[], s.maxActions, s.maxWorkerRuns);
          ledger.actionsUsed := s.actionsUsed;
          ledger.workerRunsUsed := s.workerRunsUsed;
          ledger.instruction := s.instruction;
          ledger.repos := s.repos;
          return Ok(ledger);
      }
    }
  }
}
