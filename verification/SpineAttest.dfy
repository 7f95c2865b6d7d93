/** What each call to publish() is backed by, and when the backing can fail. */
module SpineAttest {
  import opened JsText
  import opened SpineLedger
  import opened SpineExecutor
  import SpineRuns

  // ---------------------------------------------------------------- what the recorded verdicts stand for

  /** Tests passed, from start to end, at the very commit the diff ends at; the very diff was
      reviewed and approved; the plan is one the planner gave. */
  predicate CallAttested(facts: seq<Fact>, c: Call) {
    && Planned(c.repo, c.plan) in facts
    && TestsPassed(c.repo, c.diff.headSha, c.diff.headSha) in facts
    && Reviewed(c.repo, c.diff, c.review) in facts && c.review.verdict == Approve
  }

  /** A verdict that counts at the recorded head was really given there. */
  predicate EntryAttested(facts: seq<Fact>, repo: string, e: Entry) {
    && (e.plan.Some? ==> Planned(repo, e.plan.value) in facts)
    && (e.testGreen == Some(e.headSha) ==> TestsPassed(repo, e.headSha, e.headSha) in facts)
    && (e.reviewApproved.Some? ==> e.reviewApproved.value.review.verdict == Approve)
    && (e.reviewApproved.Some? && e.reviewApproved.value.sha == e.headSha ==>
         Reviewed(repo, Diff(e.baseSha, e.headSha), e.reviewApproved.value.review) in facts)
  }

  /** Both verdicts count at the recorded head. */
  predicate BothAtHead(e: Entry) {
    e.testGreen == Some(e.headSha) && e.reviewApproved.Some? && e.reviewApproved.value.sha == e.headSha
  }

  /** The verdicts also hold at the commit that is checked out. */
  predicate Vouched(facts: seq<Fact>, repo: string, e: Entry, head: Sha) {
    && TestsPassed(repo, head, head) in facts
    && e.reviewApproved.Some? && Reviewed(repo, Diff(e.baseSha, head), e.reviewApproved.value.review) in facts
  }

  /** The actions a publish still needs. */
  function Cost(e: Entry): nat {
    if e.plan.Some? then 1 else 2
  }

  /** Publishing now would be backed, or cannot happen before a worker run. */
  predicate Safe(l: Ledger, facts: seq<Fact>, repo: string, e: Entry, head: Sha, used: int) {
    BothAtHead(e) ==> Vouched(facts, repo, e, head) || used + Cost(e) > l.maxActions
  }

  /** What waits was begun at the commit that is still checked out, or will count for nothing. */
  predicate PendingHonest(s: State) {
    match s.pending
    case Some(Worker(repo)) => repo in s.ledger.repos
    case Some(Tests(repo, startedAt)) =>
      repo in s.ledger.repos && (startedAt == Head(s, repo) || Head(s, repo) != s.ledger.repos[repo].headSha)
    case Some(Planning(repo)) => repo in s.ledger.repos
    case Some(Publishing(call)) => call.repo in s.ledger.repos
    case Some(Reviewing(repo, diff)) =>
      repo in s.ledger.repos && (diff == RangeDiff(s, repo) || Head(s, repo) != s.ledger.repos[repo].headSha)
    case Some(Acknowledging(repo, diff)) => Ready(s, repo, diff)
    case Some(Confirming(repo, diff)) => Ready(s, repo, diff)
    case _ => true
  }

  /** The gate is open for this diff, and its verdicts hold at its head. */
  predicate Ready(s: State, repo: string, diff: Diff) {
    && repo in s.ledger.repos && diff.baseSha == s.ledger.repos[repo].baseSha && CanPublish(s.ledger, repo) == Open
    && Vouched(s.facts, repo, s.ledger.repos[repo], diff.headSha)
  }

  function Used(s: State): int {
    s.ledger.actionsUsed - ActionInFlight(s)
  }

  predicate EntriesHonest(s: State) {
    forall repo <- s.ledger.repos ::
      var e := s.ledger.repos[repo];
      EntryAttested(s.facts, repo, e) && Safe(s.ledger, s.facts, repo, e, Head(s, repo), Used(s))
  }

  predicate CallsAttested(s: State) {
    forall c <- s.calls :: CallAttested(s.facts, c)
  }

  predicate Honest(s: State) {
    EntriesHonest(s) && CallsAttested(s) && PendingHonest(s)
  }

  /** The ledger's heads are the real ones, and every verdict is at them. */
  predicate EntryTracks(e: Entry, head: Sha) {
    && e.headSha == head
    && (e.testGreen.Some? ==> e.testGreen.value == head)
    && (e.reviewApproved.Some? ==> e.reviewApproved.value.sha == head)
  }

  predicate Tracking(s: State) {
    forall repo <- s.ledger.repos :: EntryTracks(s.ledger.repos[repo], Head(s, repo))
  }

  lemma PreparedIsHonest(s: State)
    requires Prepared(s)
    ensures Honest(s) && Tracking(s)
  {
  }

  // ---------------------------------------------------------------- one entry at a time

  lemma FactsGrow(facts: seq<Fact>, more: seq<Fact>, l: Ledger, repo: string, e: Entry, head: Sha, used: int)
    ensures EntryAttested(facts, repo, e) ==> EntryAttested(facts + more, repo, e)
    ensures Safe(l, facts, repo, e, head, used) ==> Safe(l, facts + more, repo, e, head, used)
    ensures Vouched(facts, repo, e, head) ==> Vouched(facts + more, repo, e, head)
  {
  }

  lemma CallsGrow(facts: seq<Fact>, more: seq<Fact>, c: Call)
    ensures CallAttested(facts, c) ==> CallAttested(facts + more, c)
  {
  }

  /** The same entries and heads, perhaps more actions used. */
  lemma EntriesStay(s: State, t: State)
    requires EntriesHonest(s)
    requires t.ledger.repos == s.ledger.repos && t.heads == s.heads && t.facts == s.facts
    requires t.ledger.maxActions == s.ledger.maxActions && Used(t) >= Used(s)
    ensures EntriesHonest(t)
    ensures Tracking(s) ==> Tracking(t)
  {
    hide EntryAttested;
    hide Vouched;
    forall repo <- t.ledger.repos
      ensures var e := t.ledger.repos[repo];
        EntryAttested(t.facts, repo, e) && Safe(t.ledger, t.facts, repo, e, Head(t, repo), Used(t))
    {
      assert Safe(s.ledger, s.facts, repo, s.ledger.repos[repo], Head(s, repo), Used(s));
    }
  }

  /** One entry is recorded anew, and perhaps its head and one more fact. */
  lemma OneEntryChanges(s: State, t: State, repo: string, e: Entry, more: seq<Fact>)
    requires EntriesHonest(s) && repo in s.ledger.repos
    requires t.ledger.repos == s.ledger.repos[repo := e] && t.facts == s.facts + more
    requires t.ledger.maxActions == s.ledger.maxActions && Used(t) >= Used(s)
    requires forall other | other != repo :: Head(t, other) == Head(s, other)
    requires EntryAttested(t.facts, repo, e) && Safe(t.ledger, t.facts, repo, e, Head(t, repo), Used(t))
    ensures EntriesHonest(t)
    ensures Tracking(s) && EntryTracks(e, Head(t, repo)) ==> Tracking(t)
  {
    forall other <- t.ledger.repos
      ensures var x := t.ledger.repos[other];
        EntryAttested(t.facts, other, x) && Safe(t.ledger, t.facts, other, x, Head(t, other), Used(t))
    {
      if other != repo {
        var x := s.ledger.repos[other];
        FactsGrow(s.facts, more, s.ledger, other, x, Head(s, other), Used(s));
        hide EntryAttested;
        hide Vouched;
      }
    }
  }

  /** A worker run leaves nothing that counts at a commit it was not given for. */
  lemma WorkerEntry(l: Ledger, facts: seq<Fact>, repo: string, e: Entry, sha: Sha, used: int)
    requires EntryAttested(facts, repo, e)
    ensures var e' := AfterWorkerRun(e, sha);
      EntryAttested(facts, repo, e') && Safe(l, facts, repo, e', sha, used)
      && (EntryTracks(e, e.headSha) ==> EntryTracks(e', sha))
  {
  }

  lemma TestsEntry(l: Ledger, facts: seq<Fact>, repo: string, e: Entry, pass: bool, head: Sha, used: int, used': int)
    requires EntryAttested(facts, repo, e) && Safe(l, facts, repo, e, head, used)
    requires pass && head == e.headSha ==> TestsPassed(repo, head, head) in facts
    ensures var e' := AfterTests(e, pass, head);
      EntryAttested(facts, repo, e') && Safe(l, facts, repo, e', head, used')
      && (EntryTracks(e, head) ==> EntryTracks(e', head))
  {
  }

  lemma ReviewEntry(
    l: Ledger, facts: seq<Fact>, repo: string, e: Entry, review: Review, head: Sha, used: int, used': int)
    requires EntryAttested(facts, repo, e) && Safe(l, facts, repo, e, head, used)
    requires head == e.headSha ==> Reviewed(repo, Diff(e.baseSha, head), review) in facts
    ensures var e' := AfterReview(e, review, head);
      EntryAttested(facts, repo, e') && Safe(l, facts, repo, e', head, used')
      && (EntryTracks(e, head) ==> EntryTracks(e', head))
  {
  }

  lemma PlanEntry(l: Ledger, facts: seq<Fact>, repo: string, e: Entry, plan: Plan, head: Sha, used: int)
    requires EntryAttested(facts, repo, e) && Safe(l, facts, repo, e, head, used)
    requires Planned(repo, plan) in facts
    ensures var e' := e.(plan := Some(plan));
      EntryAttested(facts, repo, e') && Safe(l, facts, repo, e', head, used + 1)
      && (EntryTracks(e, head) ==> EntryTracks(e', head))
  {
  }

  // ---------------------------------------------------------------- every step keeps the backing

  lemma ReadyCallIsAttested(s: State, repo: string, diff: Diff)
    requires EntriesHonest(s) && Ready(s, repo, diff)
    ensures var e := s.ledger.repos[repo];
      e.plan.Some? && e.reviewApproved.Some?
      && CallAttested(s.facts, Call(repo, e.plan.value, e.reviewApproved.value.review, diff))
  {
  }

  lemma CallPublishKeepsHonest(s: State, repo: string, diff: Diff, now: string)
    requires EntriesHonest(s) && CallsAttested(s) && Ready(s, repo, diff)
    ensures var t := CallPublish(s, repo, diff, now);
      CallsAttested(t) && PendingHonest(t) && t == s.(pending := t.pending, calls := t.calls)
  {
    ReadyCallIsAttested(s, repo, diff);
    hide CallAttested;
  }

  /** With the gate open and an action to spend, the diff of the moment is backed. */
  lemma OpenGateIsReady(s: State, repo: string)
    requires EntriesHonest(s) && repo in s.ledger.repos && CanPublish(s.ledger, repo) == Open
    requires Used(s) + 1 <= s.ledger.maxActions
    ensures Ready(s, repo, RangeDiff(s, repo))
  {
    var e := s.ledger.repos[repo];
    assert Safe(s.ledger, s.facts, repo, e, Head(s, repo), Used(s));
  }

  lemma OnRepoKeepsHonest(s: State, policy: Policy, a: Action, complete: bool, touchesTests: bool, now: string)
    requires a.RunWorker? || a.RunTests? || a.ReviewDiff? || a.PlanRepo? || a.RequestPublish?
    requires a.repo in s.ledger.repos && EntriesHonest(s) && CallsAttested(s) && s.pending.None?
    requires CanPublish(s.ledger, a.repo) == Open ==> Ready(s, a.repo, RangeDiff(s, a.repo))
    ensures var t := OnRepo(s, policy, a, complete, touchesTests, now);
      CallsAttested(t) && PendingHonest(t) && t.facts == s.facts && t.heads == s.heads
  {
    hide CallAttested;
    hide Vouched;
    hide EntriesHonest;
    hide CanPublish;
    hide CallPublish;
    if a.RequestPublish? && CanPublish(s.ledger, a.repo) == Open && complete && policy == BrokerOnly {
      CallPublishKeepsHonest(s, a.repo, RangeDiff(s, a.repo), now);
    }
  }

  lemma ConsumedStaysReady(s: State, l: Ledger, repo: string)
    requires ConsumedAction(s.ledger) == Some(l) && EntriesHonest(s) && s.pending.None?
    requires repo in l.repos && CanPublish(l, repo) == Open
    ensures Ready(s.(ledger := l), repo, RangeDiff(s.(ledger := l), repo))
  {
    OpenGateIsReady(s, repo);
  }

  lemma RunActionKeepsHonest(s: State, policy: Policy, a: Action, complete: bool, touchesTests: bool, now: string)
    requires EntriesHonest(s) && CallsAttested(s) && s.pending.None?
    requires forall repo | repo in s.ledger.repos && CanPublish(s.ledger, repo) == Open ::
      Ready(s, repo, RangeDiff(s, repo))
    ensures var t := RunAction(s, policy, a, complete, touchesTests, now);
      CallsAttested(t) && PendingHonest(t) && t.facts == s.facts && t.heads == s.heads
  {
    hide CallAttested;
    hide EntriesHonest;
    hide OnRepo;
    hide CanPublish;
    hide Ready;
    if (a.RunWorker? || a.RunTests? || a.ReviewDiff? || a.PlanRepo? || a.RequestPublish?) && a.repo in s.ledger.repos {
      OnRepoKeepsHonest(s, policy, a, complete, touchesTests, now);
    }
  }

  lemma DispatchKeepsHonest(s: State, policy: Policy, a: Action, complete: bool, touchesTests: bool, now: string)
    requires Honest(s) && Sound(s)
    ensures var t := Dispatched(s, policy, a, complete, touchesTests, now);
      Honest(t) && (Tracking(s) ==> Tracking(t))
  {
    hide CallAttested;
    hide RunAction;
    hide CanPublish;
    hide Ready;
    hide EntriesHonest;
    hide Tracking;
    var t := Dispatched(s, policy, a, complete, touchesTests, now);
    DispatchMoves(s, policy, a, complete, touchesTests, now);
    EntriesStay(s, t);
    if s.ended || s.pending.Some? {
      ReplyKeepsHonest(s, t.reply);
    } else if ConsumedAction(s.ledger).Some? {
      var l := ConsumedAction(s.ledger).value;
      var s1 := s.(ledger := l);
      EntriesStay(s, s1);
      forall repo | repo in l.repos && CanPublish(l, repo) == Open ensures Ready(s1, repo, RangeDiff(s1, repo)) {
        ConsumedStaysReady(s, l, repo);
      }
      RunActionKeepsHonest(s1, policy, a, complete, touchesTests, now);
    }
  }

  lemma ReplyKeepsHonest(s: State, reply: Reply)
    requires Honest(s)
    ensures Honest(s.(reply := reply))
  {
    hide EntryAttested;
    hide Safe;
    hide CallAttested;
  }

  lemma DispatchMoves(s: State, policy: Policy, a: Action, complete: bool, touchesTests: bool, now: string)
    requires Sound(s)
    ensures var t := Dispatched(s, policy, a, complete, touchesTests, now);
      && t.ledger.repos == s.ledger.repos && t.ledger.maxActions == s.ledger.maxActions && Used(t) >= Used(s)
      && t.facts == s.facts && t.heads == s.heads
  {
    SpineRuns.DispatchCounts(s, policy, a, complete, touchesTests, now);
    DispatchKeepsFacts(s, policy, a, complete, touchesTests, now);
    hide Dispatched;
    hide Persistable;
  }

  lemma DispatchKeepsFacts(s: State, policy: Policy, a: Action, complete: bool, touchesTests: bool, now: string)
    ensures var t := Dispatched(s, policy, a, complete, touchesTests, now);
      t.facts == s.facts && t.heads == s.heads && Used(t) >= Used(s)
  {
    hide RunAction;
    if ConsumedAction(s.ledger).Some? {
      RunActionKeepsFacts(s.(ledger := ConsumedAction(s.ledger).value), policy, a, complete, touchesTests, now);
    }
  }

  lemma RunActionKeepsFacts(s: State, policy: Policy, a: Action, complete: bool, touchesTests: bool, now: string)
    ensures var t := RunAction(s, policy, a, complete, touchesTests, now);
      t.facts == s.facts && t.heads == s.heads && t.ledger.actionsUsed == s.ledger.actionsUsed
  {
    hide OnRepo;
    if (a.RunWorker? || a.RunTests? || a.ReviewDiff? || a.PlanRepo? || a.RequestPublish?) && a.repo in s.ledger.repos {
      OnRepoKeepsFacts(s, policy, a, complete, touchesTests, now);
    }
  }

  lemma OnRepoKeepsFacts(s: State, policy: Policy, a: Action, complete: bool, touchesTests: bool, now: string)
    requires a.RunWorker? || a.RunTests? || a.ReviewDiff? || a.PlanRepo? || a.RequestPublish?
    requires a.repo in s.ledger.repos
    ensures var t := OnRepo(s, policy, a, complete, touchesTests, now);
      t.facts == s.facts && t.heads == s.heads && t.ledger.actionsUsed == s.ledger.actionsUsed
  {
    hide CanPublish;
  }

  /** A step that ends well: one entry recorded, one fact more. */
  lemma EntryFinishes(s: State, t: State, repo: string, e: Entry, more: seq<Fact>)
    requires Honest(s) && repo in s.ledger.repos
    requires t.ledger.repos == s.ledger.repos[repo := e] && t.facts == s.facts + more && t.calls == s.calls
    requires t.ledger.maxActions == s.ledger.maxActions && Used(t) >= Used(s) && t.pending.None?
    requires forall other | other != repo :: Head(t, other) == Head(s, other)
    requires EntryAttested(t.facts, repo, e) && Safe(t.ledger, t.facts, repo, e, Head(t, repo), Used(t))
    ensures Honest(t)
    ensures Tracking(s) && EntryTracks(e, Head(t, repo)) ==> Tracking(t)
  {
    OneEntryChanges(s, t, repo, e, more);
    forall c <- t.calls ensures CallAttested(t.facts, c) {
      CallsGrow(s.facts, more, c);
    }
    hide EntriesHonest;
    hide CallAttested;
  }

  lemma WorkerFinishes(s: State, repo: string, sha: Sha, now: string)
    requires Honest(s) && Sound(s) && s.pending == Some(Worker(repo))
    ensures var t := Resumed(s, Worker(repo), WorkerRan(sha), now);
      Honest(t) && (Tracking(s) ==> Tracking(t))
  {
    hide EntryAttested;
    hide EntryTracks;
    hide Safe;
    hide AfterWorkerRun;
    hide CallAttested;
    hide Persistable;
    var t := Resumed(s, Worker(repo), WorkerRan(sha), now);
    var e := s.ledger.repos[repo];
    WorkerEntry(t.ledger, s.facts, repo, e, sha, Used(t));
    assert s.facts + [] == s.facts;
    TracksItsHead(e, Head(s, repo));
    EntryFinishes(s, t, repo, AfterWorkerRun(e, sha), []);
  }

  lemma TracksItsHead(e: Entry, head: Sha)
    ensures EntryTracks(e, head) ==> EntryTracks(e, e.headSha)
  {
  }

  lemma TestsFinish(s: State, repo: string, startedAt: Sha, pass: bool, now: string)
    requires Honest(s) && Sound(s) && s.pending == Some(Tests(repo, startedAt))
    ensures var t := Resumed(s, Tests(repo, startedAt), TestsRan(pass), now);
      Honest(t) && (Tracking(s) ==> Tracking(t))
  {
    hide EntryAttested;
    hide EntryTracks;
    hide Safe;
    hide AfterTests;
    hide CallAttested;
    hide Persistable;
    var t := Resumed(s, Tests(repo, startedAt), TestsRan(pass), now);
    var e, head := s.ledger.repos[repo], Head(s, repo);
    var more := if pass then [TestsPassed(repo, startedAt, head)] else [];
    assert t.facts == s.facts + more;
    EntryIsHonest(s, t, repo, more);
    TestsEntry(t.ledger, t.facts, repo, e, pass, head, Used(s), Used(t));
    EntryFinishes(s, t, repo, AfterTests(e, pass, head), more);
  }

  lemma EntryIsHonest(s: State, t: State, repo: string, more: seq<Fact>)
    requires EntriesHonest(s) && repo in s.ledger.repos && t.facts == s.facts + more
    requires t.ledger.maxActions == s.ledger.maxActions
    ensures var e := s.ledger.repos[repo];
      EntryAttested(t.facts, repo, e) && Safe(t.ledger, t.facts, repo, e, Head(s, repo), Used(s))
      && (Tracking(s) ==> EntryTracks(e, Head(s, repo)))
  {
    FactsGrow(s.facts, more, s.ledger, repo, s.ledger.repos[repo], Head(s, repo), Used(s));
    hide EntryAttested;
    hide Vouched;
  }

  lemma ReviewFinishes(s: State, repo: string, diff: Diff, review: Review, now: string)
    requires Honest(s) && Sound(s) && s.pending == Some(Reviewing(repo, diff))
    ensures var t := Resumed(s, Reviewing(repo, diff), ReviewGiven(review), now);
      Honest(t) && (Tracking(s) ==> Tracking(t))
  {
    hide EntryAttested;
    hide EntryTracks;
    hide Safe;
    hide AfterReview;
    hide CallAttested;
    hide Persistable;
    var t := Resumed(s, Reviewing(repo, diff), ReviewGiven(review), now);
    var e, head := s.ledger.repos[repo], Head(s, repo);
    var more := [Reviewed(repo, diff, review)];
    EntryIsHonest(s, t, repo, more);
    ReviewEntry(t.ledger, t.facts, repo, e, review, head, Used(s), Used(t));
    EntryFinishes(s, t, repo, AfterReview(e, review, head), more);
  }

  lemma PlanFinishes(s: State, repo: string, plan: Plan, now: string)
    requires Honest(s) && Sound(s) && s.pending == Some(Planning(repo))
    ensures var t := Resumed(s, Planning(repo), PlanGiven(plan), now);
      Honest(t) && (Tracking(s) ==> Tracking(t))
  {
    hide EntryAttested;
    hide EntryTracks;
    hide Safe;
    hide CallAttested;
    hide Persistable;
    var t := Resumed(s, Planning(repo), PlanGiven(plan), now);
    var e, head := s.ledger.repos[repo], Head(s, repo);
    var more := [Planned(repo, plan)];
    EntryIsHonest(s, t, repo, more);
    PlanEntry(t.ledger, t.facts, repo, e, plan, head, Used(s));
    EntryFinishes(s, t, repo, e.(plan := Some(plan)), more);
  }

  /** Recording a publish touches no verdict. */
  lemma PublishFinishes(s: State, call: Call, sha: Sha, prUrl: Option<string>, now: string)
    requires Honest(s) && Sound(s) && s.pending == Some(Publishing(call))
    ensures var t := Resumed(s, Publishing(call), PublishedAt(sha, prUrl), now);
      Honest(t) && (Tracking(s) ==> Tracking(t))
  {
    hide CallAttested;
    hide Persistable;
    var repo := call.repo;
    var t := Resumed(s, Publishing(call), PublishedAt(sha, prUrl), now);
    var e := s.ledger.repos[repo];
    assert s.facts + [] == s.facts;
    EntryIsHonest(s, t, repo, []);
    EntryFinishes(s, t, repo, e.(published := Some(Published(sha, prUrl))), []);
  }

  /** A step that fails, or an answer that ends the matter. */
  lemma SettledStaysHonest(s: State, reply: Reply, now: string)
    requires Honest(s) && Sound(s)
    ensures Honest(Settled(s, reply, now)) && (Tracking(s) ==> Tracking(Settled(s, reply, now)))
  {
    hide CallAttested;
    hide Persistable;
    hide EntriesHonest;
    hide Tracking;
    EntriesStay(s, Settled(s, reply, now));
  }

  lemma AnswerKeepsHonest(s: State, o: Outcome, now: string)
    requires Honest(s) && Sound(s) && s.pending.Some? && Fits(s.pending.value, o)
    requires s.pending.value.Acknowledging? || s.pending.value.Confirming?
    ensures var t := Resumed(s, s.pending.value, o, now);
      Honest(t) && (Tracking(s) ==> Tracking(t))
  {
    hide CallAttested;
    hide Sound;
    hide EntriesHonest;
    hide CallPublish;
    hide Ready;
    SettledStaysHonest(s, Threw, now);
    SettledStaysHonest(s, Refused(PublishDeclined), now);
    hide Settled;
    if !o.Failed? && o.yes {
      match s.pending.value
      case Acknowledging(repo, diff) => NextQuestionKeepsHonest(s, repo, diff);
      case Confirming(repo, diff) => ConfirmedKeepsHonest(s, repo, diff, now);
    }
  }

  lemma NextQuestionKeepsHonest(s: State, repo: string, diff: Diff)
    requires Honest(s) && s.pending == Some(Acknowledging(repo, diff))
    ensures Honest(Waiting(s, Confirming(repo, diff))) && (Tracking(s) ==> Tracking(Waiting(s, Confirming(repo, diff))))
  {
    hide CallAttested;
    EntriesStay(s, Waiting(s, Confirming(repo, diff)));
    hide EntriesHonest;
  }

  lemma ConfirmedKeepsHonest(s: State, repo: string, diff: Diff, now: string)
    requires Honest(s) && s.pending == Some(Confirming(repo, diff)) && Sound(s)
    ensures var t := CallPublish(s, repo, diff, now);
      Honest(t) && (Tracking(s) ==> Tracking(t))
  {
    hide CallAttested;
    hide Persistable;
    var t := CallPublish(s, repo, diff, now);
    CallPublishKeepsHonest(s, repo, diff, now);
    EntriesStay(s, t);
    hide EntriesHonest;
    hide CallPublish;
  }

  lemma FinishKeepsHonest(s: State, o: Outcome, now: string)
    requires Honest(s) && Sound(s) && s.pending.Some? && Fits(s.pending.value, o)
    ensures var t := Resumed(s, s.pending.value, o, now);
      Honest(t) && (Tracking(s) ==> Tracking(t))
  {
    hide Honest;
    hide Sound;
    hide Tracking;
    SettledStaysHonest(s, Refused(StepFailed), now);
    SettledStaysHonest(s, Refused(PublishFailed), now);
    SettledStaysHonest(s, Fine, now);
    SettledStaysHonest(s, Threw, now);
    match s.pending.value
    case Worker(repo) => if o.WorkerRan? { WorkerFinishes(s, repo, o.headSha, now); }
    case Tests(repo, startedAt) => if o.TestsRan? { TestsFinish(s, repo, startedAt, o.pass, now); }
    case Reviewing(repo, diff) => if o.ReviewGiven? { ReviewFinishes(s, repo, diff, o.review, now); }
    case Planning(repo) => if o.PlanGiven? { PlanFinishes(s, repo, o.plan, now); }
    case Asking =>
    case Acknowledging(_, _) => AnswerKeepsHonest(s, o, now);
    case Confirming(_, _) => AnswerKeepsHonest(s, o, now);
    case Publishing(call) => if o.PublishedAt? { PublishFinishes(s, call, o.sha, o.prUrl, now); }
  }

  lemma CrashKeepsHonest(s: State)
    requires Honest(s) && Sound(s)
    ensures Honest(Restarted(s)) && (Tracking(s) ==> Tracking(Restarted(s)))
  {
    hide CallAttested;
    hide Persistable;
    CrashKeeps(s);
    SpineRuns.RestartKeepsHistory(s);
    hide Restarted;
    EntriesStay(s, Restarted(s));
    hide EntriesHonest;
    hide Tracking;
  }

  lemma StepKeepsHonest(policy: Policy, s: State, e: Event)
    requires Honest(s) && Sound(s) && Enabled(s, e) && !e.MoveHead?
    ensures Honest(Step(policy, s, e)) && (Tracking(s) ==> Tracking(Step(policy, s, e)))
  {
    hide Honest;
    hide Sound;
    hide Tracking;
    hide Dispatched;
    hide Resumed;
    hide Restarted;
    match e
    case Dispatch(a, complete, touchesTests, now) => DispatchKeepsHonest(s, policy, a, complete, touchesTests, now);
    case Finish(o, now) => FinishKeepsHonest(s, o, now);
    case Crash => CrashKeepsHonest(s);
  }

  lemma {:induction false} RunKeepsHonest(policy: Policy, s: State, es: seq<Event>)
    requires Honest(s) && Sound(s) && ValidRun(policy, s, es) && AllWellFormed(es) && HeadsAreOurs(es)
    ensures Honest(After(policy, s, es)) && (Tracking(s) ==> Tracking(After(policy, s, es)))
    decreases |es|
  {
    hide Honest;
    hide Sound;
    hide Tracking;
    hide Step;
    hide Enabled;
    hide WellFormed;
    if es != [] {
      StepKeepsSound(policy, s, es[0]);
      StepKeepsHonest(policy, s, es[0]);
      RunKeepsHonest(policy, Step(policy, s, es[0]), es[1..]);
    }
  }

  // ---------------------------------------------------------------- every call is backed

  predicate Stale(g: Gate) {
    g == StaleTests || g == StaleReview
  }

  /** While HEAD moves only inside worker runs that succeed, every publish is backed by a plan, by
      green tests and by an approving review of exactly its diff, and no verdict is ever stale. */
  lemma EveryCallIsAttested(policy: Policy, s: State, es: seq<Event>)
    requires Prepared(s) && Persistable(s.ledger)
    requires ValidRun(policy, s, es) && AllWellFormed(es) && HeadsAreOurs(es)
    ensures var t := After(policy, s, es);
      && (forall c <- t.calls :: CallAttested(t.facts, c))
      && (forall repo <- t.ledger.repos :: t.ledger.repos[repo].headSha == Head(t, repo))
      && (forall repo :: !Stale(CanPublish(t.ledger, repo)))
  {
    hide Step;
    hide CallAttested;
    hide EntriesHonest;
    hide Persistable;
    SpineRuns.PreparedIsSound(s);
    PreparedIsHonest(s);
    RunKeepsHonest(policy, s, es);
    var t := After(policy, s, es);
    forall repo ensures !Stale(CanPublish(t.ledger, repo)) {
      if repo in t.ledger.repos {
        assert EntryTracks(t.ledger.repos[repo], Head(t, repo));
      }
    }
  }
}
