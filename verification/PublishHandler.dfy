/** The broker's decision procedure for one publish request, as the two stretches of
    synchronous code around its two awaits. Every value read from outside the process is a
    separate field, so the outside world may change between any two reads. */
module PublishHandler {
  import opened JsText
  import opened Remotes
  import opened ApprovalHub

  datatype Policy = Policy(hosts: seq<string>, orgs: seq<string>, branchPrefix: string)

  /** What the policy's schema asks for. */
  predicate Acceptable(p: Policy) {
    p.branchPrefix != "" && p.hosts != [] && forall h <- p.hosts :: h != ""
  }

  datatype Request = Request(repo: string, branch: string, title: string, body: string, ticket: Option<string>)

  datatype Code =
    | InvalidRequest | ConfigMissing | TicketNotRegistered | RepoNotAllowed | WorktreeMissing | UntrustedConfig
    | DetachedHead | BranchMismatch | BranchNotAllowed | DirtyWorktree | RemoteUnparseable | HostNotAllowed
    | OrgNotAllowed | FetchFailed | RenderIncomplete | NothingToPublish | DeclinedByHuman | CanceledRequest
    | ShaChanged | PushFailed | PrFailed | BrokerBusy

  datatype Response = Ok(sha: string, branch: string, prUrl: Option<string>) | Fail(code: Code)

  datatype Result<+T> = Success(value: T) | Failure(error: Response)

  datatype Render = Rendered(unpushed: nat, diff: string, rest: string) | RenderFails(code: Code)

  /** What the first stretch reads, in the order in which it reads. */
  datatype Reads = Reads(policy: Option<Policy>, registered: bool, contained: bool, worktree: bool, configClean: bool,
                         branch: Option<string>, dirty: Option<bool>, origin: Option<string>, head: Option<string>,
                         objects: bool, scratch: bool, render: Render, brokerTicket: Option<string>)

  /** What the last stretch reads, right before the push, and what its two commands report. */
  datatype Rereads = Rereads(registered: bool, configClean: bool, origin: Option<string>, head: Option<string>,
                             pushed: bool, prOpened: bool, prUrl: Option<string>)

  datatype Push = Push(sha: string, url: string, branch: string)

  /** A request that may be put to the human. */
  datatype Prepared = Prepared(req: Request, policy: Policy, target: Remote, view: View)

  /** The push target: parsed from the origin, held against the policy, rebuilt. */
  function ResolveTarget(origin: Option<string>, policy: Policy): Result<(Remote, string)> {
    if origin.None? then Failure(Fail(RemoteUnparseable))
    else
      var parsed := ParseRemote(origin.value);
      if parsed.None? then Failure(Fail(RemoteUnparseable))
      else if parsed.value.host !in policy.hosts then Failure(Fail(HostNotAllowed))
      else if |policy.orgs| > 0 && parsed.value.org !in policy.orgs then Failure(Fail(OrgNotAllowed))
      else
        var url := CanonicalHttpsUrl(parsed.value);
        if url.None? then Failure(Fail(RemoteUnparseable)) else Success((parsed.value, url.value))
  }

  function Refuse<T>(code: Code): Result<T> {
    Failure(Fail(code))
  }

  /** Registry, containment, configuration, branch and cleanliness. */
  function CheckWorktree(req: Request, r: Reads): Result<string>
    requires r.policy.Some?
  {
    var prefix := r.policy.value.branchPrefix;
    if req.ticket.Some? && !r.registered then Refuse(TicketNotRegistered)
    else if !r.contained then Refuse(RepoNotAllowed)
    else if !r.worktree then Refuse(WorktreeMissing)
    else if !r.configClean then Refuse(UntrustedConfig)
    else if r.branch.None? then Refuse(WorktreeMissing)
    else if r.branch.value == "HEAD" then Refuse(DetachedHead)
    else if req.ticket.Some? && r.branch.value != prefix + req.ticket.value then Refuse(BranchMismatch)
    else if r.branch.value != req.branch then Refuse(BranchMismatch)
    else if !StartsWith(r.branch.value, prefix) then Refuse(BranchNotAllowed)
    else if r.dirty.None? then Refuse(WorktreeMissing)
    else if r.dirty.value then Refuse(DirtyWorktree)
    else Success(r.branch.value)
  }

  /** The first stretch, up to the reviewer consult. A scratch repository that cannot be made
      throws, which the server turns into `push_failed`. */
  function Prepare(req: Option<Request>, r: Reads): Result<Prepared> {
    if req.None? then Refuse(InvalidRequest)
    else if r.policy.None? || !Acceptable(r.policy.value) then Refuse(ConfigMissing)
    else
      var q, policy := req.value, r.policy.value;
      var branch := CheckWorktree(q, r);
      if branch.Failure? then Failure(branch.error)
      else
        var target := ResolveTarget(r.origin, policy);
        if target.Failure? then Failure(target.error)
        else if r.head.None? || !r.objects then Refuse(WorktreeMissing)
        else if !r.scratch then Refuse(PushFailed)
        else if r.render.RenderFails? then Refuse(r.render.code)
        else if r.render.unpushed == 0 && r.render.diff == "" then Refuse(NothingToPublish)
        else
          var (remote, url) := target.value;
          var attribution := if q.ticket.Some? then q.ticket else r.brokerTicket;
          Success(Prepared(q, policy, remote,
            View(q.repo, attribution, branch.value, r.head.value,
                 if |r.head.value| <= 12 then r.head.value else r.head.value[..12],
                 q.title, remote.org, remote.repo, url, r.render.diff, None, r.render.rest)))
  }

  /** The consult has ended: its verdict, if any, goes into the view, and into nothing else. */
  function WithVerdict(p: Prepared, verdict: Option<string>): Prepared {
    p.(view := p.view.(reviewerVerdict := verdict))
  }

  /** What the last stretch does: a push or none, what it reports, and the reply. */
  datatype Finish = Finish(push: Option<Push>, report: PublishOutcome, reply: Response)

  function Abandon(why: string, reply: Response): Finish {
    Finish(None, PublishFailed(why), reply)
  }

  /** The last stretch, after an approval: everything is read again before the push. */
  function Conclude(p: Prepared, aborted: bool, r: Rereads): Finish {
    if aborted then Abandon("aborted after approval, before push", Fail(CanceledRequest))
    else if p.req.ticket.Some? && !r.registered then Abandon("ticket no longer registered", Fail(TicketNotRegistered))
    else if !r.configClean then Abandon("git config changed to untrusted", Fail(UntrustedConfig))
    else
      var target := ResolveTarget(r.origin, p.policy);
      if target.Failure? then Abandon("target no longer resolves", target.error)
      else if target.value.1 != p.view.url then Abandon("push target changed after approval", Fail(HostNotAllowed))
      else if r.head != Some(p.view.headSha) then Abandon("worktree HEAD moved after approval", Fail(ShaChanged))
      else
        var push := Some(Push(p.view.headSha, p.view.url, p.view.branch));
        if !r.pushed then Finish(push, PublishFailed("git push failed"), Fail(PushFailed))
        else if !r.prOpened then Finish(push, PublishFailed("gh pr create failed"), Fail(PrFailed))
        else Finish(push, Published(r.prUrl), Ok(p.view.headSha, p.view.branch, r.prUrl))
  }

  /** The policy's hold on what can be approved at all. */
  ghost predicate WithinPolicy(p: Prepared) {
    && p.target.host in p.policy.hosts
    && (|p.policy.orgs| > 0 ==> p.target.org in p.policy.orgs)
    && CanonicalHttpsUrl(p.target) == Some(p.view.url)
    && StartsWith(p.view.branch, p.policy.branchPrefix) && p.view.branch == p.req.branch
    && (p.req.ticket.Some? ==> p.view.branch == p.policy.branchPrefix + p.req.ticket.value)
    && ShownAsMeant(p)
  }

  /** What is to be typed begins the commit, and what is shown is what is asked and pushed to. */
  ghost predicate ShownAsMeant(p: Prepared) {
    && NamesCommit(p.view.shortSha, p.view.headSha)
    && p.view.repo == p.req.repo && p.view.title == p.req.title
    && p.view.org == p.target.org && p.view.targetRepo == p.target.repo
  }

  /** The first twelve digits, or all of a shorter name. */
  predicate NamesCommit(short: string, sha: string) {
    short <= sha && (|short| == 12 || (|short| < 12 && short == sha))
  }

  /** The request passes every check of its own worktree. */
  ghost predicate WorktreePasses(q: Request, r: Reads)
    requires r.policy.Some?
  {
    && (q.ticket.Some? ==> r.registered) && r.contained && r.worktree && r.configClean
    && r.branch == Some(q.branch) && q.branch != "HEAD" && r.policy.value.branchPrefix <= q.branch
    && (q.ticket.Some? ==> q.branch == r.policy.value.branchPrefix + q.ticket.value)
    && r.dirty == Some(false)
  }

  /** The origin names a target that the policy allows and that has a constructed URL. */
  ghost predicate TargetAllowed(r: Reads)
    requires r.policy.Some?
  {
    && r.origin.Some? && ParseRemote(r.origin.value).Some?
    && var target := ParseRemote(r.origin.value).value;
       && target.host in r.policy.value.hosts
       && (r.policy.value.orgs == [] || target.org in r.policy.value.orgs)
       && IsHost(target.host) && IsName(target.org) && IsName(target.repo)
  }

  /** Exactly which requests are put to the human. */
  lemma PreparedIff(req: Option<Request>, r: Reads)
    ensures Prepare(req, r).Success? <==>
      && req.Some? && r.policy.Some? && Acceptable(r.policy.value)
      && WorktreePasses(req.value, r) && TargetAllowed(r)
      && r.head.Some? && r.objects && r.scratch
      && r.render.Rendered? && (r.render.unpushed > 0 || r.render.diff != "")
    ensures req.None? ==> Prepare(req, r) == Refuse(InvalidRequest)
    ensures req.Some? && (r.policy.None? || !Acceptable(r.policy.value)) ==> Prepare(req, r) == Refuse(ConfigMissing)
  {
    PolicyComesFirst(req, r);
    hide CheckWorktree;
    hide ResolveTarget;
    hide WorktreePasses;
    hide TargetAllowed;
    hide Acceptable;
    PreparedAfterChecks(req, r);
    hide Prepare;
    if req.Some? && r.policy.Some? {
      WorktreePassesIff(req.value, r);
      TargetAllowedIff(r);
    }
  }

  lemma PolicyComesFirst(req: Option<Request>, r: Reads)
    ensures req.None? ==> Prepare(req, r) == Refuse(InvalidRequest)
    ensures req.Some? && (r.policy.None? || !Acceptable(r.policy.value)) ==> Prepare(req, r) == Refuse(ConfigMissing)
  {
    hide Acceptable;
  }

  lemma PreparedAfterChecks(req: Option<Request>, r: Reads)
    ensures Prepare(req, r).Success? <==>
      && req.Some? && r.policy.Some? && Acceptable(r.policy.value)
      && CheckWorktree(req.value, r).Success? && ResolveTarget(r.origin, r.policy.value).Success?
      && r.head.Some? && r.objects && r.scratch
      && r.render.Rendered? && (r.render.unpushed > 0 || r.render.diff != "")
  {
    hide CheckWorktree;
    hide ResolveTarget;
    hide Acceptable;
  }

  lemma WorktreePassesIff(q: Request, r: Reads)
    requires r.policy.Some?
    ensures CheckWorktree(q, r).Success? <==> WorktreePasses(q, r)
  {
    if r.branch.Some? {
      PrefixIff(r.branch.value, r.policy.value.branchPrefix);
    }
    hide StartsWith;
  }

  lemma PrefixIff(s: string, prefix: string)
    ensures StartsWith(s, prefix) <==> prefix <= s
  {
  }

  lemma TargetAllowedIff(r: Reads)
    requires r.policy.Some?
    ensures ResolveTarget(r.origin, r.policy.value).Success? <==> TargetAllowed(r)
  {
    hide ParseRemote;
    hide IsHost;
    hide IsName;
  }

  /** A check that holds or not, and what its failure replies. */
  datatype Check = Check(holds: bool, code: Code)

  function FirstFailure(checks: seq<Check>): Option<Code> {
    if checks == [] then None
    else if !checks[0].holds then Some(checks[0].code)
    else FirstFailure(checks[1..])
  }

  ghost function WorktreeChecks(q: Request, r: Reads): seq<Check>
    requires r.policy.Some?
  {
    var prefix := r.policy.value.branchPrefix;
    [Check(q.ticket.Some? ==> r.registered, TicketNotRegistered),
     Check(r.contained, RepoNotAllowed),
     Check(r.worktree, WorktreeMissing),
     Check(r.configClean, UntrustedConfig),
     Check(r.branch.Some?, WorktreeMissing),
     Check(r.branch != Some("HEAD"), DetachedHead),
     Check(q.ticket.Some? ==> r.branch == Some(prefix + q.ticket.value), BranchMismatch),
     Check(r.branch == Some(q.branch), BranchMismatch),
     Check(prefix <= q.branch, BranchNotAllowed),
     Check(r.dirty.Some?, WorktreeMissing),
     Check(r.dirty == Some(false), DirtyWorktree)]
  }

  ghost function TargetChecks(origin: Option<string>, policy: Policy): seq<Check> {
    var target := if origin.Some? then ParseRemote(origin.value) else None;
    [Check(target.Some?, RemoteUnparseable),
     Check(target.Some? && target.value.host in policy.hosts, HostNotAllowed),
     Check(policy.orgs == [] || (target.Some? && target.value.org in policy.orgs), OrgNotAllowed),
     Check(target.Some? && CanonicalHttpsUrl(target.value).Some?, RemoteUnparseable)]
  }

  ghost function LastChecks(r: Reads): seq<Check> {
    [Check(r.head.Some?, WorktreeMissing),
     Check(r.objects, WorktreeMissing),
     Check(r.scratch, PushFailed),
     Check(r.render.Rendered?, if r.render.RenderFails? then r.render.code else RenderIncomplete),
     Check(r.render.Rendered? && (r.render.unpushed > 0 || r.render.diff != ""), NothingToPublish)]
  }

  lemma {:induction false} FailureInFront(xs: seq<Check>, ys: seq<Check>)
    ensures FirstFailure(xs + ys) == if FirstFailure(xs).Some? then FirstFailure(xs) else FirstFailure(ys)
  {
    if xs == [] {
      assert xs + ys == ys;
    } else {
      assert (xs + ys)[0] == xs[0] && (xs + ys)[1..] == xs[1..] + ys;
      FailureInFront(xs[1..], ys);
    }
  }

  lemma {:induction false} FailsFirst(cs: seq<Check>, k: nat)
    requires k <= |cs| && forall i | 0 <= i < k :: cs[i].holds
    requires k < |cs| ==> !cs[k].holds
    ensures FirstFailure(cs) == if k < |cs| then Some(cs[k].code) else None
  {
    if k > 0 {
      assert forall i | 0 <= i < k - 1 :: cs[1..][i] == cs[i + 1];
      FailsFirst(cs[1..], k - 1);
    }
  }

  lemma WorktreeRefusal(q: Request, r: Reads)
    requires r.policy.Some?
    ensures var failure := FirstFailure(WorktreeChecks(q, r));
      CheckWorktree(q, r) == if failure.Some? then Refuse(failure.value) else Success(q.branch)
  {
    var cs := WorktreeChecks(q, r);
    if r.branch.Some? {
      PrefixIff(r.branch.value, r.policy.value.branchPrefix);
    }
    hide StartsWith;
    var k := if !cs[0].holds then 0 else if !cs[1].holds then 1 else if !cs[2].holds then 2 else if !cs[3].holds then 3
             else if !cs[4].holds then 4 else if !cs[5].holds then 5 else if !cs[6].holds then 6
             else if !cs[7].holds then 7 else if !cs[8].holds then 8 else if !cs[9].holds then 9
             else if !cs[10].holds then 10 else 11;
    hide FirstFailure;
    FailsFirst(cs, k);
  }

  lemma TargetRefusal(origin: Option<string>, policy: Policy)
    ensures var failure := FirstFailure(TargetChecks(origin, policy));
      if failure.Some? then ResolveTarget(origin, policy) == Refuse(failure.value)
      else ResolveTarget(origin, policy).Success?
  {
    hide ParseRemote;
    hide CanonicalHttpsUrl;
    var cs := TargetChecks(origin, policy);
    var k := if !cs[0].holds then 0 else if !cs[1].holds then 1 else if !cs[2].holds then 2
             else if !cs[3].holds then 3 else 4;
    hide FirstFailure;
    FailsFirst(cs, k);
  }

  lemma LastRefusal(req: Request, r: Reads)
    requires r.policy.Some? && Acceptable(r.policy.value)
    requires CheckWorktree(req, r).Success? && ResolveTarget(r.origin, r.policy.value).Success?
    ensures var failure := FirstFailure(LastChecks(r));
      if failure.Some? then Prepare(Some(req), r) == Refuse(failure.value) else Prepare(Some(req), r).Success?
  {
    hide CheckWorktree;
    hide ResolveTarget;
    hide Acceptable;
    var cs := LastChecks(r);
    var k := if !cs[0].holds then 0 else if !cs[1].holds then 1 else if !cs[2].holds then 2
             else if !cs[3].holds then 3 else if !cs[4].holds then 4 else 5;
    hide FirstFailure;
    FailsFirst(cs, k);
  }

  /** A refusal names the first check that fails, in the order in which they are made. */
  lemma RefusalNamesFirstFailure(q: Request, r: Reads)
    requires r.policy.Some? && Acceptable(r.policy.value)
    ensures var failure :=
      FirstFailure(WorktreeChecks(q, r) + (TargetChecks(r.origin, r.policy.value) + LastChecks(r)));
      if failure.Some? then Prepare(Some(q), r) == Refuse(failure.value) else Prepare(Some(q), r).Success?
  {
    var xs, ys, zs := WorktreeChecks(q, r), TargetChecks(r.origin, r.policy.value), LastChecks(r);
    hide FirstFailure;
    hide WorktreeChecks;
    hide TargetChecks;
    hide LastChecks;
    hide CheckWorktree;
    hide ResolveTarget;
    hide Acceptable;
    FailureInFront(xs, ys + zs);
    FailureInFront(ys, zs);
    WorktreeRefusal(q, r);
    TargetRefusal(r.origin, r.policy.value);
    if FirstFailure(xs).None? && FirstFailure(ys).None? {
      LastRefusal(q, r);
      hide Prepare;
    }
  }

  lemma PreparedWithinPolicy(req: Option<Request>, r: Reads)
    requires Prepare(req, r).Success?
    ensures var p := Prepare(req, r).value;
      && WithinPolicy(p) && Some(p.req) == req && Some(p.policy) == r.policy
      && Acceptable(p.policy)
      && Some(p.view.headSha) == r.head && p.view.diff == r.render.diff
      && Some(p.view.branch) == r.branch && r.origin.Some? && ParseRemote(r.origin.value) == Some(p.target)
      && (p.req.ticket.Some? ==> r.registered) && r.configClean && r.dirty == Some(false)
      && p.view.ticket == (if p.req.ticket.Some? then p.req.ticket else r.brokerTicket)
      && p.view.reviewerVerdict == None && p.view.rest == r.render.rest
  {
    hide ParseRemote;
    hide CanonicalHttpsUrl;
    hide StartsWith;
  }

  /** Everything that must have been read again, and found the same, when a push is made. The
      URL comparison pins down host, organisation and repository. */
  ghost predicate Rechecked(p: Prepared, aborted: bool, r: Rereads) {
    && !aborted
    && (p.req.ticket.Some? ==> r.registered)
    && r.configClean
    && r.origin.Some? && ParseRemote(r.origin.value) == Some(p.target)
    && r.head == Some(p.view.headSha)
  }

  /** A push happens exactly when every recheck passes, and carries what was approved. */
  lemma PushIffRechecked(p: Prepared, aborted: bool, r: Rereads)
    requires WithinPolicy(p)
    ensures Conclude(p, aborted, r).push.Some? <==> Rechecked(p, aborted, r)
    ensures Conclude(p, aborted, r).push.Some? ==>
      Conclude(p, aborted, r).push.value == Push(p.view.headSha, p.view.url, p.view.branch)
    ensures Conclude(p, aborted, r).reply.Ok? ==> Conclude(p, aborted, r).push.Some? && r.pushed && r.prOpened
  {
    SameUrlIffSameTarget(p, r.origin);
    ConcludesWithPush(p, aborted, r);
    hide ResolveTarget;
    hide ParseRemote;
    hide Conclude;
    hide WithinPolicy;
  }

  lemma ConcludesWithPush(p: Prepared, aborted: bool, r: Rereads)
    requires ResolveTarget(r.origin, p.policy).Failure? ==> ResolveTarget(r.origin, p.policy).error.Fail?
    ensures var f, target := Conclude(p, aborted, r), ResolveTarget(r.origin, p.policy);
      && (f.push.Some? <==>
           !aborted && (p.req.ticket.Some? ==> r.registered) && r.configClean
           && target.Success? && target.value.1 == p.view.url && r.head == Some(p.view.headSha))
      && (f.push.Some? ==> f.push.value == Push(p.view.headSha, p.view.url, p.view.branch))
      && (f.reply.Ok? ==> f.push.Some? && r.pushed && r.prOpened)
  {
    hide ResolveTarget;
  }

  lemma SameUrlIffSameTarget(p: Prepared, origin: Option<string>)
    requires WithinPolicy(p)
    ensures var t := ResolveTarget(origin, p.policy);
      t.Success? && t.value.1 == p.view.url <==> origin.Some? && ParseRemote(origin.value) == Some(p.target)
    ensures ResolveTarget(origin, p.policy).Failure? ==> ResolveTarget(origin, p.policy).error.Fail?
  {
    hide ParseRemote;
    var t := ResolveTarget(origin, p.policy);
    if t.Success? && t.value.1 == p.view.url {
      CanonicalIsInjective(t.value.0, p.target);
    }
  }

  // ----- what is reported and replied -----

  /** The reply is a success, and the report a publish, exactly when everything read again is the
      same, the push succeeded and the pull request was opened. */
  lemma OkIffPublished(p: Prepared, aborted: bool, r: Rereads)
    requires WithinPolicy(p)
    ensures var f, done := Conclude(p, aborted, r), Rechecked(p, aborted, r) && r.pushed && r.prOpened;
      && (f.reply.Ok? <==> done) && (f.report.Published? <==> done)
      && (done ==> f.reply == Ok(p.view.headSha, p.view.branch, r.prUrl) && f.report == Published(r.prUrl))
  {
    SameUrlIffSameTarget(p, r.origin);
    PushIffRechecked(p, aborted, r);
    ConcludesWell(p, aborted, r);
    hide Conclude;
    hide ResolveTarget;
    hide WithinPolicy;
    hide Rechecked;
  }

  lemma ConcludesWell(p: Prepared, aborted: bool, r: Rereads)
    requires ResolveTarget(r.origin, p.policy).Failure? ==> ResolveTarget(r.origin, p.policy).error.Fail?
    ensures var f, done := Conclude(p, aborted, r), Conclude(p, aborted, r).push.Some? && r.pushed && r.prOpened;
      && (f.reply.Ok? <==> done) && (f.report.Published? <==> done)
      && (done ==> f.reply == Ok(p.view.headSha, p.view.branch, r.prUrl) && f.report == Published(r.prUrl))
  {
    hide ResolveTarget;
  }

  /** The checks before the one that looks at the target pass. */
  ghost predicate StillTrusted(p: Prepared, aborted: bool, r: Rereads) {
    !aborted && (p.req.ticket.Some? ==> r.registered) && r.configClean
  }

  ghost predicate TargetStays(p: Prepared, aborted: bool, r: Rereads) {
    StillTrusted(p, aborted, r) && r.origin.Some? && ParseRemote(r.origin.value) == Some(p.target)
  }

  /** What each failed recheck replies, in the order of the checks. */
  lemma EachFailureReplies(p: Prepared, aborted: bool, r: Rereads)
    requires WithinPolicy(p)
    ensures var reply := Conclude(p, aborted, r).reply;
      && (aborted ==> reply == Fail(CanceledRequest))
      && (!aborted && p.req.ticket.Some? && !r.registered ==> reply == Fail(TicketNotRegistered))
      && (!aborted && (p.req.ticket.Some? ==> r.registered) && !r.configClean ==> reply == Fail(UntrustedConfig))
      && (TargetStays(p, aborted, r) && r.head != Some(p.view.headSha) ==> reply == Fail(ShaChanged))
      && (Rechecked(p, aborted, r) && !r.pushed ==> reply == Fail(PushFailed))
      && (Rechecked(p, aborted, r) && r.pushed && !r.prOpened ==> reply == Fail(PrFailed))
  {
    SameUrlIffSameTarget(p, r.origin);
    hide ResolveTarget;
    hide ParseRemote;
    hide WithinPolicy;
  }

  /** What a changed target replies. */
  lemma ChangedTargetReplies(p: Prepared, aborted: bool, r: Rereads)
    requires WithinPolicy(p) && StillTrusted(p, aborted, r)
    requires r.origin.None? || ParseRemote(r.origin.value) != Some(p.target)
    ensures Conclude(p, aborted, r).reply ==
      if r.origin.None? || ParseRemote(r.origin.value).None? then Fail(RemoteUnparseable)
      else
        var now := ParseRemote(r.origin.value).value;
        if now.host !in p.policy.hosts then Fail(HostNotAllowed)
        else if p.policy.orgs != [] && now.org !in p.policy.orgs then Fail(OrgNotAllowed)
        else if IsHost(now.host) && IsName(now.org) && IsName(now.repo) then Fail(HostNotAllowed)
        else Fail(RemoteUnparseable)
  {
    SameUrlIffSameTarget(p, r.origin);
    hide ParseRemote;
    hide WithinPolicy;
    hide IsHost;
    hide IsName;
  }
}
