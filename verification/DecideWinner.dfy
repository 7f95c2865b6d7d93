/** Which of several votes cast in one task decides. */
module DecideWinner {
  import opened JsText
  import opened ApprovalHub
  import opened DecideJobs

  // ----- votes as they are cast -----

  predicate Votes(a: Act) {
    a.CastSocket? || a.KickTty? || a.KickTtyNow?
  }

  /** How many rounds of jobs a vote needs before its promise settles. */
  function Delay(a: Act): nat
    requires Votes(a)
  {
    if a.KickTty? then a.hops + 1 else 0
  }

  /** What the race becomes if this vote decides it. */
  function FateOf(a: Act): Fate
    requires Votes(a)
  {
    match a
    case CastSocket(vote) => Won(Socket, vote)
    case KickTty(_, r) => TtyFate(r)
    case KickTtyNow(r) => TtyFate(r)
  }

  function TtyFate(r: TtyResult): Fate {
    if r.Typed? then Won(Tty, r.approved) else Lost
  }

  /** The vote with the shortest delay, and of several such the one cast first. */
  ghost predicate Decides(acts: seq<Act>, k: nat) {
    && k < |acts| && Votes(acts[k])
    && forall j | 0 <= j < |acts| && Votes(acts[j]) ::
         Delay(acts[k]) < Delay(acts[j]) || (Delay(acts[k]) == Delay(acts[j]) && k <= j)
  }

  /** Where anything was voted, exactly one vote decides. */
  lemma {:induction false} OneVoteDecides(acts: seq<Act>, voted: nat) returns (k: nat)
    requires voted < |acts| && Votes(acts[voted])
    ensures Decides(acts, k) && forall j | Decides(acts, j) :: j == k
    decreases |acts|
  {
    var n := |acts| - 1;
    var before := acts[..n];
    assert forall j | 0 <= j < n :: before[j] == acts[j];
    if j :| 0 <= j < n && Votes(before[j]) {
      k := OneVoteDecides(before, j);
      if Votes(acts[n]) && Delay(acts[n]) < Delay(acts[k]) {
        k := n;
      }
    } else {
      k := n;
    }
  }

  // ----- votes on their way through the queue -----

  predicate Carries(j: Job) {
    !j.CatchTty? && !j.RaceAbort? && !j.Resume? && !j.Foreign?
  }

  /** How many more jobs a vote needs until the race reacts to it. */
  function Distance(j: Job): nat
    requires Carries(j)
  {
    match j
    case RaceSocket(_) => 0
    case RaceTty(_) => 0
    case ThenSocket(_) => 1
    case ThenTty(_) => 1
    case TtyHop(hops, _) => hops + 2
  }

  function FateOfJob(j: Job): Fate
    requires Carries(j)
  {
    match j
    case RaceSocket(vote) => Won(Socket, vote)
    case ThenSocket(vote) => Won(Socket, vote)
    case RaceTty(r) => TtyFate(r)
    case ThenTty(r) => TtyFate(r)
    case TtyHop(_, r) => TtyFate(r)
  }

  datatype Leader = Leader(distance: nat, fate: Fate)

  /** The vote that reaches the race first: the nearest, and of several such the first in the
      queue. */
  function Leading(q: seq<Job>): Option<Leader> {
    if q == [] then None
    else
      var before, j := Leading(q[..|q| - 1]), q[|q| - 1];
      if Carries(j) && (before.None? || Distance(j) < before.value.distance)
      then Some(Leader(Distance(j), FateOfJob(j)))
      else before
  }

  lemma LeadingSnoc(q: seq<Job>, j: Job)
    ensures Leading(q + [j]) ==
      if Carries(j) && (Leading(q).None? || Distance(j) < Leading(q).value.distance)
      then Some(Leader(Distance(j), FateOfJob(j))) else Leading(q)
  {
    assert (q + [j])[..|q|] == q;
  }

  lemma {:induction false} LeadingCons(j: Job, q: seq<Job>)
    ensures Leading([j] + q) ==
      if Carries(j) && (Leading(q).None? || Distance(j) <= Leading(q).value.distance)
      then Some(Leader(Distance(j), FateOfJob(j))) else Leading(q)
  {
    if q == [] {
      assert [j] + q == [] + [j];
      LeadingSnoc([], j);
    } else {
      var n := |q| - 1;
      assert [j] + q == ([j] + q[..n]) + [q[n]] && q == q[..n] + [q[n]];
      LeadingCons(j, q[..n]);
      LeadingSnoc([j] + q[..n], q[n]);
      LeadingSnoc(q[..n], q[n]);
    }
  }

  lemma {:induction false} LeadingIsNear(q: seq<Job>, j: Job)
    requires j in q && Carries(j)
    ensures Leading(q).Some? && Leading(q).value.distance <= Distance(j)
  {
    var n := |q| - 1;
    assert q == q[..n] + [q[n]];
    if j != q[n] {
      LeadingIsNear(q[..n], j);
    }
  }

  // ----- the leader stays the leader -----

  /** The race will become this, or has become it. */
  ghost predicate Heading(d: Run, fate: Fate) {
    if d.race == Open then !d.aborted && !d.ttyAborted && Leading(d.queue).Some? && Leading(d.queue).value.fate == fate
    else d.race == fate
  }

  /** A vote one job nearer at the end of the queue leads exactly when it led at the front. */
  lemma OneJobNearer(j: Job, q: seq<Job>, j': Job)
    requires Carries(j) && Carries(j') && Distance(j) == Distance(j') + 1 && FateOfJob(j) == FateOfJob(j')
    ensures Leading([j] + q).Some? && Leading(q + [j']).Some?
    ensures Leading([j] + q).value.fate == Leading(q + [j']).value.fate
  {
    hide Leading;
    LeadingCons(j, q);
    LeadingSnoc(q, j');
  }

  lemma JobKeepsHeading(d: Run, fate: Fate)
    requires d.queue != [] && Heading(d, fate) && fate != Open
    requires d.race == Open ==> RaceAbort !in d.queue && Resume !in d.queue && TtyMoving(d, false)
    ensures Heading(RunJob(d), fate)
  {
    if d.race == Open {
      hide Leading;
      hide TtyMoving;
      var j, q := d.queue[0], d.queue[1..];
      assert d.queue == [j] + q && j in d.queue;
      LeadingCons(j, q);
      match j
      case ThenSocket(vote) => OneJobNearer(j, q, RaceSocket(vote));
      case ThenTty(r) => TwoReactions(j, q, r);
      case TtyHop(_, _) => HopKeepsHeading(d, fate);
      case _ => if Carries(j) { FirstAtTheRace(j, q); }
    } else {
      RaceIsOver(d);
    }
  }

  /** The approver's promise has two reactions, and only the race's carries the vote on. */
  lemma TwoReactions(j: Job, q: seq<Job>, r: TtyResult)
    requires j == ThenTty(r)
    ensures Leading([j] + q).Some? && Leading(q + [CatchTty, RaceTty(r)]).Some?
    ensures Leading([j] + q).value.fate == Leading(q + [CatchTty, RaceTty(r)]).value.fate
  {
    hide Leading;
    LeadingSnoc(q, CatchTty);
    LeadingSnoc(q, RaceTty(r));
    LeadingSnoc(q + [CatchTty], RaceTty(r));
    OneJobNearer(j, q, RaceTty(r));
    assert q + [CatchTty, RaceTty(r)] == q + [CatchTty] + [RaceTty(r)];
  }

  lemma HopKeepsHeading(d: Run, fate: Fate)
    requires d.queue != [] && d.queue[0].TtyHop? && d.race == Open && Heading(d, fate) && TtyMoving(d, false)
    ensures Heading(RunJob(d), fate)
  {
    hide Leading;
    var j, q := d.queue[0], d.queue[1..];
    assert d.queue == [j] + q;
    LeadingCons(j, q);
    if j.hops == 0 && d.tty.Some? { SettledLeads(d, q); }
    hide TtyMoving;
    OneJobNearer(j, q, if j.hops == 0 then ThenTty(j.r) else TtyHop(j.hops - 1, j.r));
  }

  lemma FirstAtTheRace(j: Job, q: seq<Job>)
    requires Carries(j) && Distance(j) == 0
    ensures Leading([j] + q) == Some(Leader(0, FateOfJob(j)))
  {
    LeadingCons(j, q);
    hide Leading;
  }

  lemma RaceIsOver(d: Run)
    requires d.queue != [] && d.race != Open
    ensures RunJob(d).race == d.race
  {
  }

  /** Once the approver's promise has settled, a later settlement does not lead. */
  lemma SettledLeads(d: Run, q: seq<Job>)
    requires d.queue != [] && q == d.queue[1..] && d.queue[0].TtyHop? && d.tty.Some? && TtyMoving(d, false)
    ensures Leading(q).Some? && Leading(q).value.distance <= 1
  {
    var j := if ThenTty(d.tty.value) in d.queue then ThenTty(d.tty.value) else RaceTty(d.tty.value);
    assert d.queue == [d.queue[0]] + q;
    assert j in q;
    LeadingIsNear(q, j);
  }

  lemma OnlyVotesQueued(d: Run, ballot: Ballot, kicked: bool)
    requires Orderly(d, ballot) && Progressing(d, kicked) && d.race == Open && !d.aborted
    ensures RaceAbort !in d.queue && Resume !in d.queue && TtyMoving(d, false)
  {
    assert !Sourced(RaceAbort, ballot) && !Sourced(Resume, ballot);
  }

  lemma {:induction false} DrainReachesFate(d: Run, ballot: Ballot, kicked: bool, fate: Fate)
    requires Orderly(d, ballot) && Progressing(d, kicked) && Heading(d, fate) && fate != Open && !d.aborted
    ensures Drain(d).race == fate
    decreases !d.ttyAborted, Weight(d.queue)
  {
    if d.queue != [] {
      if d.race == Open { OnlyVotesQueued(d, ballot, kicked); }
      JobKeepsHeading(d, fate);
      JobKeepsOrder(d, ballot);
      JobKeepsProgress(d, kicked);
      JobsRunOut(d);
      JobNeverAborts(d);
      DrainReachesFate(RunJob(d), ballot, kicked, fate);
    }
  }

  lemma JobNeverAborts(d: Run)
    requires d.queue != []
    ensures RunJob(d).aborted == d.aborted
  {
  }

  // ----- from the votes to the leader -----

  /** The leader among votes just cast. */
  ghost function LeaderOf(acts: seq<Act>): Option<Leader> {
    if acts == [] then None
    else
      var before, a := LeaderOf(acts[..|acts| - 1]), acts[|acts| - 1];
      if Votes(a) && (before.None? || Delay(a) + 1 < before.value.distance) then Some(Leader(Delay(a) + 1, FateOf(a)))
      else before
  }

  lemma {:induction false} LeaderIsAVote(acts: seq<Act>) returns (j: nat)
    requires LeaderOf(acts).Some?
    ensures j < |acts| && Votes(acts[j]) && LeaderOf(acts) == Some(Leader(Delay(acts[j]) + 1, FateOf(acts[j])))
  {
    var n := |acts| - 1;
    if LeaderOf(acts) == LeaderOf(acts[..n]) {
      j := LeaderIsAVote(acts[..n]);
    } else {
      j := n;
    }
  }

  lemma {:induction false} DecidingVoteLeads(acts: seq<Act>, k: nat)
    requires Decides(acts, k)
    ensures LeaderOf(acts) == Some(Leader(Delay(acts[k]) + 1, FateOf(acts[k])))
  {
    var n := |acts| - 1;
    var before := acts[..n];
    if k < n {
      assert forall j | 0 <= j < n :: before[j] == acts[j];
      DecidingVoteLeads(before, k);
    } else if LeaderOf(before).Some? {
      var j := LeaderIsAVote(before);
      assert before[j] == acts[j];
    }
  }

  /** While synchronous code runs, the queue's leader is the votes' leader. */
  lemma {:induction false} QueueFollowsVotes(d: Run, acts: seq<Act>)
    requires Waiting(d) && forall k | 0 <= k < |acts| :: acts[k] != Abort
    ensures Leading(DoAll(d, acts).queue) == LeaderOf(acts)
  {
    if acts != [] {
      hide Do;
      hide Leading;
      hide Votes;
      QueueFollowsVotes(d, acts[..|acts| - 1]);
      OneMoreFollows(d, acts);
    }
  }

  lemma OneMoreFollows(d: Run, acts: seq<Act>)
    requires Waiting(d) && acts != [] && acts[|acts| - 1] != Abort
    requires Leading(DoAll(d, acts[..|acts| - 1]).queue) == LeaderOf(acts[..|acts| - 1])
    ensures Leading(DoAll(d, acts).queue) == LeaderOf(acts)
  {
    hide Leading;
    hide Do;
    hide SocketMoving;
    hide TtyMoving;
    var n := |acts| - 1;
    VotesAreMoving(d, acts[..n]);
    OneActFollows(DoAll(d, acts[..n]), acts[n]);
  }

  lemma VotesAreMoving(d: Run, acts: seq<Act>)
    requires Waiting(d)
    ensures SocketMoving(DoAll(d, acts)) && TtyMoving(DoAll(d, acts), false)
  {
    SynchronousCodeIsQuiet(d, acts);
  }

  /** One more act: a second vote of a promise that has settled changes nothing, and does not
      lead either. */
  lemma OneActFollows(d: Run, a: Act)
    requires a != Abort && SocketMoving(d) && TtyMoving(d, false)
    ensures Leading(Do(d, a).queue) ==
      if Votes(a) && (Leading(d.queue).None? || Delay(a) + 1 < Leading(d.queue).value.distance)
      then Some(Leader(Delay(a) + 1, FateOf(a))) else Leading(d.queue)
  {
    hide Leading;
    match a
    case CastSocket(vote) =>
      LeadingSnoc(d.queue, ThenSocket(vote));
      if d.socket.Some? {
        var vote := d.socket.value;
        LeadingIsNear(d.queue, if ThenSocket(vote) in d.queue then ThenSocket(vote) else RaceSocket(vote));
      }
    case KickTty(hops, r) => LeadingSnoc(d.queue, TtyHop(hops, r));
    case KickTtyNow(r) =>
      LeadingSnoc(d.queue, ThenTty(r));
      if d.tty.Some? {
        LeadingIsNear(d.queue, if ThenTty(d.tty.value) in d.queue then ThenTty(d.tty.value) else RaceTty(d.tty.value));
      }
    case Unrelated => LeadingSnoc(d.queue, Foreign);
  }

  /** In a task that does not abort, the vote whose promise settles first decides, and of
      several such the one cast first: a browser's vote beats every line typed in the same
      task, and of two lines the one with fewer awaits behind it wins. */
  lemma FirstVoteDecides(d: Run, acts: seq<Act>, k: nat)
    requires Waiting(d) && Abort !in acts && Decides(acts, k)
    ensures Task(d, acts).result == FateOf(acts[k])
  {
    var q := DoAll(d, acts);
    SynchronousCodeIsQuiet(d, acts);
    QuietIsOrderly(q, acts);
    QueueFollowsVotes(d, acts);
    DecidingVoteLeads(acts, k);
    DrainReachesFate(q, BallotOf(acts), Kicked(acts), FateOf(acts[k]));
    DrainKeeps(q, BallotOf(acts), Kicked(acts));
    TaskOutcome(d, acts);
    VoteIsOnBallot(acts, k);
  }

  lemma {:induction false} VoteIsOnBallot(acts: seq<Act>, k: nat)
    requires k < |acts| && Votes(acts[k])
    ensures BallotOf(acts) != Ballot(None, {})
  {
    var n := |acts| - 1;
    if k < n {
      VoteIsOnBallot(acts[..n], k);
    }
  }
}
