/** The race inside `decide()`: three promises, their reactions, and the first-in first-out
    queue in which the reactions run (ECMA-262, section 27.2.2, Promise Jobs). A task is a
    stretch of synchronous code; the queue is emptied before the next task starts. */
module DecideJobs {
  import opened JsText
  import opened ApprovalHub

  /** How the terminal approver's promise settles. */
  datatype TtyResult = Typed(approved: bool) | Failed

  /** The fate of the race, and of `decide()` itself. */
  datatype Fate = Open | Won(channel: Channel, approved: bool) | Lost

  datatype Job =
    | ThenSocket(vote: bool)            // socketDecision.then
    | RaceSocket(vote: bool)            // the race's reaction to socketSettled
    | TtyHop(hops: nat, r: TtyResult)   // the approver's own awaits, `hops` + 1 of them
    | ThenTty(r: TtyResult)             // ttyApprover(...).then
    | CatchTty                          // the explicit no-op catch
    | RaceTty(r: TtyResult)             // the race's reaction to ttySettled
    | RaceAbort                         // the race's reaction to externalAbort
    | Resume                            // `await` of the race
    | Foreign                           // anyone else's job

  /** The approver reacts to its own signal after some hops, or not at all. Any reaction is
      allowed, even typing an approval. */
  datatype Reaction = Ignores | Reacts(hops: nat, r: TtyResult)

  datatype Run = Run(
    socket: Option<bool>,       // socketDecision
    tty: Option<TtyResult>,     // the approver's promise
    aborted: bool,              // the external signal has fired
    ttyAborted: bool,           // the child controller has fired
    reaction: Reaction,
    race: Fate,
    result: Fate,               // what `decide()` has returned or thrown
    queue: seq<Job>)

  /** What synchronous code in a task can do to this decision. */
  datatype Act =
    | CastSocket(vote: bool)             // resolveSocket, called by a submit operation
    | KickTty(hops: nat, r: TtyResult)   // the terminal delivers a line, or fails
    | KickTtyNow(r: TtyResult)           // an approver that settles at once
    | Abort                              // the approval budget expired or the client dropped
    | Unrelated

  // ----- synchronous code -----

  function SettleTty(d: Run, r: TtyResult): Run {
    if d.tty.Some? then d else d.(tty := Some(r), queue := d.queue + [ThenTty(r)])
  }

  /** `ttyAc.abort()`: the approver's abort listener runs synchronously. */
  function AbortTty(d: Run): Run {
    if d.ttyAborted then d
    else
      var d' := d.(ttyAborted := true);
      match d.reaction
      case Ignores => d'
      case Reacts(hops, r) => d'.(queue := d.queue + [TtyHop(hops, r)])
  }

  function Do(d: Run, a: Act): Run {
    match a
    case CastSocket(vote) =>
      if d.socket.Some? then d else d.(socket := Some(vote), queue := d.queue + [ThenSocket(vote)])
    case KickTty(hops, r) => d.(queue := d.queue + [TtyHop(hops, r)])
    case KickTtyNow(r) => SettleTty(d, r)
    case Abort =>
      // the two abort listeners, in the order they were added
      if d.aborted then d
      else
        var d' := AbortTty(d);
        d'.(aborted := true, queue := d'.queue + [RaceAbort])
    case Unrelated => d.(queue := d.queue + [Foreign])
  }

  function DoAll(d: Run, acts: seq<Act>): Run {
    if acts == [] then d else Do(DoAll(d, acts[..|acts| - 1]), acts[|acts| - 1])
  }

  // ----- jobs -----

  function SettleRace(d: Run, fate: Fate): Run {
    if d.race != Open then d else d.(race := fate, queue := d.queue + [Resume])
  }

  function RunJob(d: Run): Run
    requires d.queue != []
  {
    var job, d := d.queue[0], d.(queue := d.queue[1..]);
    match job
    case ThenSocket(vote) => d.(queue := d.queue + [RaceSocket(vote)])
    case RaceSocket(vote) => SettleRace(d, Won(Socket, vote))
    case TtyHop(hops, r) => if hops == 0 then SettleTty(d, r) else d.(queue := d.queue + [TtyHop(hops - 1, r)])
    case ThenTty(r) => d.(queue := d.queue + [CatchTty, RaceTty(r)])
    case CatchTty => d
    case RaceTty(r) => SettleRace(d, if r.Typed? then Won(Tty, r.approved) else Lost)
    case RaceAbort => SettleRace(d, Lost)
    case Resume =>
      var d' := d.(result := d.race);
      if d.race.Won? && d.race.channel == Tty then d' else AbortTty(d')
    case Foreign => d
  }

  function JobWeight(j: Job): nat {
    match j
    case TtyHop(hops, _) => hops + 5
    case ThenTty(_) => 4
    case ThenSocket(_) => 3
    case RaceSocket(_) => 2
    case RaceTty(_) => 2
    case RaceAbort => 2
    case _ => 1
  }

  function Weight(q: seq<Job>): nat {
    if q == [] then 0 else JobWeight(q[0]) + Weight(q[1..])
  }

  lemma {:induction false} WeightAppend(a: seq<Job>, b: seq<Job>)
    ensures Weight(a + b) == Weight(a) + Weight(b)
  {
    if a == [] {
      assert a + b == b;
    } else {
      WeightAppend(a[1..], b);
      assert (a + b)[1..] == a[1..] + b;
    }
  }

  /** The jobs that running the first one puts at the end of the queue. */
  ghost function NewJobs(d: Run): seq<Job>
    requires d.queue != []
  {
    RunJob(d).queue[|d.queue| - 1..]
  }

  lemma JobAppends(d: Run)
    requires d.queue != []
    ensures RunJob(d).queue == d.queue[1..] + NewJobs(d)
  {
    assert RunJob(d).queue[..|d.queue| - 1] == d.queue[1..];
  }

  lemma NewJobsAreLighter(d: Run)
    requires d.queue != []
    ensures var (head, added) := (d.queue[0], NewJobs(d));
      RunJob(d).ttyAborted == d.ttyAborted ==>
        || added == []
        || (|added| == 1 && JobWeight(added[0]) < JobWeight(head))
        || (|added| == 2 && JobWeight(added[0]) + JobWeight(added[1]) < JobWeight(head))
  {
  }

  /** Membership in the queue after a job, in terms of the queue before it. */
  lemma JobMembers(d: Run)
    requires d.queue != []
    ensures forall j | j in RunJob(d).queue :: j in d.queue || j in NewJobs(d)
    ensures forall j | j in d.queue :: j == d.queue[0] || j in RunJob(d).queue
    ensures forall j | j in NewJobs(d) :: j in RunJob(d).queue
  {
    JobAppends(d);
    assert d.queue == [d.queue[0]] + d.queue[1..];
  }

  lemma WeightOfTwo(x: Job, y: Job)
    ensures Weight([x]) == JobWeight(x) && Weight([x, y]) == JobWeight(x) + JobWeight(y)
  {
    assert [x][1..] == [] && [x, y][1..] == [y] && [y][1..] == [];
    assert Weight([y]) == JobWeight(y);
  }

  /** Each job leaves less work behind, except that the child controller fires once. */
  lemma JobsRunOut(d: Run)
    requires d.queue != []
    ensures var d' := RunJob(d);
      (d'.ttyAborted && !d.ttyAborted) || (d'.ttyAborted == d.ttyAborted && Weight(d'.queue) < Weight(d.queue))
  {
    var added := NewJobs(d);
    JobAppends(d);
    NewJobsAreLighter(d);
    WeightAppend(d.queue[1..], added);
    if |added| == 1 || |added| == 2 {
      WeightOfTwo(added[0], added[|added| - 1]);
      assert added == if |added| == 1 then [added[0]] else [added[0], added[1]];
    }
  }

  /** Run jobs until none is left. */
  function Drain(d: Run): (d': Run)
    ensures d'.queue == []
    decreases !d.ttyAborted, Weight(d.queue)
  {
    if d.queue == [] then d
    else
      JobsRunOut(d);
      Drain(RunJob(d))
  }

  /** One task: its synchronous code, then all the jobs. */
  function Task(d: Run, acts: seq<Act>): Run {
    Drain(DoAll(d, acts))
  }

  /** `decide()` up to its await. An approver may have settled already; a signal that has
      already fired rejects the third promise at once. */
  function Begin(signalFired: bool, reaction: Reaction, already: Option<TtyResult>): Run {
    var d := Run(None, already, signalFired, signalFired, reaction, Open, Open, []);
    d.(queue := (if already.Some? then [ThenTty(already.value)] else []) + (if signalFired then [RaceAbort] else []))
  }

  // ----- an abort comes first in the queue -----

  predicate IsRace(j: Job) {
    j.RaceSocket? || j.RaceTty?
  }

  /** The reaction to the abort is ahead of every other reaction of the race. */
  ghost predicate AbortAhead(q: seq<Job>) {
    q != [] && (q[0] == RaceAbort || (!IsRace(q[0]) && AbortAhead(q[1..])))
  }

  lemma {:induction false} AheadStays(q: seq<Job>, more: seq<Job>)
    requires AbortAhead(q)
    ensures AbortAhead(q + more)
  {
    assert (q + more)[1..] == q[1..] + more;
    if q[0] != RaceAbort {
      AheadStays(q[1..], more);
    }
  }

  lemma {:induction false} AheadAtTheEnd(q: seq<Job>)
    requires forall j <- q :: !IsRace(j)
    ensures AbortAhead(q + [RaceAbort])
  {
    if q != [] {
      assert (q + [RaceAbort])[1..] == q[1..] + [RaceAbort];
      AheadAtTheEnd(q[1..]);
    } else {
      assert q + [RaceAbort] == [RaceAbort];
    }
  }

  /** What can have happened in one task: the votes that may decide it, and whether the
      terminal has been set in motion. */
  datatype Ballot = Ballot(socket: Option<bool>, tty: set<TtyResult>)

  /** Jobs other than the abort's own carry a vote of the ballot. */
  ghost predicate Sourced(j: Job, ballot: Ballot) {
    match j
    case ThenSocket(vote) => ballot.socket == Some(vote)
    case RaceSocket(vote) => ballot.socket == Some(vote)
    case TtyHop(_, r) => r in ballot.tty
    case ThenTty(r) => r in ballot.tty
    case RaceTty(r) => r in ballot.tty
    case RaceAbort => false
    case Resume => false
    case _ => true
  }

  ghost predicate Counted(fate: Fate, ballot: Ballot) {
    match fate
    case Open => true
    case Won(Socket, approved) => ballot.socket == Some(approved)
    case Won(Tty, approved) => Typed(approved) in ballot.tty
    case Lost => Failed in ballot.tty
  }

  /** What the jobs keep true from the moment the synchronous code of the task is over. */
  ghost predicate Orderly(d: Run, ballot: Ballot) {
    && (d.race == Open ==> d.result == Open)
    && (d.race == Open ==>
         if d.aborted then AbortAhead(d.queue) else !d.ttyAborted && forall j <- d.queue :: Sourced(j, ballot))
    && (d.race != Open ==> (if d.aborted then d.race == Lost else Counted(d.race, ballot)))
    && (d.result == Open || d.result == d.race)
  }

  /** Settled promises have their reactions queued until the race is decided, and a decided
      race has `decide()` queued until it has returned. */
  ghost predicate Progressing(d: Run, kicked: bool) {
    && (d.race == Open ==> SocketMoving(d) && TtyMoving(d, kicked) && (d.aborted ==> RaceAbort in d.queue))
    && (d.race != Open && d.result == Open ==> Resume in d.queue)
  }

  ghost predicate SocketMoving(d: Run) {
    d.socket.Some? ==> ThenSocket(d.socket.value) in d.queue || RaceSocket(d.socket.value) in d.queue
  }

  ghost predicate TtyMoving(d: Run, kicked: bool) {
    && (d.tty.Some? ==> ThenTty(d.tty.value) in d.queue || RaceTty(d.tty.value) in d.queue)
    && (kicked ==> d.tty.Some? || exists j <- d.queue :: j.TtyHop?)
  }

  lemma JobKeepsOrder(d: Run, ballot: Ballot)
    requires Orderly(d, ballot) && d.queue != []
    ensures Orderly(RunJob(d), ballot)
  {
    hide Sourced;
    hide Counted;
    JobAppends(d);
    if d.race == Open {
      if !d.aborted {
        JobKeepsSources(d, ballot);
      } else if d.queue[0] != RaceAbort {
        AheadStays(d.queue[1..], NewJobs(d));
      }
    }
  }

  lemma JobKeepsSources(d: Run, ballot: Ballot)
    requires d.race == Open && !d.aborted && d.queue != [] && Orderly(d, ballot)
    ensures Orderly(RunJob(d), ballot)
  {
    var d' := RunJob(d);
    JobMembers(d);
    assert Sourced(d.queue[0], ballot) && d.queue[0] != Resume by { assert d.queue[0] in d.queue; }
    OpenRaceStep(d, ballot);
    if d'.race == Open {
      JobAppends(d);
      AddedIsSourced(d, ballot, NewJobs(d));
    }
    hide RunJob;
    hide Sourced;
    hide Counted;
    hide AbortAhead;
  }

  /** A job that settles the race settles it with its own vote, and touches nothing else. */
  lemma OpenRaceStep(d: Run, ballot: Ballot)
    requires d.race == Open && d.queue != [] && Sourced(d.queue[0], ballot)
    ensures var d' := RunJob(d);
      && d'.aborted == d.aborted && d'.ttyAborted == d.ttyAborted && d'.result == d.result
      && (d'.race != Open ==> Counted(d'.race, ballot))
  {
  }

  lemma AddedIsSourced(d: Run, ballot: Ballot, added: seq<Job>)
    requires d.queue != [] && Sourced(d.queue[0], ballot) && d.race == Open && RunJob(d).race == Open
    requires RunJob(d).queue == d.queue[1..] + added
    ensures forall j <- added :: Sourced(j, ballot)
  {
    assert RunJob(d).queue[|d.queue| - 1..] == added;
  }

  lemma JobKeepsProgress(d: Run, kicked: bool)
    requires Progressing(d, kicked) && d.queue != []
    ensures Progressing(RunJob(d), kicked)
  {
    hide TtyMoving;
    hide SocketMoving;
    var d' := RunJob(d);
    JobMembers(d);
    if d'.race == Open {
      KeepsTtyMoving(d, kicked);
      KeepsSocketMoving(d);
    } else if d.race == Open {
      assert d'.queue[|d'.queue| - 1] == Resume;
    }
  }

  lemma KeepsSocketMoving(d: Run)
    requires d.queue != [] && d.race == Open && RunJob(d).race == Open && SocketMoving(d)
    ensures SocketMoving(RunJob(d))
  {
    JobMembers(d);
    assert NewJobs(d) != [] ==> NewJobs(d)[0] in NewJobs(d);
  }

  lemma KeepsTtyMoving(d: Run, kicked: bool)
    requires d.queue != [] && d.race == Open && RunJob(d).race == Open && TtyMoving(d, kicked)
    ensures TtyMoving(RunJob(d), kicked)
  {
    var d' := RunJob(d);
    JobMembers(d);
    assert NewJobs(d) != [] ==> NewJobs(d)[|NewJobs(d)| - 1] in NewJobs(d);
    if d.tty.Some? {
      assert ThenTty(d.tty.value) in d'.queue || RaceTty(d.tty.value) in d'.queue;
    } else if kicked {
      HopMoves(d);
    }
  }

  lemma HopMoves(d: Run)
    requires d.queue != [] && d.race == Open && d.tty.None? && exists j <- d.queue :: j.TtyHop?
    ensures RunJob(d).tty.Some? || exists j <- RunJob(d).queue :: j.TtyHop?
    ensures RunJob(d).tty.Some? ==> ThenTty(RunJob(d).tty.value) in RunJob(d).queue
  {
    JobMembers(d);
    assert NewJobs(d) != [] ==> NewJobs(d)[|NewJobs(d)| - 1] in NewJobs(d);
    var j :| j in d.queue && j.TtyHop?;
    assert j == d.queue[0] || j in RunJob(d).queue;
  }

  lemma {:induction false} DrainKeepsOrder(d: Run, ballot: Ballot)
    requires Orderly(d, ballot)
    ensures Orderly(Drain(d), ballot)
    decreases !d.ttyAborted, Weight(d.queue)
  {
    if d.queue != [] {
      JobsRunOut(d);
      JobKeepsOrder(d, ballot);
      DrainKeepsOrder(RunJob(d), ballot);
    }
  }

  lemma {:induction false} DrainKeepsProgress(d: Run, kicked: bool)
    requires Progressing(d, kicked)
    ensures Progressing(Drain(d), kicked)
    decreases !d.ttyAborted, Weight(d.queue)
  {
    if d.queue != [] {
      JobsRunOut(d);
      JobKeepsProgress(d, kicked);
      DrainKeepsProgress(RunJob(d), kicked);
    }
  }

  /** No job fires the signal, casts a socket vote, or changes the approver. */
  lemma {:induction false} DrainKeepsInputs(d: Run)
    ensures Drain(d).aborted == d.aborted && Drain(d).socket == d.socket && Drain(d).reaction == d.reaction
    decreases !d.ttyAborted, Weight(d.queue)
  {
    if d.queue != [] {
      JobsRunOut(d);
      DrainKeepsInputs(RunJob(d));
    }
  }

  lemma DrainKeeps(d: Run, ballot: Ballot, kicked: bool)
    requires Orderly(d, ballot) && Progressing(d, kicked)
    ensures Orderly(Drain(d), ballot) && Progressing(Drain(d), kicked)
    ensures Drain(d).aborted == d.aborted && Drain(d).socket == d.socket && Drain(d).reaction == d.reaction
  {
    DrainKeepsOrder(d, ballot);
    DrainKeepsProgress(d, kicked);
    DrainKeepsInputs(d);
  }

  // ----- tasks -----

  /** Between tasks: `decide()` is waiting and nothing has been set in motion. */
  ghost predicate Waiting(d: Run) {
    d == Run(None, None, false, false, d.reaction, Open, Open, [])
  }

  /** Everything the synchronous code of a task puts on the ballot. */
  ghost function BallotOf(acts: seq<Act>): Ballot {
    if acts == [] then Ballot(None, {})
    else
      var before := BallotOf(acts[..|acts| - 1]);
      match acts[|acts| - 1]
      case CastSocket(vote) => if before.socket.Some? then before else before.(socket := Some(vote))
      case KickTty(_, r) => before.(tty := before.tty + {r})
      case KickTtyNow(r) => before.(tty := before.tty + {r})
      case _ => before
  }

  ghost predicate Kicked(acts: seq<Act>) {
    BallotOf(acts).tty != {}
  }

  /** While a task's synchronous code runs, no reaction of the race to a vote is queued. */
  ghost predicate Quiet(d: Run, acts: seq<Act>) {
    && d.race == Open && d.result == Open
    && d.socket == BallotOf(acts).socket && d.aborted == (Abort in acts)
    && NoRaceYet(d, BallotOf(acts))
    && SocketMoving(d) && TtyMoving(d, Kicked(acts))
  }

  ghost predicate NoRaceYet(d: Run, ballot: Ballot) {
    && (forall j <- d.queue :: !IsRace(j))
    && (if d.aborted then AbortAhead(d.queue) && RaceAbort in d.queue
        else !d.ttyAborted && forall j <- d.queue :: Sourced(j, ballot))
  }

  lemma {:induction false} SynchronousCodeIsQuiet(d: Run, acts: seq<Act>)
    requires Waiting(d)
    ensures Quiet(DoAll(d, acts), acts)
  {
    if acts != [] {
      SynchronousCodeIsQuiet(d, acts[..|acts| - 1]);
      OneActIsQuiet(DoAll(d, acts[..|acts| - 1]), acts[..|acts| - 1], acts[|acts| - 1]);
      assert acts[..|acts| - 1] + [acts[|acts| - 1]] == acts;
    }
  }

  lemma OneActIsQuiet(d: Run, acts: seq<Act>, a: Act)
    requires Quiet(d, acts)
    ensures Quiet(Do(d, a), acts + [a])
  {
    assert (acts + [a])[..|acts|] == acts;
    OneActKeepsOrder(d, BallotOf(acts), a, BallotOf(acts + [a]));
    OneActKeepsMoving(d, Kicked(acts), a);
  }

  ghost predicate Counts(before: Ballot, a: Act, after: Ballot) {
    && before.tty <= after.tty && (before.socket.Some? ==> after.socket == before.socket)
    && (a.KickTty? || a.KickTtyNow? ==> a.r in after.tty)
    && (a.CastSocket? && before.socket.None? ==> after.socket == Some(a.vote))
  }

  lemma OneActKeepsOrder(d: Run, before: Ballot, a: Act, after: Ballot)
    requires NoRaceYet(d, before) && d.socket == before.socket && Counts(before, a, after)
    ensures NoRaceYet(Do(d, a), after)
  {
    var d' := Do(d, a);
    if d.aborted {
      AheadStays(d.queue, d'.queue[|d.queue|..]);
      assert d'.queue == d.queue + d'.queue[|d.queue|..];
    } else if a == Abort {
      AheadAtTheEnd(AbortTty(d).queue);
    } else {
      forall j | j in d.queue ensures Sourced(j, after) {
        assert Sourced(j, before);
      }
    }
  }

  lemma OneActKeepsMoving(d: Run, kicked: bool, a: Act)
    requires SocketMoving(d) && TtyMoving(d, kicked)
    ensures SocketMoving(Do(d, a)) && TtyMoving(Do(d, a), kicked || a.KickTty? || a.KickTtyNow?)
  {
    var d' := Do(d, a);
    if kicked && d.tty.None? {
      var j :| j in d.queue && j.TtyHop?;
      assert j in d'.queue;
    }
    assert d'.queue != [] ==> d'.queue[|d'.queue| - 1] in d'.queue;
  }

  lemma QuietIsOrderly(d: Run, acts: seq<Act>)
    requires Quiet(d, acts)
    ensures Orderly(d, BallotOf(acts)) && Progressing(d, Kicked(acts))
  {
  }

  /** The outcome of one task: an abort in it always wins, whatever else the task did and in
      whichever order; a vote decides only if it was cast in this very task; and a task that
      set anything in motion leaves nothing undecided. */
  lemma TaskOutcome(d: Run, acts: seq<Act>)
    requires Waiting(d)
    ensures var (t, ballot) := (Task(d, acts), BallotOf(acts));
      && (Abort in acts ==> t.aborted && t.result == Lost)
      && (Abort !in acts ==> !t.aborted && Counted(t.result, ballot))
      && (t.result == Open <==> Abort !in acts && ballot == Ballot(None, {}))
      && (t.result == Open ==> Waiting(t))
  {
    var q := DoAll(d, acts);
    SynchronousCodeIsQuiet(d, acts);
    QuietIsOrderly(q, acts);
    DrainKeeps(q, BallotOf(acts), Kicked(acts));
  }

  /** `decide()` over a series of tasks, up to the one in which it returns or throws. */
  function Decide(d: Run, tasks: seq<seq<Act>>): Run
    decreases |tasks|
  {
    if tasks == [] || d.result != Open then d else Decide(Task(d, tasks[0]), tasks[1..])
  }

  /** Nothing happens in these tasks that concerns the decision. */
  ghost predicate Idle(tasks: seq<seq<Act>>) {
    forall acts <- tasks :: Abort !in acts && BallotOf(acts) == Ballot(None, {})
  }

  /** The whole life of a decision is settled by the first task that concerns it: it throws
      if that task aborts, and otherwise returns a vote cast there. In particular an approval
      is returned only if the signal had not fired by the end of the task that cast it. */
  lemma {:induction false} FirstTaskDecides(d: Run, idle: seq<seq<Act>>, acts: seq<Act>, later: seq<seq<Act>>)
    requires Waiting(d) && Idle(idle) && (Abort in acts || BallotOf(acts) != Ballot(None, {}))
    ensures var t := Decide(d, idle + [acts] + later);
      if Abort in acts then t.result == Lost else !t.aborted && t.result != Open && Counted(t.result, BallotOf(acts))
    decreases |idle|
  {
    var tasks := idle + [acts] + later;
    TaskOutcome(d, tasks[0]);
    if idle != [] {
      assert tasks[1..] == idle[1..] + [acts] + later;
      FirstTaskDecides(Task(d, tasks[0]), idle[1..], acts, later);
    }
  }

  /** The converse reading: whatever the tasks, an approval names a task that cast it, and no
      task up to and including that one aborts. */
  lemma {:induction false} ApprovalPrecedesAbort(d: Run, tasks: seq<seq<Act>>) returns (k: nat)
    requires Waiting(d) && Decide(d, tasks).result.Won?
    ensures k < |tasks| && Counted(Decide(d, tasks).result, BallotOf(tasks[k]))
    ensures forall j | 0 <= j <= k :: Abort !in tasks[j]
    decreases |tasks|
  {
    TaskOutcome(d, tasks[0]);
    var t := Task(d, tasks[0]);
    if t.result == Open {
      var i := ApprovalPrecedesAbort(t, tasks[1..]);
      k := i + 1;
      assert tasks[k] == tasks[1..][i];
      forall j | 0 <= j <= k ensures Abort !in tasks[j] {
        assert j > 0 ==> tasks[j] == tasks[1..][j - 1];
      }
    } else {
      k := 0;
      assert Decide(t, tasks[1..]) == t;
    }
  }

  /** A signal that fired before `decide()` was called rejects it in the same task, even when
      the approver settled at once. */
  lemma BegunAborted(reaction: Reaction, already: Option<TtyResult>)
    ensures Drain(Begin(true, reaction, already)).result == Lost
    ensures Waiting(Drain(Begin(false, reaction, None)))
  {
    var d := Begin(true, reaction, already);
    var ballot := Ballot(None, if already.Some? then {already.value} else {});
    assert already.Some? ==> d.queue[1..] == [RaceAbort];
    DrainKeeps(d, ballot, false);
  }

  /** An approver that settled before the call decides in the same task when no signal has fired. */
  lemma BegunSettled(reaction: Reaction, r: TtyResult)
    ensures Drain(Begin(false, reaction, Some(r))).result == if r.Typed? then Won(Tty, r.approved) else Lost
  {
    var d := Begin(false, reaction, Some(r));
    assert d.queue == [ThenTty(r)];
    var d1 := RunJob(d);
    DrainStep(d);
    hide Drain;
    assert d1.queue == [CatchTty, RaceTty(r)];
    var d2 := RunJob(d1);
    DrainStep(d1);
    assert d2.queue == [RaceTty(r)];
    var d3 := RunJob(d2);
    DrainStep(d2);
    assert d3.queue == [Resume];
    DrainStep(d3);
    SettledKeepsResult(RunJob(d3));
  }

  lemma DrainStep(d: Run)
    requires d.queue != []
    ensures Drain(d) == Drain(RunJob(d))
  {
    hide RunJob;
  }

  /** At most the approver still reacts to its own signal, and nobody listens. */
  lemma {:induction false} SettledKeepsResult(d: Run)
    requires d.tty.Some? && (d.queue == [] || (|d.queue| == 1 && d.queue[0].TtyHop?))
    ensures Drain(d).result == d.result
    decreases Weight(d.queue)
  {
    if d.queue != [] {
      JobsRunOut(d);
      assert d.queue[1..] == [];
      SettledKeepsResult(RunJob(d));
    }
  }

  // ----- the losing prompt is stopped -----

  /** The prompt's own signal fires with the outer one, and at a decision it did not win. */
  ghost predicate PromptFollows(d: Run) {
    && (d.result == Open ==> d.ttyAborted == d.aborted)
    && (d.result != Open ==> d.result == d.race)
    && (d.result.Won? && d.result.channel == Tty ==> d.ttyAborted == d.aborted)
    && (d.result == Lost || (d.result.Won? && d.result.channel == Socket) ==> d.ttyAborted)
  }

  lemma JobKeepsPrompt(d: Run)
    requires PromptFollows(d) && d.queue != [] && (d.queue[0] == Resume ==> d.race != Open)
    ensures PromptFollows(RunJob(d))
  {
  }

  lemma {:induction false} ActsKeepPrompt(d: Run, acts: seq<Act>)
    requires PromptFollows(d)
    ensures PromptFollows(DoAll(d, acts))
    decreases |acts|
  {
    if acts != [] {
      ActsKeepPrompt(d, acts[..|acts| - 1]);
    }
  }

  /** Resuming is queued only by a race that has been decided. */
  ghost predicate ResumesDecided(d: Run) {
    Resume in d.queue ==> d.race != Open
  }

  lemma JobKeepsResumes(d: Run)
    requires d.queue != [] && ResumesDecided(d)
    ensures ResumesDecided(RunJob(d))
  {
  }

  lemma {:induction false} DrainKeepsPrompt(d: Run)
    requires PromptFollows(d) && ResumesDecided(d)
    ensures PromptFollows(Drain(d))
    decreases !d.ttyAborted, Weight(d.queue)
  {
    if d.queue != [] {
      assert d.queue[0] in d.queue;
      JobsRunOut(d);
      JobKeepsPrompt(d);
      JobKeepsResumes(d);
      DrainKeepsPrompt(RunJob(d));
    }
  }

  lemma {:induction false} ActsResumeNothing(d: Run, acts: seq<Act>)
    requires Resume !in d.queue
    ensures Resume !in DoAll(d, acts).queue
    decreases |acts|
  {
    if acts != [] {
      ActsResumeNothing(d, acts[..|acts| - 1]);
      ActResumesNothing(DoAll(d, acts[..|acts| - 1]), acts[|acts| - 1]);
      hide Do;
    }
  }

  lemma ActResumesNothing(d: Run, a: Act)
    requires Resume !in d.queue
    ensures Resume !in Do(d, a).queue
  {
  }

  /** After a task that decides, the terminal's prompt has been stopped unless it decided itself; a
      task that leaves the decision open leaves the prompt alone. */
  lemma LosingPromptIsStopped(d: Run, acts: seq<Act>)
    requires Waiting(d)
    ensures var t := Task(d, acts);
      t.ttyAborted <==> t.aborted || t.result == Lost || (t.result.Won? && t.result.channel == Socket)
  {
    ActsKeepPrompt(d, acts);
    ActsResumeNothing(d, acts);
    DrainKeepsPrompt(DoAll(d, acts));
    TaskOutcome(d, acts);
  }
}
