/** The broker's socket server with its handler: one event-loop task per event, each followed
    by the jobs it queues. The log records what leaves the process and what is decided. */
module PublishServer {
  import opened JsText
  import opened ApprovalHub
  import opened PublishHandler
  import Jobs = DecideJobs

  type ConnId = nat

  /** Where the handler of a connection stands: not called yet, at one of its two awaits, or
      over. */
  datatype Phase =
    | Reading
    | Consulting(prep: Prepared)
    | Deciding(prep: Prepared, id: Id, race: Jobs.Run)
    | Finished

  datatype Conn = Conn(
    served: bool,       // false: answered `busy` and closed at once
    phase: Phase,
    buffered: bool,     // part of a request line has arrived
    dispatched: bool,
    replied: bool,
    aborted: bool,      // the signal handed to the handler
    timerArmed: bool,   // the approval budget is running
    ended: bool,        // the client has sent everything
    destroyed: bool,
    closed: bool)

  datatype Effect =
    | Dispatched(conn: ConnId)
    | Replied(conn: ConnId, response: Response)
    | SignalFired(conn: ConnId)
    | Registered(conn: ConnId, id: Id, view: View)
    | Settled(conn: ConnId, id: Id, fate: Jobs.Fate)
    | Pushed(conn: ConnId, push: Push, prep: Prepared, rereads: Rereads)

  datatype Server = Server(
    busy: bool, conns: map<ConnId, Conn>, hub: ApprovalHub.State, owner: ConnId, ids: set<Id>, log: seq<Effect>)

  const INITIAL := Server(false, map[], ApprovalHub.State.State(None, None), 0, {}, [])

  /** A request line: not JSON, or a JSON value that may or may not be a request. */
  datatype Line = Malformed | Json(req: Option<Request>, seen: Reads)

  datatype Chunk = Partial | TooLarge | Whole(line: Line)

  datatype Event =
    | Accept(conn: ConnId)
    | Data(conn: ConnId, chunk: Chunk)
    | End(conn: ConnId, line: Line)
    | ReadTimeout(conn: ConnId)
    | SocketError(conn: ConnId)
    | Close(conn: ConnId)
    | Budget(conn: ConnId, at: int)
    | Consulted(conn: ConnId, verdict: Option<string>, id: Id, reaction: Jobs.Reaction, at: int)
    | Terminal(conn: ConnId, hops: nat, typed: Jobs.TtyResult, rereads: Rereads, at: int)
    | Submitted(op: Op, rereads: Rereads, at: int)

  predicate Listening(s: Server, c: ConnId) {
    c in s.conns && s.conns[c].served && !s.conns[c].ended && !s.conns[c].destroyed && !s.conns[c].closed
  }

  predicate Enabled(s: Server, e: Event) {
    match e
    case Accept(c) => c !in s.conns
    case Data(c, _) => Listening(s, c)
    case End(c, _) => Listening(s, c)
    case ReadTimeout(c) => c in s.conns && s.conns[c].served && !s.conns[c].dispatched && !s.conns[c].destroyed
      && !s.conns[c].closed
    case SocketError(c) => c in s.conns && s.conns[c].served && !s.conns[c].closed
    case Close(c) => c in s.conns && s.conns[c].served && !s.conns[c].closed
    case Budget(c, _) => c in s.conns && s.conns[c].timerArmed
    case Consulted(c, _, id, _, _) => c in s.conns && s.conns[c].phase.Consulting? && id !in s.ids
    case Terminal(c, _, _, _, _) => c in s.conns && s.conns[c].phase.Deciding?
    case Submitted(_, _, _) => true
  }

  // ----- the pieces of a connection's callbacks -----

  function Put(s: Server, c: ConnId, conn: Conn): Server {
    s.(conns := s.conns[c := conn])
  }

  function Log(s: Server, effect: Effect): Server {
    s.(log := s.log + [effect])
  }

  function Reply(s: Server, c: ConnId, response: Response): Server
    requires c in s.conns
  {
    if s.conns[c].replied then s
    else Log(Put(s, c, s.conns[c].(replied := true)), Replied(c, response))
  }

  /** Clears the budget timer and lets the next connection in, whoever holds the flag. */
  function Release(s: Server, c: ConnId): Server
    requires c in s.conns
  {
    Put(s, c, s.conns[c].(timerArmed := false)).(busy := false)
  }

  /** The handler has produced its response: reply, then release. */
  function Complete(s: Server, c: ConnId, response: Response): Server
    requires c in s.conns
  {
    Release(Reply(Put(s, c, s.conns[c].(phase := Finished)), c, response), c)
  }

  function Dispatch(s: Server, c: ConnId, line: Line): Server
    requires c in s.conns
  {
    var s := Log(Put(s, c, s.conns[c].(dispatched := true, timerArmed := true)), Dispatched(c));
    match line
    case Malformed => Complete(s, c, Fail(InvalidRequest))
    case Json(req, seen) =>
      match Prepare(req, seen)
      case Failure(response) => Complete(s, c, response)
      case Success(prep) => Put(s, c, s.conns[c].(phase := Consulting(prep)))
  }

  /** `decide()` clears the pending request and records the outcome. */
  function Settle1(s: Server, c: ConnId, fate: Jobs.Fate, at: int): Server
    requires c in s.conns && s.conns[c].phase.Deciding? && fate != Jobs.Open
  {
    var id := s.conns[c].phase.id;
    var hub := if fate.Won?
               then ApprovalHub.Settle(s.hub, id, if fate.approved then Approved else Declined, fate.channel, at)
               else ApprovalHub.Settle(s.hub, id, Canceled, Tty, at);
    Log(s.(hub := hub), Settled(c, id, fate))
  }

  /** The stretch after an approval: the push, if every recheck passes, and its report. */
  function Settle2(s: Server, c: ConnId, prep: Prepared, rereads: Rereads): Server
    requires c in s.conns
  {
    var f := Conclude(prep, s.conns[c].aborted, rereads);
    var s := if f.push.Some? then Log(s, Pushed(c, f.push.value, prep, rereads)) else s;
    s.(hub := Report(s.hub, f.report))
  }

  /** `decide()` has returned or thrown, and the handler runs to its end in the same task. */
  function Settle(s: Server, c: ConnId, fate: Jobs.Fate, rereads: Rereads, at: int): Server
    requires c in s.conns && s.conns[c].phase.Deciding? && fate != Jobs.Open
  {
    var prep, aborted := s.conns[c].phase.prep, s.conns[c].aborted;
    var s := Settle1(s, c, fate, at);
    if fate.Lost? then Complete(s, c, Fail(CanceledRequest))
    else if !fate.approved then Complete(s, c, Fail(DeclinedByHuman))
    else Complete(Settle2(s, c, prep, rereads), c, Conclude(prep, aborted, rereads).reply)
  }

  /** Run a task of this connection's decision and, if that ends it, the handler. */
  function Drive(s: Server, c: ConnId, acts: seq<Jobs.Act>, rereads: Rereads, at: int): Server
    requires c in s.conns
  {
    if !s.conns[c].phase.Deciding? then s
    else
      var race := Jobs.Task(s.conns[c].phase.race, acts);
      if race.result == Jobs.Open then Put(s, c, s.conns[c].(phase := s.conns[c].phase.(race := race)))
      else Settle(s, c, race.result, rereads, at)
  }

  /** The rereads of a task that cannot approve anything. */
  const NO_REREADS := Rereads(false, false, None, None, false, false, None)

  function FireSignal(s: Server, c: ConnId): Server
    requires c in s.conns
  {
    if s.conns[c].aborted then s else Log(Put(s, c, s.conns[c].(aborted := true)), SignalFired(c))
  }

  /** `onGone`: abort, and release if nothing was dispatched on this connection. */
  function Gone(s: Server, c: ConnId): Server
    requires c in s.conns
  {
    Drive(GoneListener(s, c), c, [Jobs.Abort], NO_REREADS, 0)
  }

  /** Its synchronous part. */
  function GoneListener(s: Server, c: ConnId): Server
    requires c in s.conns
  {
    var s := FireSignal(s, c);
    if s.conns[c].dispatched then s else Release(Put(s, c, s.conns[c].(replied := true)), c)
  }

  /** The budget timer: abort, and reply at once. */
  function BudgetListener(s: Server, c: ConnId): Server
    requires c in s.conns
  {
    Reply(FireSignal(Put(s, c, s.conns[c].(timerArmed := false)), c), c, Fail(CanceledRequest))
  }

  /** Refuse before dispatch: reply, release, destroy. */
  function Refusal(s: Server, c: ConnId): Server
    requires c in s.conns
  {
    var s := Release(Reply(s, c, Fail(InvalidRequest)), c);
    Put(s, c, s.conns[c].(destroyed := true))
  }

  /** The consult is over and the handler has called `decide()`, which registers the request
      and awaits. */
  function Await(s: Server, c: ConnId, verdict: Option<string>, id: Id, race: Jobs.Run, at: int): Server
    requires c in s.conns && s.conns[c].phase.Consulting?
  {
    var prep := WithVerdict(s.conns[c].phase.prep, verdict);
    var s := s.(hub := Register(s.hub, id, at, prep.view), owner := c, ids := s.ids + {id});
    Log(Put(s, c, s.conns[c].(phase := Deciding(prep, id, race))), Registered(c, id, prep.view))
  }

  /** A connection accepted while the flag is set is answered and closed at once. */
  function NewConn(busy: bool): Conn {
    Conn(!busy, if busy then Finished else Reading, false, false, busy, false, false, false, busy, busy)
  }

  function Apply(s: Server, e: Event): Server
    requires Enabled(s, e)
  {
    match e
    case Accept(c) =>
      var conn := NewConn(s.busy);
      if s.busy then Log(Put(s, c, conn), Replied(c, Fail(BrokerBusy))) else Put(s, c, conn).(busy := true)
    case Data(c, chunk) =>
      if s.conns[c].dispatched then s
      else
        (match chunk
         case Partial => Put(s, c, s.conns[c].(buffered := true))
         case TooLarge => Refusal(s, c)
         case Whole(line) => Dispatch(s, c, line))
    case End(c, line) =>
      var s := Put(s, c, s.conns[c].(ended := true));
      if !s.conns[c].dispatched && s.conns[c].buffered then Dispatch(s, c, line) else s
    case ReadTimeout(c) => Refusal(s, c)
    case SocketError(c) => Gone(Put(s, c, s.conns[c].(destroyed := true)), c)
    case Close(c) => Gone(Put(s, c, s.conns[c].(closed := true)), c)
    case Budget(c, at) => Drive(BudgetListener(s, c), c, [Jobs.Abort], NO_REREADS, at)
    case Consulted(c, verdict, id, reaction, at) =>
      var race := Jobs.Drain(Jobs.Begin(s.conns[c].aborted, reaction, None));
      var s := Await(s, c, verdict, id, race, at);
      if race.result == Jobs.Open then s else Settle(s, c, race.result, NO_REREADS, at)
    case Terminal(c, hops, typed, rereads, at) => Drive(s, c, [Jobs.KickTty(hops, typed)], rereads, at)
    case Submitted(op, rereads, at) =>
      var vote := Vote(Answer(s.hub, op));
      var s := s.(hub := Submit(s.hub, op));
      if vote.Some? && s.owner in s.conns then Drive(s, s.owner, [Jobs.CastSocket(vote.value)], rereads, at) else s
  }

  // ----- runs -----

  ghost predicate ValidRun(s: Server, es: seq<Event>)
    decreases |es|
  {
    es == [] || (Enabled(s, es[0]) && ValidRun(Apply(s, es[0]), es[1..]))
  }

  ghost function After(s: Server, es: seq<Event>): Server
    requires ValidRun(s, es)
    decreases |es|
  {
    if es == [] then s else After(Apply(s, es[0]), es[1..])
  }

  // ----- what the log may contain -----

  ghost predicate DispatchedIn(log: seq<Effect>, c: ConnId) {
    exists e <- log :: e.Dispatched? && e.conn == c
  }

  ghost predicate RepliedIn(log: seq<Effect>, c: ConnId) {
    exists e <- log :: e.Replied? && e.conn == c
  }

  ghost predicate FiredIn(log: seq<Effect>, c: ConnId) {
    SignalFired(c) in log
  }

  ghost predicate PushedIn(log: seq<Effect>, c: ConnId) {
    exists e <- log :: e.Pushed? && e.conn == c
  }

  ghost predicate SettledIn(log: seq<Effect>, c: ConnId, id: Id) {
    exists e <- log :: e.Settled? && e.conn == c && e.id == id
  }

  /** This connection's own `decide()` was given exactly this view, and returned an approval. */
  ghost predicate ApprovedIn(log: seq<Effect>, c: ConnId, view: View) {
    exists id, ch :: Registered(c, id, view) in log && Settled(c, id, Jobs.Won(ch, true)) in log
  }

  /** What must already have happened, and what must not, when an effect takes place. */
  ghost predicate Justified(log: seq<Effect>, e: Effect) {
    match e
    case Dispatched(c) => !DispatchedIn(log, c)
    case Replied(c, _) => !RepliedIn(log, c)
    case SignalFired(c) => !FiredIn(log, c)
    case Registered(_, id, _) => forall f <- log :: f.Registered? ==> f.id != id
    case Settled(c, id, fate) =>
      && (exists view :: Registered(c, id, view) in log)
      && !SettledIn(log, c, id) && (fate.Won? ==> !FiredIn(log, c) && !RepliedIn(log, c))
    case Pushed(c, push, prep, rereads) =>
      && !RepliedIn(log, c) && !FiredIn(log, c) && !PushedIn(log, c)
      && ApprovedIn(log, c, prep.view) && WithinPolicy(prep)
      && push == Push(prep.view.headSha, prep.view.url, prep.view.branch)
      && Rechecked(prep, false, rereads)
  }

  ghost predicate AllJustified(log: seq<Effect>) {
    log == [] || (AllJustified(log[..|log| - 1]) && Justified(log[..|log| - 1], log[|log| - 1]))
  }

  lemma JustifiedSnoc(log: seq<Effect>, e: Effect)
    requires AllJustified(log) && Justified(log, e)
    ensures AllJustified(log + [e])
  {
    assert (log + [e])[..|log|] == log;
  }

  /** How one more effect of this connection changes what is in the log. */
  lemma Appending(log: seq<Effect>, e: Effect, c: ConnId)
    requires e.conn == c
    ensures DispatchedIn(log + [e], c) == (DispatchedIn(log, c) || e.Dispatched?)
    ensures RepliedIn(log + [e], c) == (RepliedIn(log, c) || e.Replied?)
    ensures FiredIn(log + [e], c) == (FiredIn(log, c) || e.SignalFired?)
    ensures PushedIn(log + [e], c) == (PushedIn(log, c) || e.Pushed?)
  {
    assert e in log + [e];
    assert forall f | f in log + [e] :: f in log || f == e;
    assert forall f | f in log :: f in log + [e];
  }

  lemma {:induction false} JustifiedAt(log: seq<Effect>, i: nat)
    requires AllJustified(log) && i < |log|
    ensures Justified(log[..i], log[i])
    decreases |log|
  {
    var front := log[..|log| - 1];
    if i < |front| {
      JustifiedAt(front, i);
      assert front[..i] == log[..i];
    }
  }

  // ----- the invariant of one connection -----

  ghost predicate FlagsMatch(conn: Conn, c: ConnId, log: seq<Effect>) {
    && (DispatchedIn(log, c) ==> conn.dispatched)
    && (RepliedIn(log, c) ==> conn.replied)
    && (FiredIn(log, c) <==> conn.aborted)
  }

  ghost predicate PhaseMatches(conn: Conn, c: ConnId, log: seq<Effect>) {
    match conn.phase
    case Reading =>
      && !conn.dispatched && !conn.timerArmed && !PushedIn(log, c)
      && (!conn.destroyed && !conn.closed ==> !conn.replied && !conn.aborted)
    case Consulting(prep) =>
      && conn.dispatched && WithinPolicy(prep) && !PushedIn(log, c)
      && (conn.replied ==> conn.aborted)
    case Deciding(prep, id, race) =>
      && conn.dispatched && WithinPolicy(prep) && !PushedIn(log, c)
      && !conn.aborted && !conn.replied && Jobs.Waiting(race)
      && Registered(c, id, prep.view) in log && !SettledIn(log, c, id)
    case Finished => conn.dispatched || !conn.served
  }

  ghost predicate ConnGood(conn: Conn, c: ConnId, log: seq<Effect>) {
    FlagsMatch(conn, c, log) && PhaseMatches(conn, c, log)
  }

  /** The hub's pending request belongs to the connection that is waiting for it, and an
      approved outcome always carries its publish result. */
  ghost predicate HubGood(s: Server) {
    && (s.hub.pending.Some? ==>
          && !s.hub.pending.value.resolved
          && s.owner in s.conns && s.conns[s.owner].phase.Deciding?
          && s.hub.pending.value.wire.id == s.conns[s.owner].phase.id
          && s.hub.pending.value.wire.view == s.conns[s.owner].phase.prep.view)
    && (s.hub.last.Some? && s.hub.last.value.decision == Approved ==> s.hub.last.value.publish.Some?)
  }

  ghost predicate Good(s: Server) {
    && AllJustified(s.log) && HubGood(s)
    && (forall e <- s.log :: e.conn in s.conns && (e.Registered? ==> e.id in s.ids))
    && (forall c | c in s.conns :: ConnGood(s.conns[c], c, s.log))
  }

  // ----- every task keeps the invariant -----

  /** Only this connection's record changed, and everything new in the log concerns it. */
  ghost predicate Local(s: Server, s': Server, c: ConnId) {
    && c in s'.conns && s'.conns == s.conns[c := s'.conns[c]]
    && (forall e | e in s.log :: e in s'.log)
    && (forall e | e in s'.log :: e in s.log || (e.conn == c && (e.Registered? ==> e.id in s'.ids)))
    && s.ids <= s'.ids
  }

  lemma LocalTrans(s: Server, t: Server, u: Server, c: ConnId)
    requires Local(s, t, c) && Local(t, u, c)
    ensures Local(s, u, c)
  {
  }

  /** Another connection's effects do not concern this one. */
  lemma OthersEffects(s: Server, s': Server, c: ConnId, d: ConnId)
    requires Local(s, s', c) && d != c && d in s.conns && ConnGood(s.conns[d], d, s.log)
    ensures ConnGood(s'.conns[d], d, s'.log)
  {
  }

  lemma LocalKeepsGood(s: Server, s': Server, c: ConnId)
    requires Good(s) && Local(s, s', c)
    requires AllJustified(s'.log) && HubGood(s') && ConnGood(s'.conns[c], c, s'.log)
    ensures Good(s')
  {
    hide PhaseMatches;
    hide FlagsMatch;
    hide Justified;
    forall d | d in s'.conns ensures ConnGood(s'.conns[d], d, s'.log) {
      if d != c {
        OthersEffects(s, s', c, d);
      }
    }
  }

  /** The parts of the invariant that hold even halfway through a callback. */
  ghost predicate Half(s: Server, c: ConnId) {
    c in s.conns && AllJustified(s.log) && FlagsMatch(s.conns[c], c, s.log)
  }

  lemma LogKeeps(s: Server, c: ConnId, e: Effect, conn: Conn)
    requires AllJustified(s.log) && Justified(s.log, e) && e.conn == c
    requires e.Registered? ==> e.id in s.ids
    requires FlagsMatch(conn, c, s.log + [e])
    ensures var s' := Log(Put(s, c, conn), e);
      Half(s', c) && Local(s, s', c) && s'.conns[c] == conn && s'.log == s.log + [e]
  {
    JustifiedSnoc(s.log, e);
  }

  /** Changing the record again, or the busy flag, stays local. */
  lemma PutIsLocal(s: Server, t: Server, c: ConnId, conn: Conn, busy: bool)
    requires Local(s, t, c)
    ensures Local(s, Put(t, c, conn).(busy := busy), c)
  {
  }

  lemma ReplyKeeps(s: Server, c: ConnId, r: Response)
    requires Half(s, c)
    ensures var s' := Reply(s, c, r);
      && Half(s', c) && Local(s, s', c) && s'.hub == s.hub && s'.owner == s.owner
      && s'.conns[c] == s.conns[c].(replied := true)
      && (s'.log == s.log || s'.log == s.log + [Replied(c, r)])
  {
    if !s.conns[c].replied {
      LogKeeps(s, c, Replied(c, r), s.conns[c].(replied := true));
    }
  }

  lemma FireKeeps(s: Server, c: ConnId)
    requires Half(s, c)
    ensures var s' := FireSignal(s, c);
      && Half(s', c) && Local(s, s', c) && s'.hub == s.hub && s'.owner == s.owner
      && s'.conns[c] == s.conns[c].(aborted := true)
      && (s'.log == s.log || s'.log == s.log + [SignalFired(c)])
  {
    if !s.conns[c].aborted {
      LogKeeps(s, c, SignalFired(c), s.conns[c].(aborted := true));
    }
  }

  lemma CompleteKeeps(s: Server, c: ConnId, r: Response)
    requires Half(s, c) && s.conns[c].dispatched
    ensures var s' := Complete(s, c, r);
      && AllJustified(s'.log) && Local(s, s', c) && ConnGood(s'.conns[c], c, s'.log)
      && s'.hub == s.hub && s'.owner == s.owner
  {
    hide WithinPolicy;
    hide Rechecked;
    hide ApprovedIn;
    hide Jobs.Waiting;
    hide DispatchedIn;
    hide RepliedIn;
    hide FiredIn;
    hide SettledIn;
    hide PushedIn;
    hide Justified;
    hide AllJustified;
    var s1 := Put(s, c, s.conns[c].(phase := Finished));
    PutIsLocal0(s, s1, c);
    hide Local;
    ReplyKeeps(s1, c, r);
    var s2 := Reply(s1, c, r);
    LocalTrans(s, s1, s2, c);
    PutIsLocal(s, s2, c, s2.conns[c].(timerArmed := false), false);
  }

  lemma PreparedIsWithin(req: Option<Request>, r: Reads)
    requires Prepare(req, r).Success?
    ensures WithinPolicy(Prepare(req, r).value)
  {
    PreparedWithinPolicy(req, r);
    hide Prepare;
    hide WithinPolicy;
  }

  lemma DispatchKeeps(s: Server, c: ConnId, line: Line)
    requires Half(s, c) && !s.conns[c].dispatched && !s.conns[c].replied && !s.conns[c].aborted && !PushedIn(s.log, c)
    ensures var s' := Dispatch(s, c, line);
      && AllJustified(s'.log) && Local(s, s', c) && ConnGood(s'.conns[c], c, s'.log)
      && s'.hub == s.hub && s'.owner == s.owner
  {
    hide Prepare;
    hide Complete;
    hide WithinPolicy;
    hide Rechecked;
    hide ApprovedIn;
    var conn := s.conns[c].(dispatched := true, timerArmed := true);
    LogKeeps(s, c, Dispatched(c), conn);
    var s1 := Log(Put(s, c, conn), Dispatched(c));
    if line.Json? && Prepare(line.req, line.seen).Success? {
      PreparedIsWithin(line.req, line.seen);
    } else {
      var r := if line.Malformed? then Fail(InvalidRequest) else Prepare(line.req, line.seen).error;
      CompleteKeeps(s1, c, r);
      LocalTrans(s, s1, Complete(s1, c, r), c);
    }
  }

  /** A decision that can be settled: registered, not settled before, nothing pushed. */
  ghost predicate Settleable(s: Server, c: ConnId) {
    && Half(s, c) && s.conns[c].phase.Deciding? && s.conns[c].dispatched
    && WithinPolicy(s.conns[c].phase.prep) && !PushedIn(s.log, c)
    && Registered(c, s.conns[c].phase.id, s.conns[c].phase.prep.view) in s.log
    && !SettledIn(s.log, c, s.conns[c].phase.id)
  }

  lemma Settle1Keeps(s: Server, c: ConnId, fate: Jobs.Fate, at: int)
    requires Settleable(s, c) && fate != Jobs.Open
    requires fate.Won? ==> !s.conns[c].aborted && !s.conns[c].replied
    ensures var (s', phase) := (Settle1(s, c, fate, at), s.conns[c].phase);
      && Half(s', c) && Local(s, s', c) && s'.conns == s.conns && !PushedIn(s'.log, c)
      && s'.hub.pending.None? && s'.hub.last.Some?
        && (fate.Lost? || !fate.approved ==> s'.hub.last.value.decision != Approved)
      && Settled(c, phase.id, fate) in s'.log && Registered(c, phase.id, phase.prep.view) in s'.log
  {
    LogKeeps(s, c, Settled(c, s.conns[c].phase.id, fate), s.conns[c]);
    var conn := s.conns[c];
    assert s.conns[c := conn] == s.conns;
  }

  lemma Settle2Keeps(s: Server, c: ConnId, prep: Prepared, rereads: Rereads)
    requires Half(s, c) && !s.conns[c].aborted && !s.conns[c].replied && !PushedIn(s.log, c)
    requires WithinPolicy(prep) && ApprovedIn(s.log, c, prep.view) && s.hub.pending.None? && s.hub.last.Some?
    ensures var s' := Settle2(s, c, prep, rereads);
      && Half(s', c) && Local(s, s', c) && s'.conns == s.conns && HubGood(s')
  {
    hide Conclude;
    hide WithinPolicy;
    hide Rechecked;
    PushIffRechecked(prep, false, rereads);
    var f := Conclude(prep, false, rereads);
    if f.push.Some? {
      LogKeeps(s, c, Pushed(c, f.push.value, prep, rereads), s.conns[c]);
      var conn := s.conns[c];
      assert s.conns[c := conn] == s.conns;
    }
  }

  lemma SettleKeeps(s: Server, c: ConnId, fate: Jobs.Fate, rereads: Rereads, at: int)
    requires Settleable(s, c) && fate != Jobs.Open
    requires fate.Won? ==> !s.conns[c].aborted && !s.conns[c].replied
    ensures var s' := Settle(s, c, fate, rereads, at);
      && AllJustified(s'.log) && Local(s, s', c) && ConnGood(s'.conns[c], c, s'.log) && HubGood(s')
  {
    var prep := s.conns[c].phase.prep;
    var s1 := Settle1(s, c, fate, at);
    Settle1Keeps(s, c, fate, at);
    if fate.Won? && fate.approved {
      var s2 := Settle2(s1, c, prep, rereads);
      assert ApprovedIn(s1.log, c, prep.view);
      Settle2Keeps(s1, c, prep, rereads);
      LocalTrans(s, s1, s2, c);
      CompleteAfter(s, s2, c, Conclude(prep, false, rereads).reply);
    } else {
      CompleteAfter(s, s1, c, Fail(if fate.Won? then DeclinedByHuman else CanceledRequest));
    }
  }

  lemma CompleteAfter(s: Server, t: Server, c: ConnId, r: Response)
    requires Local(s, t, c) && Half(t, c) && t.conns[c].dispatched && t.hub.pending.None? && HubGood(t)
    ensures var s' := Complete(t, c, r);
      && AllJustified(s'.log) && Local(s, s', c) && ConnGood(s'.conns[c], c, s'.log) && HubGood(s')
  {
    CompleteKeeps(t, c, r);
    LocalTrans(s, t, Complete(t, c, r), c);
  }

  /** A task of a waiting decision that casts votes but does not abort. */
  lemma DriveVotes(s: Server, c: ConnId, act: Jobs.Act, rereads: Rereads, at: int)
    requires Settleable(s, c) && Jobs.Waiting(s.conns[c].phase.race) && !s.conns[c].aborted && !s.conns[c].replied
    requires act.CastSocket? || act.KickTty?
    ensures var s' := Drive(s, c, [act], rereads, at);
      && AllJustified(s'.log) && Local(s, s', c) && ConnGood(s'.conns[c], c, s'.log) && HubGood(s')
  {
    assert [act][..0] == [];
    Jobs.TaskOutcome(s.conns[c].phase.race, [act]);
    SettleKeeps(s, c, Jobs.Task(s.conns[c].phase.race, [act]).result, rereads, at);
  }

  /** An abort settles a waiting decision as lost. */
  lemma DriveAbort(s: Server, c: ConnId, at: int)
    requires Settleable(s, c) && Jobs.Waiting(s.conns[c].phase.race)
    ensures var s' := Drive(s, c, [Jobs.Abort], NO_REREADS, at);
      && AllJustified(s'.log) && Local(s, s', c) && ConnGood(s'.conns[c], c, s'.log) && HubGood(s')
  {
    Jobs.TaskOutcome(s.conns[c].phase.race, [Jobs.Abort]);
    SettleKeeps(s, c, Jobs.Lost, NO_REREADS, at);
  }

  /** What a callback must establish about its own connection. */
  ghost predicate Stepped(s: Server, s': Server, c: ConnId) {
    AllJustified(s'.log) && Local(s, s', c) && ConnGood(s'.conns[c], c, s'.log) && HubGood(s')
  }

  ghost predicate Ready(s: Server, c: ConnId) {
    c in s.conns && AllJustified(s.log) && ConnGood(s.conns[c], c, s.log) && HubGood(s)
  }

  lemma RefusalKeeps(s: Server, c: ConnId)
    requires Ready(s, c) && s.conns[c].phase.Reading?
    ensures Stepped(s, Refusal(s, c), c)
  {
    hide WithinPolicy;
    hide Rechecked;
    hide ApprovedIn;
    hide Jobs.Waiting;
    hide Justified;
    ReplyKeeps(s, c, Fail(InvalidRequest));
    var s1 := Reply(s, c, Fail(InvalidRequest));
    PutIsLocal(s, s1, c, s1.conns[c].(timerArmed := false), false);
    var s2 := Release(s1, c);
    PutIsLocal(s, s2, c, s2.conns[c].(destroyed := true), s2.busy);
  }

  lemma DispatchStep(s: Server, c: ConnId, conn: Conn, line: Line)
    requires Ready(s, c) && Listening(s, c) && s.conns[c].phase.Reading?
    requires conn == s.conns[c].(ended := conn.ended)
    ensures Stepped(s, Dispatch(Put(s, c, conn), c, line), c)
  {
    hide Dispatch;
    hide WithinPolicy;
    hide Rechecked;
    hide ApprovedIn;
    hide Jobs.Waiting;
    var s1 := Put(s, c, conn);
    DispatchKeeps(s1, c, line);
    LocalTrans(s, s1, Dispatch(s1, c, line), c);
  }

  /** The signal has fired; a decision that was waiting is settled as lost. */
  lemma AbortStep(s: Server, t: Server, c: ConnId, at: int)
    requires Ready(s, c) && Aborting(s, t, c)
    ensures Stepped(s, Drive(t, c, [Jobs.Abort], NO_REREADS, at), c)
  {
    hide Settle;
    hide Jobs.Task;
    hide WithinPolicy;
    hide Rechecked;
    hide ApprovedIn;
    if t.conns[c].phase.Deciding? {
      DriveAbort(t, c, at);
      LocalTrans(s, t, Drive(t, c, [Jobs.Abort], NO_REREADS, at), c);
    }
  }

  /** What an aborting listener has done before the jobs run. */
  ghost predicate Aborting(s: Server, t: Server, c: ConnId) {
    && c in s.conns && Local(s, t, c) && Half(t, c) && t.hub == s.hub && t.owner == s.owner
    && t.conns[c].phase == s.conns[c].phase && t.conns[c].aborted
    && t.conns[c].dispatched == s.conns[c].dispatched && t.conns[c].served == s.conns[c].served
    && (t.conns[c].phase.Reading? ==> !t.conns[c].timerArmed && (t.conns[c].destroyed || t.conns[c].closed))
    && (forall e <- t.log :: e in s.log || e.Replied? || e.SignalFired?)
  }

  lemma GoneAborts(s: Server, t: Server, c: ConnId)
    requires Ready(s, c) && c in t.conns && t == Put(s, c, t.conns[c]) && (t.conns[c].destroyed || t.conns[c].closed)
    requires t.conns[c] == s.conns[c].(destroyed := t.conns[c].destroyed, closed := t.conns[c].closed)
    ensures Aborting(s, GoneListener(t, c), c)
  {
    GoneFires(s, t, c);
    ReadingHasNoTimer(s, c);
    var t1 := FireSignal(t, c);
    assert c in s.conns;
    hide Ready;
    hide Local;
    hide Half;
    hide Aborting;
    hide FireSignal;
    FiredAborts(s, t1, c);
  }

  /** What has fired is an abort already, and stays one when the listener also releases. */
  lemma FiredAborts(s: Server, t: Server, c: ConnId)
    requires c in s.conns && Local(s, t, c) && Half(t, c) && t.hub == s.hub && t.owner == s.owner
    requires t.conns[c] == s.conns[c].(aborted := true, destroyed := t.conns[c].destroyed, closed := t.conns[c].closed)
    requires t.conns[c].destroyed || t.conns[c].closed
    requires s.conns[c].phase.Reading? ==> !s.conns[c].timerArmed
    requires forall e <- t.log :: e in s.log || e.SignalFired?
    ensures Aborting(s, if t.conns[c].dispatched then t else Release(Put(t, c, t.conns[c].(replied := true)), c), c)
  {
    LocalIsHere(s, t, c);
    hide Local;
    hide Half;
    if !t.conns[c].dispatched {
      var conn := t.conns[c].(replied := true, timerArmed := false);
      PutIsLocal(s, t, c, conn, false);
      HalfSilenced(t, c, conn);
      SilencedAndReleased(t, c);
      hide Release;
    }
  }

  lemma SilencedAndReleased(t: Server, c: ConnId)
    requires c in t.conns
    ensures Release(Put(t, c, t.conns[c].(replied := true)), c) ==
      Put(t, c, t.conns[c].(replied := true, timerArmed := false)).(busy := false)
  {
    var conn := t.conns[c];
    PutTwice(t, c, conn.(replied := true), conn.(replied := true, timerArmed := false));
    hide Put;
  }

  lemma PutTwice(s: Server, c: ConnId, first: Conn, last: Conn)
    ensures Put(Put(s, c, first), c, last) == Put(s, c, last) && Put(s, c, first).conns[c] == first
  {
    assert s.conns[c := first][c := last] == s.conns[c := last];
  }

  lemma LocalIsHere(s: Server, t: Server, c: ConnId)
    requires Local(s, t, c)
    ensures c in t.conns
  {
  }

  /** The signal has fired for a connection that is gone. */
  lemma GoneFires(s: Server, t: Server, c: ConnId)
    requires Ready(s, c) && c in t.conns && t == Put(s, c, t.conns[c])
    requires t.conns[c] == s.conns[c].(destroyed := t.conns[c].destroyed, closed := t.conns[c].closed)
    ensures var t1 := FireSignal(t, c);
      && Local(s, t1, c) && Half(t1, c) && t1.hub == s.hub && t1.owner == s.owner
      && t1.conns[c] == t.conns[c].(aborted := true)
      && (forall e <- t1.log :: e in s.log || e.SignalFired?)
  {
    PutIsLocal0(s, t, c);
    HalfPut(s, t, c);
    hide Ready;
    hide Local;
    hide Half;
    FireKeeps(t, c);
    LocalTrans(s, t, FireSignal(t, c), c);
    FireIsQuiet(t, c);
    hide FireSignal;
  }

  lemma ReadingHasNoTimer(s: Server, c: ConnId)
    requires Ready(s, c)
    ensures s.conns[c].phase.Reading? ==> !s.conns[c].timerArmed
  {
  }

  lemma FireIsQuiet(s: Server, c: ConnId)
    requires c in s.conns
    ensures forall e <- FireSignal(s, c).log :: e in s.log || e.SignalFired?
  {
  }

  /** Before the first effect: only this record changed. */
  lemma PutIsLocal0(s: Server, t: Server, c: ConnId)
    requires c in s.conns && c in t.conns && t == Put(s, c, t.conns[c])
    ensures Local(s, t, c)
  {
  }

  lemma HalfPut(s: Server, t: Server, c: ConnId)
    requires Ready(s, c) && c in t.conns && t == Put(s, c, t.conns[c])
    requires t.conns[c] == s.conns[c].(destroyed := t.conns[c].destroyed, closed := t.conns[c].closed)
    ensures Half(t, c)
  {
    hide PhaseMatches;
    hide Justified;
    hide HubGood;
  }

  /** Claiming a reply keeps the flags in step with the log. */
  lemma HalfSilenced(t: Server, c: ConnId, conn: Conn)
    requires Half(t, c) && conn == t.conns[c].(replied := true, timerArmed := false)
    ensures Half(Put(t, c, conn).(busy := false), c)
  {
    hide Justified;
  }

  lemma BudgetAborts(s: Server, c: ConnId)
    requires Ready(s, c) && s.conns[c].timerArmed
    ensures Aborting(s, BudgetListener(s, c), c)
  {
    hide WithinPolicy;
    hide Rechecked;
    hide ApprovedIn;
    hide Jobs.Waiting;
    hide Justified;
    hide AllJustified;
    hide HubGood;
    hide DispatchedIn;
    hide RepliedIn;
    hide FiredIn;
    hide SettledIn;
    hide PushedIn;
    var t := Put(s, c, s.conns[c].(timerArmed := false));
    FireKeeps(t, c);
    var t1 := FireSignal(t, c);
    LocalTrans(s, t, t1, c);
    ReplyKeeps(t1, c, Fail(CanceledRequest));
    LocalTrans(s, t1, Reply(t1, c, Fail(CanceledRequest)), c);
  }

  lemma AwaitKeeps(s: Server, c: ConnId, verdict: Option<string>, id: Id, race: Jobs.Run, at: int)
    requires Ready(s, c) && s.conns[c].phase.Consulting? && !SettledIn(s.log, c, id)
    requires forall e <- s.log :: e.Registered? ==> e.id != id
    ensures var s' := Await(s, c, verdict, id, race, at);
      && Local(s, s', c) && Settleable(s', c)
      && s'.conns[c] == s.conns[c].(phase := Deciding(WithVerdict(s.conns[c].phase.prep, verdict), id, race))
      && (Jobs.Waiting(race) && !s.conns[c].aborted ==> Stepped(s, s', c))
  {
    hide WithinPolicy;
    hide Rechecked;
    hide ApprovedIn;
    hide Jobs.Waiting;
    hide DispatchedIn;
    hide RepliedIn;
    hide FiredIn;
    hide PushedIn;
    hide Local;
    hide AllJustified;
    var prep := WithVerdict(s.conns[c].phase.prep, verdict);
    VerdictKeepsPolicy(s.conns[c].phase.prep, verdict);
    Appending(s.log, Registered(c, id, prep.view), c);
    FreshIsJustified(s.log, c, id, prep.view);
    hide Justified;
    var s0 := s.(hub := Register(s.hub, id, at, prep.view), owner := c, ids := s.ids + {id});
    RegisteringIsLocal(s, s0, c);
    LogKeeps(s0, c, Registered(c, id, prep.view), s.conns[c].(phase := Deciding(prep, id, race)));
    LocalTrans(s, s0, Await(s, c, verdict, id, race, at), c);
  }

  lemma VerdictKeepsPolicy(p: Prepared, verdict: Option<string>)
    requires WithinPolicy(p)
    ensures WithinPolicy(WithVerdict(p, verdict))
  {
  }

  lemma FreshIsJustified(log: seq<Effect>, c: ConnId, id: Id, view: View)
    requires forall e <- log :: e.Registered? ==> e.id != id
    ensures Justified(log, Registered(c, id, view))
  {
  }

  lemma RegisteringIsLocal(s: Server, t: Server, c: ConnId)
    requires c in s.conns && t.conns == s.conns && t.log == s.log && s.ids <= t.ids
    ensures Local(s, t, c)
  {
  }

  lemma ConsultedKeeps(s: Server, c: ConnId, verdict: Option<string>, id: Id, reaction: Jobs.Reaction, at: int)
    requires Ready(s, c) && s.conns[c].phase.Consulting? && id !in s.ids && !SettledIn(s.log, c, id)
    requires forall e <- s.log :: e.Registered? ==> e.id != id
    ensures Stepped(s, Apply(s, Consulted(c, verdict, id, reaction, at)), c)
  {
    hide Await;
    hide Settle;
    hide Jobs.Drain;
    hide Jobs.Begin;
    hide WithinPolicy;
    hide Justified;
    var race := Jobs.Drain(Jobs.Begin(s.conns[c].aborted, reaction, None));
    Jobs.BegunAborted(reaction, None);
    AwaitKeeps(s, c, verdict, id, race, at);
    var s1 := Await(s, c, verdict, id, race, at);
    if race.result != Jobs.Open {
      SettleKeeps(s1, c, race.result, NO_REREADS, at);
      LocalTrans(s, s1, Settle(s1, c, race.result, NO_REREADS, at), c);
    }
  }

  /** A vote that counts is for the request of the connection that waits. */
  lemma VoteHasOwner(s: Server, op: Op)
    requires HubGood(s) && Vote(Answer(s.hub, op)).Some?
    ensures s.owner in s.conns && s.conns[s.owner].phase.Deciding?
  {
  }

  lemma VoteIsSettleable(s: Server, op: Op)
    requires Ready(s, s.owner) && Vote(Answer(s.hub, op)).Some?
    ensures var t, c := s.(hub := Submit(s.hub, op)), s.owner;
      && Settleable(t, c) && Jobs.Waiting(t.conns[c].phase.race) && !t.conns[c].aborted && !t.conns[c].replied
      && Local(s, t, c)
  {
    hide WithinPolicy;
    hide Justified;
    VoteHasOwner(s, op);
  }

  lemma VoteDrives(s: Server, op: Op, rereads: Rereads, at: int)
    requires s.owner in s.conns && Vote(Answer(s.hub, op)).Some?
    ensures Apply(s, Submitted(op, rereads, at)) ==
      Drive(s.(hub := Submit(s.hub, op)), s.owner, [Jobs.CastSocket(Vote(Answer(s.hub, op)).value)], rereads, at)
  {
    hide Drive;
    hide Submit;
    hide Answer;
    hide Vote;
  }

  /** A socket vote reaches the connection whose request is pending. */
  lemma VoteKeeps(s: Server, op: Op, rereads: Rereads, at: int)
    requires Ready(s, s.owner) && Vote(Answer(s.hub, op)).Some?
    ensures Stepped(s, Apply(s, Submitted(op, rereads, at)), s.owner)
  {
    VoteIsSettleable(s, op);
    VoteDrives(s, op, rereads, at);
    hide Apply;
    hide Drive;
    hide Ready;
    hide Settleable;
    hide Local;
    hide Jobs.Waiting;
    hide Submit;
    hide Answer;
    hide AllJustified;
    hide ConnGood;
    var c, vote := s.owner, Vote(Answer(s.hub, op)).value;
    var s1 := s.(hub := Submit(s.hub, op));
    DriveVotes(s1, c, Jobs.CastSocket(vote), rereads, at);
    LocalTrans(s, s1, Drive(s1, c, [Jobs.CastSocket(vote)], rereads, at), c);
  }

  lemma TerminalKeeps(s: Server, c: ConnId, hops: nat, typed: Jobs.TtyResult, rereads: Rereads, at: int)
    requires Ready(s, c) && s.conns[c].phase.Deciding?
    ensures Stepped(s, Apply(s, Terminal(c, hops, typed, rereads, at)), c)
  {
    hide Drive;
    DriveVotes(s, c, Jobs.KickTty(hops, typed), rereads, at);
  }

  lemma NothingOfItsOwn(log: seq<Effect>, c: ConnId)
    requires forall e <- log :: e.conn != c
    ensures !DispatchedIn(log, c) && !RepliedIn(log, c) && !FiredIn(log, c) && !PushedIn(log, c)
    ensures Justified(log, Replied(c, Fail(BrokerBusy)))
  {
  }

  lemma AcceptKeeps(s: Server, c: ConnId)
    requires AllJustified(s.log) && HubGood(s) && c !in s.conns && forall e <- s.log :: e.conn != c
    ensures Stepped(s, Apply(s, Accept(c)), c)
  {
    NothingOfItsOwn(s.log, c);
    hide Justified;
    hide DispatchedIn;
    hide RepliedIn;
    hide FiredIn;
    hide PushedIn;
    hide SettledIn;
    hide ApprovedIn;
    hide WithinPolicy;
    hide Jobs.Waiting;
    hide AllJustified;
    hide HubGood;
    Appending(s.log, Replied(c, Fail(BrokerBusy)), c);
    if s.busy {
      LogKeeps(s, c, Replied(c, Fail(BrokerBusy)), NewConn(true));
    }
  }

  lemma DataKeeps(s: Server, c: ConnId, chunk: Chunk)
    requires Ready(s, c) && Listening(s, c)
    ensures Stepped(s, Apply(s, Data(c, chunk)), c)
  {
    hide Dispatch;
    hide Refusal;
    hide WithinPolicy;
    hide Jobs.Waiting;
    hide Justified;
    if !s.conns[c].dispatched && chunk.TooLarge? {
      RefusalKeeps(s, c);
    } else if !s.conns[c].dispatched && chunk.Whole? {
      var conn := s.conns[c];
      assert s.conns[c := conn] == s.conns && Put(s, c, conn) == s;
      DispatchStep(s, c, conn, chunk.line);
    }
  }

  lemma EndKeeps(s: Server, c: ConnId, line: Line)
    requires Ready(s, c) && Listening(s, c)
    ensures Stepped(s, Apply(s, End(c, line)), c)
  {
    hide Dispatch;
    hide WithinPolicy;
    hide Jobs.Waiting;
    hide Justified;
    if !s.conns[c].dispatched && s.conns[c].buffered {
      DispatchStep(s, c, s.conns[c].(ended := true), line);
    }
  }

  lemma GoneKeeps(s: Server, t: Server, c: ConnId)
    requires Ready(s, c) && c in t.conns && t == Put(s, c, t.conns[c]) && (t.conns[c].destroyed || t.conns[c].closed)
    requires t.conns[c] == s.conns[c].(destroyed := t.conns[c].destroyed, closed := t.conns[c].closed)
    ensures Stepped(s, Gone(t, c), c)
  {
    hide Drive;
    hide GoneListener;
    GoneAborts(s, t, c);
    AbortStep(s, GoneListener(t, c), c, 0);
  }

  lemma BudgetKeeps(s: Server, c: ConnId, at: int)
    requires Ready(s, c) && s.conns[c].timerArmed
    ensures Stepped(s, Apply(s, Budget(c, at)), c)
  {
    hide Drive;
    hide BudgetListener;
    BudgetAborts(s, c);
    AbortStep(s, BudgetListener(s, c), c, at);
  }

  lemma ConnStep(s: Server, e: Event)
    requires !e.Submitted? && !e.Accept? && Ready(s, e.conn) && Enabled(s, e)
    requires e.Consulted? ==> !SettledIn(s.log, e.conn, e.id) && forall f <- s.log :: f.Registered? ==> f.id != e.id
    ensures Stepped(s, Apply(s, e), e.conn)
  {
    hide Stepped;
    hide Gone;
    hide Refusal;
    hide HubGood;
    hide AllJustified;
    var c := e.conn;
    match e
    case Data(_, chunk) => DataKeeps(s, c, chunk);
    case End(_, line) => EndKeeps(s, c, line);
    case ReadTimeout(_) => RefusalKeeps(s, c);
    case SocketError(_) => GoneKeeps(s, Put(s, c, s.conns[c].(destroyed := true)), c);
    case Close(_) => GoneKeeps(s, Put(s, c, s.conns[c].(closed := true)), c);
    case Budget(_, at) => BudgetKeeps(s, c, at);
    case Consulted(_, verdict, id, reaction, at) => ConsultedKeeps(s, c, verdict, id, reaction, at);
    case Terminal(_, hops, typed, rereads, at) => TerminalKeeps(s, c, hops, typed, rereads, at);
  }

  lemma OneConn(s: Server, e: Event)
    requires Good(s) && Enabled(s, e) && !e.Submitted? && !e.Accept?
    ensures Stepped(s, Apply(s, e), e.conn)
  {
    hide Apply;
    if e.Consulted? && SettledIn(s.log, e.conn, e.id) {
      SettledWasRegistered(s.log, e.conn, e.id);
    }
    ConnStep(s, e);
  }

  lemma {:induction false} SettledWasRegistered(log: seq<Effect>, c: ConnId, id: Id)
    requires AllJustified(log) && SettledIn(log, c, id)
    ensures exists e <- log :: e.Registered? && e.id == id
    decreases |log|
  {
    var front, last := log[..|log| - 1], log[|log| - 1];
    if SettledIn(front, c, id) {
      SettledWasRegistered(front, c, id);
      var e :| e in front && e.Registered? && e.id == id;
      assert e in log;
    } else {
      assert last.Settled? && last.conn == c && last.id == id;
      var view :| Registered(c, id, view) in front;
      assert Registered(c, id, view) in log;
    }
  }

  lemma StepKeepsGood(s: Server, e: Event)
    requires Good(s) && Enabled(s, e)
    ensures Good(Apply(s, e))
  {
    hide ConnGood;
    if !e.Submitted? {
      if e.Accept? { AcceptKeeps(s, e.conn); } else { OneConn(s, e); }
      LocalKeepsGood(s, Apply(s, e), e.conn);
    } else if Vote(Answer(s.hub, e.op)).Some? {
      VoteHasOwner(s, e.op);
      VoteKeeps(s, e.op, e.rereads, e.at);
      LocalKeepsGood(s, Apply(s, e), s.owner);
    }
  }

  // ----- every run -----

  lemma InitialIsGood()
    ensures Good(INITIAL)
  {
  }

  lemma {:induction false} RunKeepsGood(s: Server, es: seq<Event>)
    requires Good(s) && ValidRun(s, es)
    ensures Good(After(s, es))
    decreases |es|
  {
    if es != [] {
      StepKeepsGood(s, es[0]);
      RunKeepsGood(Apply(s, es[0]), es[1..]);
    }
  }

  /** Every push in every run, whatever the outside world did between any two reads: it
      carries the commit, URL and branch of the view this connection's `decide()` was given
      and approved; HEAD and target were read again and found the same, the configuration was
      clean and the ticket registered; and at that moment no reply had been sent, the signal
      had not fired and nothing had been pushed for this connection. */
  lemma EveryPushIsApproved(es: seq<Event>, i: nat)
    requires ValidRun(INITIAL, es) && i < |After(INITIAL, es).log| && After(INITIAL, es).log[i].Pushed?
    ensures var (before, e) := (After(INITIAL, es).log[..i], After(INITIAL, es).log[i]);
      && !RepliedIn(before, e.conn) && !FiredIn(before, e.conn) && !PushedIn(before, e.conn)
      && ApprovedIn(before, e.conn, e.prep.view) && WithinPolicy(e.prep)
      && e.push == Push(e.prep.view.headSha, e.prep.view.url, e.prep.view.branch)
      && Rechecked(e.prep, false, e.rereads)
  {
    InitialIsGood();
    RunKeepsGood(INITIAL, es);
    JustifiedAt(After(INITIAL, es).log, i);
  }

  lemma {:induction false} SnocEvent(s: Server, es: seq<Event>, e: Event)
    requires ValidRun(s, es) && Enabled(After(s, es), e)
    ensures ValidRun(s, es + [e]) && After(s, es + [e]) == Apply(After(s, es), e)
    decreases |es|
  {
    hide Enabled;
    hide Apply;
    if es == [] {
      assert es + [e] == [e] && [e][1..] == [];
    } else {
      assert (es + [e])[0] == es[0] && (es + [e])[1..] == es[1..] + [e];
      SnocEvent(Apply(s, es[0]), es[1..], e);
    }
  }

  /** The prepared request with the verdict of its consult: what the human is shown. */
  function ShownRequest(line: Line, verdict: Option<string>): Prepared
    requires line.Json? && Prepare(line.req, line.seen).Success?
  {
    WithVerdict(Prepare(line.req, line.seen).value, verdict)
  }

  /** Pushes do happen: every request that is prepared, whatever its consult says, is pushed once
      the terminal approves it and everything read again is the same. */
  lemma PushIsReachable(line: Line, verdict: Option<string>, id: Id, reaction: Jobs.Reaction, hops: nat,
                        rereads: Rereads, at: int, push: Push) returns (es: seq<Event>)
    requires line.Json? && Prepare(line.req, line.seen).Success?
    requires Conclude(ShownRequest(line, verdict), false, rereads).push == Some(push)
    ensures es == [Accept(0), Data(0, Whole(line)), Consulted(0, verdict, id, reaction, at),
                   Terminal(0, hops, Jobs.Typed(true), rereads, at)]
    ensures ValidRun(INITIAL, es) && Pushed(0, push, ShownRequest(line, verdict), rereads) in After(INITIAL, es).log
  {
    hide ValidRun;
    hide After;
    hide Apply;
    hide Conclude;
    hide Prepare;
    es := RequestIsShown(line, verdict, id, reaction, at);
    var s := After(INITIAL, es);
    var e := Terminal(0, hops, Jobs.Typed(true), rereads, at);
    TerminalDrives(s, e);
    SnocEvent(INITIAL, es, e);
    ApprovalPushes(s, 0, hops, rereads, at, push);
    es := es + [e];
  }

  lemma TerminalDrives(s: Server, e: Event)
    requires e.Terminal? && e.conn in s.conns && s.conns[e.conn].phase.Deciding?
    ensures Enabled(s, e) && Apply(s, e) == Drive(s, e.conn, [Jobs.KickTty(e.hops, e.typed)], e.rereads, e.at)
  {
    hide Drive;
  }

  /** Three tasks take a request to the human. */
  lemma RequestIsShown(line: Line, verdict: Option<string>, id: Id, reaction: Jobs.Reaction, at: int)
    returns (es: seq<Event>)
    requires line.Json? && Prepare(line.req, line.seen).Success?
    ensures es == [Accept(0), Data(0, Whole(line)), Consulted(0, verdict, id, reaction, at)]
    ensures ValidRun(INITIAL, es)
    ensures var s := After(INITIAL, es);
      && 0 in s.conns && s.conns[0].phase.Deciding? && !s.conns[0].aborted
      && Jobs.Waiting(s.conns[0].phase.race) && s.conns[0].phase.prep == ShownRequest(line, verdict)
  {
    hide Prepare;
    hide Jobs.Drain;
    hide Jobs.Begin;
    Jobs.BegunAborted(reaction, None);
    FirstTwoTasks(line);
    es := [Accept(0), Data(0, Whole(line))];
    SnocEvent(INITIAL, es, Consulted(0, verdict, id, reaction, at));
    hide After;
    hide ValidRun;
    es := es + [Consulted(0, verdict, id, reaction, at)];
  }

  lemma FirstTwoTasks(line: Line)
    requires line.Json? && Prepare(line.req, line.seen).Success?
    ensures var es := [Accept(0), Data(0, Whole(line))];
      && ValidRun(INITIAL, es)
      && var s := After(INITIAL, es);
         && 0 in s.conns && s.conns[0].phase == Consulting(Prepare(line.req, line.seen).value)
         && !s.conns[0].aborted && s.ids == {}
  {
    hide Prepare;
    var a, b := Event.Accept(0), Event.Data(0, Whole(line));
    SnocEvent(INITIAL, [], a);
    assert [] + [a] == [a];
    SnocEvent(INITIAL, [a], b);
    assert [a] + [b] == [a, b];
  }

  lemma ApprovalPushes(s: Server, c: ConnId, hops: nat, rereads: Rereads, at: int, push: Push)
    requires c in s.conns && s.conns[c].phase.Deciding? && !s.conns[c].aborted && Jobs.Waiting(s.conns[c].phase.race)
    requires Conclude(s.conns[c].phase.prep, false, rereads).push == Some(push)
    ensures Pushed(c, push, s.conns[c].phase.prep, rereads)
      in Drive(s, c, [Jobs.KickTty(hops, Jobs.Typed(true))], rereads, at).log
  {
    hide Conclude;
    TypedYesWins(s.conns[c].phase.race, hops);
    hide Jobs.Task;
    hide Jobs.Waiting;
  }

  lemma TypedYesWins(race: Jobs.Run, hops: nat)
    requires Jobs.Waiting(race)
    ensures Jobs.Task(race, [Jobs.KickTty(hops, Jobs.Typed(true))]).result == Jobs.Won(Tty, true)
  {
    var act := Jobs.KickTty(hops, Jobs.Typed(true));
    assert [act][..0] == [];
    Jobs.TaskOutcome(race, [act]);
    hide Jobs.Task;
  }

  /** In every run each connection dispatches at most once and is answered at most once. */
  lemma AtMostOnePerConnection(es: seq<Event>, i: nat, j: nat)
    requires ValidRun(INITIAL, es) && i < j < |After(INITIAL, es).log|
    ensures var (e, f) := (After(INITIAL, es).log[i], After(INITIAL, es).log[j]);
      e.conn == f.conn ==> !(e.Dispatched? && f.Dispatched?) && !(e.Replied? && f.Replied?) && !(e.Pushed? && f.Pushed?)
                           && !(e.Replied? && f.Pushed?)
  {
    InitialIsGood();
    RunKeepsGood(INITIAL, es);
    var log := After(INITIAL, es).log;
    JustifiedAt(log, j);
    assert log[..j][i] == log[i];
  }

  /** A decision is settled as approved or declined only while its client is still waiting. */
  lemma NoVerdictAfterAbort(es: seq<Event>, i: nat)
    requires ValidRun(INITIAL, es) && i < |After(INITIAL, es).log|
    requires After(INITIAL, es).log[i].Settled? && After(INITIAL, es).log[i].fate.Won?
    ensures var (before, e) := (After(INITIAL, es).log[..i], After(INITIAL, es).log[i]);
      !FiredIn(before, e.conn) && !RepliedIn(before, e.conn) && !SettledIn(before, e.conn, e.id)
  {
    InitialIsGood();
    RunKeepsGood(INITIAL, es);
    JustifiedAt(After(INITIAL, es).log, i);
  }

  /** A task that aborts a waiting decision records it as canceled, whatever else comes with it:
      the handler ends, nothing is pending, and there is no publish result. */
  lemma AbortIsRecordedAsCanceled(es: seq<Event>, e: Event)
    requires ValidRun(INITIAL, es) && Enabled(After(INITIAL, es), e)
    requires e.Close? || e.SocketError? || e.Budget?
    requires After(INITIAL, es).conns[e.conn].phase.Deciding?
    ensures var (s, t) := (After(INITIAL, es), Apply(After(INITIAL, es), e));
      && e.conn in t.conns && t.conns[e.conn].phase.Finished? && t.hub.pending.None?
      && t.hub.last.Some? && t.hub.last.value.id == s.conns[e.conn].phase.id
      && t.hub.last.value.decision == Canceled && t.hub.last.value.channel == Tty && t.hub.last.value.publish.None?
  {
    InitialIsGood();
    RunKeepsGood(INITIAL, es);
    var s, c := After(INITIAL, es), e.conn;
    assert ConnGood(s.conns[c], c, s.log);
    hide Good;
    hide Drive;
    hide After;
    match e
    case Budget(_, at) => DriveCancels(BudgetListener(s, c), c, at);
    case Close(_) => DriveCancels(GoneListener(Put(s, c, s.conns[c].(closed := true)), c), c, 0);
    case SocketError(_) => DriveCancels(GoneListener(Put(s, c, s.conns[c].(destroyed := true)), c), c, 0);
  }

  lemma DriveCancels(s: Server, c: ConnId, at: int)
    requires c in s.conns && s.conns[c].phase.Deciding? && Jobs.Waiting(s.conns[c].phase.race)
    ensures var t := Drive(s, c, [Jobs.Abort], NO_REREADS, at);
      && c in t.conns && t.conns[c].phase.Finished?
      && t.hub == State(None, Some(Outcome(s.conns[c].phase.id, Canceled, Tty, at, None)))
  {
    Jobs.TaskOutcome(s.conns[c].phase.race, [Jobs.Abort]);
    hide Jobs.Task;
    hide Jobs.Waiting;
  }

  /** A browser approval can only come from an operation that names the pending id and the
      short sha of the very view whose commit will be pushed. */
  lemma SocketApprovalNamesTheCommit(es: seq<Event>, op: Op)
    requires ValidRun(INITIAL, es) && Vote(Answer(After(INITIAL, es).hub, op)) == Some(true)
    ensures var s := After(INITIAL, es);
      && s.owner in s.conns && s.conns[s.owner].phase.Deciding? && op.Approve?
      && op.id == s.conns[s.owner].phase.id && Trim(op.sha) == s.conns[s.owner].phase.prep.view.shortSha
      && NamesCommit(Trim(op.sha), s.conns[s.owner].phase.prep.view.headSha)
  {
    InitialIsGood();
    RunKeepsGood(INITIAL, es);
  }

  /** Between tasks no approved outcome is left without its publish result. */
  lemma ApprovedIsAlwaysReported(es: seq<Event>)
    requires ValidRun(INITIAL, es)
    ensures var last := After(INITIAL, es).hub.last;
      last.Some? && last.value.decision == Approved ==> last.value.publish.Some?
  {
    InitialIsGood();
    RunKeepsGood(INITIAL, es);
  }

  // ----- what a decision leaves behind -----

  /** What the handler answers to a decision: the last stretch's reply to an approval. */
  function AnswerTo(prep: Prepared, fate: Jobs.Fate, rereads: Rereads): Response {
    if fate.Won? && fate.approved then Conclude(prep, false, rereads).reply
    else if fate.Won? then Fail(DeclinedByHuman)
    else Fail(CanceledRequest)
  }

  /** The decision is on record under its own id and channel, an approval with what came of it. */
  ghost predicate OnRecord(hub: ApprovalHub.State, id: Id, prep: Prepared, fate: Jobs.Fate, rereads: Rereads, at: int) {
    && hub.pending.None? && hub.last.Some?
    && hub.last.value.id == id && hub.last.value.decidedAt == at
    && (fate.Won? && fate.approved ==>
         hub.last.value.decision == Approved && hub.last.value.publish == Some(Conclude(prep, false, rereads).report))
    && (fate.Won? && !fate.approved ==> hub.last.value.decision == Declined && hub.last.value.publish == None)
    && (fate.Won? ==> hub.last.value.channel == fate.channel)
    && (fate.Lost? ==>
         hub.last.value.decision == Canceled && hub.last.value.channel == Tty && hub.last.value.publish == None)
  }

  /** The decision is on record, its client has been answered, and the handler is over. */
  ghost predicate Decided(s: Server, t: Server, c: ConnId, fate: Jobs.Fate, rereads: Rereads, at: int)
    requires c in s.conns && s.conns[c].phase.Deciding?
  {
    var id, prep := s.conns[c].phase.id, s.conns[c].phase.prep;
    && OnRecord(t.hub, id, prep, fate, rereads, at)
    && c in t.conns && t.conns[c].phase.Finished? && !t.busy
    && Settled(c, id, fate) in t.log && Replied(c, AnswerTo(prep, fate, rereads)) in t.log
  }

  lemma SettleDecides(s: Server, c: ConnId, fate: Jobs.Fate, rereads: Rereads, at: int)
    requires c in s.conns && s.conns[c].phase.Deciding? && !s.conns[c].replied && !s.conns[c].aborted
      && fate != Jobs.Open
    ensures Decided(s, Settle(s, c, fate, rereads, at), c, fate, rereads, at)
  {
    hide Conclude;
    var prep := s.conns[c].phase.prep;
    var s1 := Settle1(s, c, fate, at);
    var s2 := if fate.Won? && fate.approved then Settle2(s1, c, prep, rereads) else s1;
    assert Settled(c, s.conns[c].phase.id, fate) in s2.log;
    CompleteReplies(s2, c, AnswerTo(prep, fate, rereads));
    hide Complete;
  }

  lemma CompleteReplies(s: Server, c: ConnId, response: Response)
    requires c in s.conns && !s.conns[c].replied
    ensures var t := Complete(s, c, response);
      && t.hub == s.hub && c in t.conns && t.conns[c].phase.Finished? && !t.busy
      && t.conns[c].dispatched == s.conns[c].dispatched && !t.conns[c].timerArmed
      && Replied(c, response) in t.log && forall e <- s.log :: e in t.log
  {
  }

  lemma DriveDecides(s: Server, c: ConnId, act: Jobs.Act, fate: Jobs.Fate, rereads: Rereads, at: int)
    requires c in s.conns && s.conns[c].phase.Deciding? && !s.conns[c].replied && !s.conns[c].aborted
    requires fate != Jobs.Open && Jobs.Task(s.conns[c].phase.race, [act]).result == fate
    ensures Decided(s, Drive(s, c, [act], rereads, at), c, fate, rereads, at)
  {
    SettleDecides(s, c, fate, rereads, at);
    hide Settle;
    hide Decided;
    hide Jobs.Task;
  }

  lemma OneActDecides(race: Jobs.Run, act: Jobs.Act, fate: Jobs.Fate)
    requires Jobs.Waiting(race)
    requires match act
      case CastSocket(vote) => fate == Jobs.Won(Socket, vote)
      case KickTty(_, typed) => fate == if typed.Typed? then Jobs.Won(Tty, typed.approved) else Jobs.Lost
      case _ => false
    ensures Jobs.Task(race, [act]).result == fate
  {
    assert [act][..0] == [] && act in [act];
    Jobs.TaskOutcome(race, [act]);
    hide Jobs.Task;
  }

  /** Whatever ran before: what the terminal says to a waiting decision is recorded as its verdict,
      and answered to that client. */
  lemma TerminalIsRecorded(es: seq<Event>, e: Event)
    requires ValidRun(INITIAL, es) && Enabled(After(INITIAL, es), e) && e.Terminal?
    ensures After(INITIAL, es).conns[e.conn].phase.Deciding?
    ensures var fate := if e.typed.Typed? then Jobs.Won(Tty, e.typed.approved) else Jobs.Lost;
      Decided(After(INITIAL, es), Apply(After(INITIAL, es), e), e.conn, fate, e.rereads, e.at)
  {
    InitialIsGood();
    RunKeepsGood(INITIAL, es);
    var s := After(INITIAL, es);
    assert ConnGood(s.conns[e.conn], e.conn, s.log);
    var fate := if e.typed.Typed? then Jobs.Won(Tty, e.typed.approved) else Jobs.Lost;
    OneActDecides(s.conns[e.conn].phase.race, Jobs.KickTty(e.hops, e.typed), fate);
    hide Good;
    hide ConnGood;
    hide After;
    hide Jobs.Waiting;
    TerminalDrives(s, e);
    DriveDecides(s, e.conn, Jobs.KickTty(e.hops, e.typed), fate, e.rereads, e.at);
    hide Decided;
    hide Apply;
  }

  /** So is a vote that the socket accepts, for the connection whose request is pending. */
  lemma VoteIsRecorded(es: seq<Event>, e: Event)
    requires ValidRun(INITIAL, es) && e.Submitted? && Vote(Answer(After(INITIAL, es).hub, e.op)).Some?
    ensures var (s, vote) := (After(INITIAL, es), Vote(Answer(After(INITIAL, es).hub, e.op)).value);
      && s.owner in s.conns && s.conns[s.owner].phase.Deciding?
      && Decided(s, Apply(s, e), s.owner, Jobs.Won(Socket, vote), e.rereads, e.at)
  {
    InitialIsGood();
    RunKeepsGood(INITIAL, es);
    var s, vote := After(INITIAL, es), Vote(Answer(After(INITIAL, es).hub, e.op)).value;
    VoteHasOwner(s, e.op);
    var c := s.owner;
    assert ConnGood(s.conns[c], c, s.log);
    OneActDecides(s.conns[c].phase.race, Jobs.CastSocket(vote), Jobs.Won(Socket, vote));
    hide Good;
    hide ConnGood;
    hide After;
    hide Jobs.Waiting;
    VoteDrives(s, e.op, e.rereads, e.at);
    var s1 := s.(hub := Submit(s.hub, e.op));
    DriveDecides(s1, c, Jobs.CastSocket(vote), Jobs.Won(Socket, vote), e.rereads, e.at);
    SameConnSameDecision(s, s1, Drive(s1, c, [Jobs.CastSocket(vote)], e.rereads, e.at), c, vote, e.rereads, e.at);
    hide Decided;
    hide Apply;
  }

  lemma SameConnSameDecision(s: Server, s1: Server, t: Server, c: ConnId, vote: bool, rereads: Rereads, at: int)
    requires c in s.conns && s.conns[c].phase.Deciding? && s1.conns == s.conns
    requires Decided(s1, t, c, Jobs.Won(Socket, vote), rereads, at)
    ensures Decided(s, t, c, Jobs.Won(Socket, vote), rereads, at)
  {
  }

  /** A client that left while the reviewer was asked gets no decision: the request is recorded as
      canceled as soon as it is registered. */
  lemma LateConsultIsCanceled(es: seq<Event>, e: Event)
    requires ValidRun(INITIAL, es) && Enabled(After(INITIAL, es), e) && e.Consulted?
    requires After(INITIAL, es).conns[e.conn].aborted
    ensures var t := Apply(After(INITIAL, es), e);
      && t.hub == State(None, Some(Outcome(e.id, Canceled, Tty, e.at, None)))
      && e.conn in t.conns && t.conns[e.conn].phase.Finished?
  {
    hide After;
    hide ValidRun;
    hide Jobs.Drain;
    hide Jobs.Begin;
    hide Jobs.Waiting;
    Jobs.BegunAborted(e.reaction, None);
  }

  // ----- what a request line is answered -----

  /** A line that passes every check goes on to the reviewer; any other is answered at once. */
  ghost predicate LineTaken(t: Server, c: ConnId, line: Line) {
    && c in t.conns && t.conns[c].dispatched
    && if line.Json? && Prepare(line.req, line.seen).Success?
       then t.conns[c].phase == Consulting(Prepare(line.req, line.seen).value) && !t.conns[c].replied
         && t.conns[c].timerArmed
       else
         && t.conns[c].phase.Finished? && !t.busy && !t.conns[c].timerArmed
         && Replied(c, if line.Malformed? then Fail(InvalidRequest) else Prepare(line.req, line.seen).error) in t.log
  }

  /** Refused before dispatch: answered, closed, and the next connection let in. */
  ghost predicate TurnedAway(t: Server, c: ConnId) {
    c in t.conns && t.conns[c].destroyed && !t.busy && Replied(c, Fail(InvalidRequest)) in t.log
  }

  lemma DispatchAnswers(s: Server, c: ConnId, line: Line)
    requires c in s.conns && !s.conns[c].replied
    ensures LineTaken(Dispatch(s, c, line), c, line)
  {
    hide Prepare;
    hide Complete;
    if line.Malformed? || Prepare(line.req, line.seen).Failure? {
      var r := if line.Malformed? then Fail(InvalidRequest) else Prepare(line.req, line.seen).error;
      CompleteReplies(Log(Put(s, c, s.conns[c].(dispatched := true, timerArmed := true)), Dispatched(c)), c, r);
    }
  }

  lemma RefusalTurnsAway(s: Server, c: ConnId)
    requires c in s.conns && !s.conns[c].replied
    ensures TurnedAway(Refusal(s, c), c)
  {
  }

  lemma StillUnanswered(es: seq<Event>, c: ConnId)
    requires ValidRun(INITIAL, es) && c in After(INITIAL, es).conns
    requires var conn := After(INITIAL, es).conns[c]; !conn.dispatched && conn.served && !conn.destroyed && !conn.closed
    ensures !After(INITIAL, es).conns[c].replied
  {
    InitialIsGood();
    RunKeepsGood(INITIAL, es);
    var s := After(INITIAL, es);
    assert ConnGood(s.conns[c], c, s.log);
    hide Good;
    hide After;
    hide FlagsMatch;
  }

  /** Whatever ran before: how a connection is taken, and what its request line is answered. */
  lemma EveryLineIsAnswered(es: seq<Event>, e: Event)
    requires ValidRun(INITIAL, es) && Enabled(After(INITIAL, es), e)
    ensures var (s, t) := (After(INITIAL, es), Apply(After(INITIAL, es), e));
      match e
      case Accept(c) =>
        if s.busy then Replied(c, Fail(BrokerBusy)) in t.log && c in t.conns && t.conns[c].closed
        else t.busy && t.log == s.log && c in t.conns && Listening(t, c) && t.conns[c].phase.Reading?
      case Data(c, chunk) =>
        s.conns[c].dispatched ||
        (match chunk
         case Partial => t.log == s.log && c in t.conns && t.conns[c].buffered
         case TooLarge => TurnedAway(t, c)
         case Whole(line) => LineTaken(t, c, line))
      case End(c, line) => s.conns[c].dispatched || !s.conns[c].buffered || LineTaken(t, c, line)
      case ReadTimeout(c) => TurnedAway(t, c)
      case _ => true
  {
    var s := After(INITIAL, es);
    hide Prepare;
    hide Dispatch;
    hide Refusal;
    hide LineTaken;
    hide TurnedAway;
    match e
    case Data(c, chunk) =>
      if !s.conns[c].dispatched {
        StillServed(es, c);
        StillUnanswered(es, c);
        hide After;
        if chunk.TooLarge? { RefusalTurnsAway(s, c); }
        if chunk.Whole? { DispatchAnswers(s, c, chunk.line); }
      }
    case End(c, line) =>
      if !s.conns[c].dispatched {
        StillServed(es, c);
        StillUnanswered(es, c);
        hide After;
        DispatchAnswers(Put(s, c, s.conns[c].(ended := true)), c, line);
      }
    case ReadTimeout(c) =>
      StillUnanswered(es, c);
      hide After;
      RefusalTurnsAway(s, c);
    case _ => hide After;
  }

  lemma StillServed(es: seq<Event>, c: ConnId)
    requires ValidRun(INITIAL, es) && Listening(After(INITIAL, es), c)
    ensures var conn := After(INITIAL, es).conns[c]; conn.served && !conn.destroyed && !conn.closed
  {
    hide After;
  }

  /** When the approval budget runs out the client is answered at once, whatever the handler does. */
  lemma BudgetIsAnswered(es: seq<Event>, e: Event)
    requires ValidRun(INITIAL, es) && Enabled(After(INITIAL, es), e) && e.Budget?
    requires !After(INITIAL, es).conns[e.conn].replied
    ensures var t := Apply(After(INITIAL, es), e);
      && Replied(e.conn, Fail(CanceledRequest)) in t.log && FiredIn(t.log, e.conn)
      && e.conn in t.conns && t.conns[e.conn].aborted && !t.conns[e.conn].timerArmed
  {
    InitialIsGood();
    RunKeepsGood(INITIAL, es);
    var s, c := After(INITIAL, es), e.conn;
    assert ConnGood(s.conns[c], c, s.log);
    hide Good;
    hide After;
    hide PhaseMatches;
    hide Drive;
    BudgetReplies(s, c);
    var u := BudgetListener(s, c);
    hide BudgetListener;
    DriveOnlyAdds(u, c, Jobs.Abort, NO_REREADS, e.at);
  }

  lemma BudgetReplies(s: Server, c: ConnId)
    requires c in s.conns && !s.conns[c].replied && (s.conns[c].aborted ==> FiredIn(s.log, c))
    ensures var u := BudgetListener(s, c);
      && c in u.conns && u.conns[c].aborted && !u.conns[c].timerArmed
      && Replied(c, Fail(CanceledRequest)) in u.log && FiredIn(u.log, c)
  {
  }

  /** More is in the log, and the signal and the timer of this connection have not been touched. */
  ghost predicate OnlyAdds(s: Server, t: Server, c: ConnId)
    requires c in s.conns
  {
    && (forall e <- s.log :: e in t.log)
    && c in t.conns && t.conns[c].aborted == s.conns[c].aborted
    && (!s.conns[c].timerArmed ==> !t.conns[c].timerArmed)
  }

  lemma CompleteOnlyAdds(s: Server, c: ConnId, response: Response)
    requires c in s.conns
    ensures OnlyAdds(s, Complete(s, c, response), c)
  {
  }

  lemma SettleOnlyAdds(s: Server, c: ConnId, fate: Jobs.Fate, rereads: Rereads, at: int)
    requires c in s.conns && s.conns[c].phase.Deciding? && fate != Jobs.Open
    ensures OnlyAdds(s, Settle(s, c, fate, rereads, at), c)
  {
    var prep := s.conns[c].phase.prep;
    var s1 := Settle1(s, c, fate, at);
    var s2 := if fate.Won? && fate.approved then Settle2(s1, c, prep, rereads) else s1;
    assert OnlyAdds(s, s2, c);
    var r := if fate.Lost? then Fail(CanceledRequest)
             else if !fate.approved then Fail(DeclinedByHuman) else Conclude(prep, s.conns[c].aborted, rereads).reply;
    CompleteOnlyAdds(s2, c, r);
    hide Complete;
    hide Conclude;
  }

  lemma DriveOnlyAdds(s: Server, c: ConnId, act: Jobs.Act, rereads: Rereads, at: int)
    requires c in s.conns
    ensures OnlyAdds(s, Drive(s, c, [act], rereads, at), c)
  {
    hide Jobs.Task;
    if s.conns[c].phase.Deciding? && Jobs.Task(s.conns[c].phase.race, [act]).result != Jobs.Open {
      SettleOnlyAdds(s, c, Jobs.Task(s.conns[c].phase.race, [act]).result, rereads, at);
    }
    hide Settle;
  }
}
