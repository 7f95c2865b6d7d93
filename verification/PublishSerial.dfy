/** When the socket server runs one handler at a time. */
module PublishSerial {
  import opened JsText
  import opened ApprovalHub
  import opened PublishHandler
  import opened PublishServer
  import Jobs = DecideJobs

  // ----- one handler at a time -----

  predicate InFlight(s: Server, c: ConnId) {
    c in s.conns && (s.conns[c].phase.Consulting? || s.conns[c].phase.Deciding?)
  }

  /** In flight, or still able to dispatch. */
  predicate Live(s: Server, c: ConnId) {
    InFlight(s, c) || (Listening(s, c) && !s.conns[c].dispatched)
  }

  /** The flag covers every live connection, and there is one at most. */
  ghost predicate Serial(s: Server) {
    && (forall c | Live(s, c) :: s.busy)
    && (forall c, d | Live(s, c) && Live(s, d) :: c == d)
  }

  ghost predicate TwoInFlight(s: Server) {
    exists c, d :: c != d && InFlight(s, c) && InFlight(s, d)
  }

  /** A release on behalf of a connection that has nothing to release: it never dispatched
      and cannot any more, and the flag is by now another connection's. */
  ghost predicate StaleRelease(s: Server, e: Event) {
    && (e.Close? || e.SocketError? || e.ReadTimeout?) && e.conn in s.conns && !s.conns[e.conn].dispatched
    && exists d :: d != e.conn && Live(s, d)
  }

  ghost predicate NoStaleRelease(s: Server, es: seq<Event>)
    requires ValidRun(s, es)
    decreases |es|
  {
    es == [] || (!StaleRelease(s, es[0]) && NoStaleRelease(Apply(s, es[0]), es[1..]))
  }

  /** What a task does to the flag and to the liveness of connections. */
  ghost predicate Tame(s: Server, s': Server, c: ConnId) {
    && (forall d | d != c :: Live(s', d) <==> Live(s, d))
    && (Live(s', c) ==> Live(s, c) && s'.busy == s.busy)
    && (s'.busy == s.busy || (!s'.busy && !Live(s', c)))
    && (s'.busy == s.busy || Live(s, c))
  }

  lemma CompleteIsTame(s: Server, t: Server, c: ConnId, r: Response)
    requires Live(s, c) && c in t.conns && t.conns[c].dispatched && t.conns == s.conns[c := t.conns[c]]
    ensures Tame(s, Complete(t, c, r), c)
  {
  }

  lemma DispatchIsTame(s: Server, t: Server, c: ConnId, line: Line)
    requires Live(s, c) && c in t.conns && t.conns == s.conns[c := t.conns[c]] && t.busy == s.busy && t.conns[c].served
    ensures Tame(s, Dispatch(t, c, line), c)
  {
    hide Prepare;
    hide Complete;
    var t1 := Log(Put(t, c, t.conns[c].(dispatched := true, timerArmed := true)), Dispatched(c));
    if line.Malformed? {
      CompleteIsTame(s, t1, c, Fail(InvalidRequest));
    } else if Prepare(line.req, line.seen).Failure? {
      CompleteIsTame(s, t1, c, Prepare(line.req, line.seen).error);
    }
  }

  lemma SettleIsTame(s: Server, t: Server, c: ConnId, fate: Jobs.Fate, rereads: Rereads, at: int)
    requires Live(s, c) && c in t.conns && t.conns[c].dispatched && t.conns == s.conns[c := t.conns[c]]
    requires t.conns[c].phase.Deciding? && fate != Jobs.Open
    ensures Tame(s, PublishServer.Settle(t, c, fate, rereads, at), c)
  {
    hide Conclude;
    hide Complete;
    hide Tame;
    var t1 := Settle1(t, c, fate, at);
    if fate.Lost? {
      CompleteIsTame(s, t1, c, Fail(CanceledRequest));
    } else if !fate.approved {
      CompleteIsTame(s, t1, c, Fail(DeclinedByHuman));
    } else {
      var prep := t.conns[c].phase.prep;
      CompleteIsTame(s, Settle2(t1, c, prep, rereads), c, Conclude(prep, t.conns[c].aborted, rereads).reply);
    }
  }

  lemma DriveIsTame(s: Server, t: Server, c: ConnId, acts: seq<Jobs.Act>, rereads: Rereads, at: int)
    requires c in t.conns && t.conns == s.conns[c := t.conns[c]] && t.busy == s.busy
    requires c in s.conns && t.conns[c].phase == s.conns[c].phase
      && (t.conns[c].phase.Deciding? ==> t.conns[c].dispatched)
    requires Live(t, c) ==> Live(s, c)
    ensures Tame(s, Drive(t, c, acts, rereads, at), c)
  {
    hide PublishServer.Settle;
    hide Jobs.Task;
    if t.conns[c].phase.Deciding? {
      var race := Jobs.Task(t.conns[c].phase.race, acts);
      if race.result != Jobs.Open {
        SettleIsTame(s, t, c, race.result, rereads, at);
      }
    }
  }

  /** Liveness of a connection is read off its own record. */
  lemma RecordOnly(s: Server, s': Server, c: ConnId)
    requires c in s'.conns && s'.conns == s.conns[c := s'.conns[c]]
    ensures forall d | d != c :: Live(s', d) <==> Live(s, d)
  {
  }

  lemma RefusalEndsIt(s: Server, c: ConnId)
    requires c in s.conns && s.conns[c].phase.Reading?
    ensures var s' := Refusal(s, c);
      !s'.busy && !Live(s', c) && forall d | d != c :: Live(s', d) <==> Live(s, d)
  {
    RefusalRecord(s, c);
    hide Refusal;
    RecordOnly(s, Refusal(s, c), c);
  }

  lemma RefusalRecord(s: Server, c: ConnId)
    requires c in s.conns
    ensures var s' := Refusal(s, c);
      !s'.busy && s'.conns == s.conns[c := s.conns[c].(replied := true, timerArmed := false, destroyed := true)]
  {
    var s1 := PublishServer.Reply(s, c, Fail(InvalidRequest));
    assert s1.conns == s.conns[c := s.conns[c].(replied := true)] by {
      if s.conns[c].replied { assert s.conns[c].(replied := true) == s.conns[c]; }
    }
  }

  lemma GoneIsTame(s: Server, t: Server, c: ConnId)
    requires c in s.conns && c in t.conns && t == Put(s, c, t.conns[c]) && (t.conns[c].destroyed || t.conns[c].closed)
    requires t.conns[c] == s.conns[c].(destroyed := t.conns[c].destroyed, closed := t.conns[c].closed)
    requires InFlight(s, c) ==> s.conns[c].dispatched
    ensures var s' := Gone(t, c);
      if s.conns[c].dispatched then Tame(s, s', c)
      else !s'.busy && !Live(s', c) && forall d | d != c :: Live(s', d) <==> Live(s, d)
  {
    hide Drive;
    ListenerRecord(s, t, c);
    hide GoneListener;
    if s.conns[c].dispatched {
      DriveIsTame(s, GoneListener(t, c), c, [Jobs.Abort], NO_REREADS, 0);
    } else {
      DriveNothing(GoneListener(t, c), c, [Jobs.Abort], NO_REREADS, 0);
      RecordOnly(s, GoneListener(t, c), c);
    }
  }

  /** What the listener leaves of a connection that is gone. */
  lemma ListenerRecord(s: Server, t: Server, c: ConnId)
    requires c in s.conns && c in t.conns && t == Put(s, c, t.conns[c])
    ensures var u := GoneListener(t, c);
      && c in u.conns && u.conns == s.conns[c := u.conns[c]]
      && u.conns[c].phase == t.conns[c].phase && u.conns[c].dispatched == t.conns[c].dispatched
      && u.conns[c].destroyed == t.conns[c].destroyed && u.conns[c].closed == t.conns[c].closed
      && (t.conns[c].dispatched ==> u.busy == s.busy) && (!t.conns[c].dispatched ==> !u.busy)
  {
  }

  lemma DriveNothing(s: Server, c: ConnId, acts: seq<Jobs.Act>, rereads: Rereads, at: int)
    requires c in s.conns && !s.conns[c].phase.Deciding?
    ensures Drive(s, c, acts, rereads, at) == s
  {
  }

  lemma BudgetIsTame(s: Server, c: ConnId, at: int)
    requires c in s.conns && s.conns[c].timerArmed && (InFlight(s, c) ==> s.conns[c].dispatched)
    ensures Tame(s, Apply(s, Budget(c, at)), c)
  {
    hide Drive;
    DriveIsTame(s, BudgetListener(s, c), c, [Jobs.Abort], NO_REREADS, at);
  }

  lemma ConsultedIsTame(s: Server, c: ConnId, verdict: Option<string>, id: Id, reaction: Jobs.Reaction, at: int)
    requires Enabled(s, Consulted(c, verdict, id, reaction, at)) && s.conns[c].dispatched
    ensures Tame(s, Apply(s, Consulted(c, verdict, id, reaction, at)), c)
  {
    hide PublishServer.Settle;
    hide Jobs.Drain;
    hide Jobs.Begin;
    var race := Jobs.Drain(Jobs.Begin(s.conns[c].aborted, reaction, None));
    if race.result != Jobs.Open {
      SettleIsTame(s, Await(s, c, verdict, id, race, at), c, race.result, NO_REREADS, at);
    }
  }

  lemma DataIsTame(s: Server, c: ConnId, chunk: Chunk)
    requires Listening(s, c) && (s.conns[c].dispatched || s.conns[c].phase.Reading?)
    ensures Tame(s, Apply(s, Data(c, chunk)), c)
  {
    hide Dispatch;
    hide Refusal;
    if !s.conns[c].dispatched && chunk.Whole? {
      var conn := s.conns[c];
      assert s.conns == s.conns[c := conn];
      DispatchIsTame(s, s, c, chunk.line);
    } else if !s.conns[c].dispatched && chunk.TooLarge? {
      RefusalEndsIt(s, c);
    }
  }

  lemma EndIsTame(s: Server, c: ConnId, line: Line)
    requires Listening(s, c) && (s.conns[c].dispatched || s.conns[c].phase.Reading?)
    ensures Tame(s, Apply(s, End(c, line)), c)
  {
    hide Dispatch;
    if !s.conns[c].dispatched && s.conns[c].buffered {
      DispatchIsTame(s, Put(s, c, s.conns[c].(ended := true)), c, line);
    }
  }

  lemma TameKeepsSerial(s: Server, s': Server, c: ConnId)
    requires Serial(s) && Tame(s, s', c)
    ensures Serial(s')
  {
    hide Live;
  }

  lemma NobodyElseLeft(s: Server, s': Server, c: ConnId)
    requires !Live(s', c) && (forall d | d != c :: Live(s', d) <==> Live(s, d)) && !exists d :: d != c && Live(s, d)
    ensures Serial(s')
  {
    hide Live;
  }

  ghost predicate ShapedAt(s: Server, c: ConnId) {
    c in s.conns && (InFlight(s, c) ==> s.conns[c].dispatched)
    && (s.conns[c].served && !s.conns[c].dispatched ==> s.conns[c].phase.Reading?)
  }

  lemma GoodIsShaped(s: Server, c: ConnId)
    requires Good(s) && c in s.conns
    ensures ShapedAt(s, c) && (s.hub.pending.Some? ==> s.owner in s.conns)
  {
    assert ConnGood(s.conns[c], c, s.log);
  }

  lemma AcceptKeepsSerial(s: Server, c: ConnId)
    requires Serial(s) && c !in s.conns
    ensures Serial(Apply(s, Accept(c)))
  {
    var s' := Apply(s, Accept(c));
    assert forall d | d != c :: Live(s', d) == Live(s, d);
    assert Live(s', c) ==> !s.busy && s'.busy;
  }

  lemma GoneKeepsSerial(s: Server, t: Server, c: ConnId)
    requires Serial(s) && ShapedAt(s, c)
    requires c in t.conns && t == Put(s, c, t.conns[c]) && (t.conns[c].destroyed || t.conns[c].closed)
    requires t.conns[c] == s.conns[c].(destroyed := t.conns[c].destroyed, closed := t.conns[c].closed)
    requires !s.conns[c].dispatched ==> !exists d :: d != c && Live(s, d)
    ensures Serial(Gone(t, c))
  {
    hide Gone;
    hide Live;
    GoneIsTame(s, t, c);
    if s.conns[c].dispatched { TameKeepsSerial(s, Gone(t, c), c); } else { NobodyElseLeft(s, Gone(t, c), c); }
  }

  lemma VoteIsTame(s: Server, op: Op, rereads: Rereads, at: int)
    requires s.owner in s.conns && ShapedAt(s, s.owner)
    ensures Tame(s, Apply(s, Submitted(op, rereads, at)), s.owner)
  {
    hide Drive;
    var c, conn := s.owner, s.conns[s.owner];
    assert s.conns == s.conns[c := conn];
    var vote := Vote(Answer(s.hub, op));
    if vote.Some? {
      DriveIsTame(s, s.(hub := Submit(s.hub, op)), c, [Jobs.CastSocket(vote.value)], rereads, at);
    }
  }

  lemma TerminalIsTame(s: Server, c: ConnId, hops: nat, typed: Jobs.TtyResult, rereads: Rereads, at: int)
    requires ShapedAt(s, c) && s.conns[c].phase.Deciding?
    ensures Tame(s, Apply(s, Terminal(c, hops, typed, rereads, at)), c)
  {
    hide Drive;
    var conn := s.conns[c];
    assert s.conns == s.conns[c := conn];
    DriveIsTame(s, s, c, [Jobs.KickTty(hops, typed)], rereads, at);
  }

  lemma TaskKeepsSerial(s: Server, e: Event)
    requires Good(s) && Serial(s) && Enabled(s, e) && !StaleRelease(s, e)
    ensures Serial(Apply(s, e))
  {
    if e.Accept? {
      AcceptKeepsSerial(s, e.conn);
    } else if e.Submitted? {
      if s.owner in s.conns {
        GoodIsShaped(s, s.owner);
        VoteIsTame(s, e.op, e.rereads, e.at);
        TameKeepsSerial(s, Apply(s, e), s.owner);
      } else {
        assert s.hub.pending.None?;
      }
    } else {
      GoodIsShaped(s, e.conn);
      ConnKeepsSerial(s, e);
    }
  }

  lemma ConnKeepsSerial(s: Server, e: Event)
    requires !e.Submitted? && !e.Accept? && ShapedAt(s, e.conn) && Serial(s) && Enabled(s, e) && !StaleRelease(s, e)
    ensures Serial(Apply(s, e))
  {
    hide Gone;
    hide Refusal;
    hide Serial;
    var c := e.conn;
    match e
    case Data(_, chunk) =>
      DataIsTame(s, c, chunk);
      TameKeepsSerial(s, Apply(s, e), c);
    case End(_, line) =>
      EndIsTame(s, c, line);
      TameKeepsSerial(s, Apply(s, e), c);
    case ReadTimeout(_) =>
      RefusalEndsIt(s, c);
      NobodyElseLeft(s, Apply(s, e), c);
    case SocketError(_) => GoneKeepsSerial(s, Put(s, c, s.conns[c].(destroyed := true)), c);
    case Close(_) => GoneKeepsSerial(s, Put(s, c, s.conns[c].(closed := true)), c);
    case Budget(_, at) =>
      BudgetIsTame(s, c, at);
      TameKeepsSerial(s, Apply(s, e), c);
    case Consulted(_, verdict, id, reaction, at) =>
      ConsultedIsTame(s, c, verdict, id, reaction, at);
      TameKeepsSerial(s, Apply(s, e), c);
    case Terminal(_, hops, typed, rereads, at) =>
      TerminalIsTame(s, c, hops, typed, rereads, at);
      TameKeepsSerial(s, Apply(s, e), c);
  }

  /** Without stale releases at most one handler is in flight, at every point of the run. */
  lemma {:induction false} NoStaleReleaseKeepsSerial(s: Server, es: seq<Event>)
    requires Good(s) && Serial(s) && ValidRun(s, es) && NoStaleRelease(s, es)
    ensures Good(After(s, es)) && Serial(After(s, es)) && !TwoInFlight(After(s, es))
    decreases |es|
  {
    if es != [] {
      StepKeepsGood(s, es[0]);
      TaskKeepsSerial(s, es[0]);
      NoStaleReleaseKeepsSerial(Apply(s, es[0]), es[1..]);
    } else {
      forall c, d | InFlight(s, c) && InFlight(s, d) ensures c == d {
        assert Live(s, c) && Live(s, d);
      }
    }
  }

  // ----- the condition is exact -----

  const GOOD_REQUEST := Request("app", "f", "title", "", None)

  const GOOD_REMOTE := Remotes.Remote("h", "o", "r")

  /** Readings under which a request is put to the human. */
  function GoodReads(origin: string): Reads {
    Reads(Some(Policy(["h"], [], "f")), true, true, true, true, Some("f"), Some(false),
          Some(origin), Some("c"), true, true, Rendered(1, "d", ""), None)
  }

  lemma GoodOrigin() returns (origin: string)
    ensures ResolveTarget(Some(origin), Policy(["h"], [], "f")) == Success((GOOD_REMOTE, origin))
  {
    assert Remotes.IsHost("h") && Remotes.IsName("o") && Remotes.IsName("r");
    origin := Remotes.CanonicalHttpsUrl(GOOD_REMOTE).value;
    Remotes.ParseUndoesCanonical(GOOD_REMOTE);
    hide Remotes.ParseRemote;
  }

  lemma GoodRequestIsPrepared() returns (line: Line)
    ensures line.Json? && Prepare(line.req, line.seen).Success?
  {
    var origin := GoodOrigin();
    hide ResolveTarget;
    line := Json(Some(GOOD_REQUEST), GoodReads(origin));
  }

  lemma {:induction false} FreshConn(used: set<ConnId>) returns (c: ConnId)
    ensures c !in used && forall d <- used :: d < c
    decreases used
  {
    if used == {} {
      c := 0;
    } else {
      var d :| d in used;
      var e := FreshConn(used - {d});
      assert forall x <- used :: x == d || x in used - {d};
      c := if d < e then e else d + 1;
    }
  }

  /** With the flag clear a fresh connection gets a handler, beside whatever is there. */
  lemma FreshHandler(s: Server) returns (es: seq<Event>, c: ConnId)
    requires !s.busy
    ensures ValidRun(s, es) && NoStaleRelease(s, es) && c !in s.conns
    ensures InFlight(After(s, es), c)
    ensures forall d | d in s.conns :: d in After(s, es).conns && After(s, es).conns[d] == s.conns[d]
  {
    c := FreshConn(s.conns.Keys);
    var line := GoodRequestIsPrepared();
    var e, f := Event.Accept(c), Event.Data(c, Whole(line));
    hide Prepare;
    var s1 := Apply(s, e);
    assert Enabled(s1, f);
    es := [e, f];
    TwoEvents(s, e, f);
  }

  lemma TwoEvents(s: Server, e: Event, f: Event)
    requires Enabled(s, e) && Enabled(Apply(s, e), f) && (e.Accept? || e.Data?) && (f.Accept? || f.Data?)
    ensures ValidRun(s, [e, f]) && NoStaleRelease(s, [e, f]) && After(s, [e, f]) == Apply(Apply(s, e), f)
  {
    OneEvent(Apply(s, e), f);
    ConsEvent(s, e, [f]);
    assert [e] + [f] == [e, f];
  }

  lemma OneEvent(s: Server, e: Event)
    requires Enabled(s, e) && (e.Accept? || e.Data?)
    ensures ValidRun(s, [e]) && NoStaleRelease(s, [e]) && After(s, [e]) == Apply(s, e)
  {
    hide Enabled;
    hide Live;
    assert [e][1..] == [];
  }

  lemma ConsEvent(s: Server, e: Event, es: seq<Event>)
    requires Enabled(s, e) && ValidRun(Apply(s, e), es)
    ensures ValidRun(s, [e] + es) && After(s, [e] + es) == After(Apply(s, e), es)
    ensures NoStaleRelease(s, [e] + es) <==> !StaleRelease(s, e) && NoStaleRelease(Apply(s, e), es)
  {
    hide Enabled;
    hide StaleRelease;
    assert ([e] + es)[1..] == es;
  }

  lemma {:induction false} RunSnoc(s: Server, es: seq<Event>, e: Event)
    requires ValidRun(s, es) && NoStaleRelease(s, es) && Enabled(After(s, es), e) && (e.Accept? || e.Data?)
    ensures ValidRun(s, es + [e]) && NoStaleRelease(s, es + [e]) && After(s, es + [e]) == Apply(After(s, es), e)
    decreases |es|
  {
    hide Enabled;
    hide StaleRelease;
    if es == [] {
      OneEvent(s, e);
      assert es + [e] == [e];
    } else {
      RunSnoc(Apply(s, es[0]), es[1..], e);
      ConsEvent(s, es[0], es[1..] + [e]);
      assert [es[0]] + (es[1..] + [e]) == es + [e];
    }
  }

  /** A live connection next to a clear flag leads to two handlers. */
  lemma LiveBesideClearFlag(s: Server, d: ConnId) returns (es: seq<Event>)
    requires !s.busy && Live(s, d)
    ensures ValidRun(s, es) && NoStaleRelease(s, es) && TwoInFlight(After(s, es))
  {
    var c;
    es, c := FreshHandler(s);
    var s1 := After(s, es);
    if !InFlight(s, d) {
      var line := GoodRequestIsPrepared();
      var e := Event.Data(d, Whole(line));
      RunSnoc(s, es, e);
      es := es + [e];
      OtherHandlerStays(s1, c, d, line);
    }
    assert c != d && InFlight(After(s, es), c) && InFlight(After(s, es), d);
  }

  lemma OtherHandlerStays(s: Server, c: ConnId, d: ConnId, line: Line)
    requires InFlight(s, c) && c != d && Listening(s, d) && !s.conns[d].dispatched
    requires line.Json? && Prepare(line.req, line.seen).Success?
    ensures InFlight(Apply(s, Data(d, Whole(line))), c) && InFlight(Apply(s, Data(d, Whole(line))), d)
  {
    hide Prepare;
  }

  lemma StaleReleaseClears(s: Server, e: Event)
    requires Good(s) && Enabled(s, e) && StaleRelease(s, e)
    ensures !Apply(s, e).busy && exists d :: Live(Apply(s, e), d)
  {
    hide Refusal;
    hide Gone;
    hide Good;
    var c := e.conn;
    GoodIsShaped(s, c);
    var d :| d != c && Live(s, d);
    match e
    case ReadTimeout(_) => RefusalEndsIt(s, c);
    case SocketError(_) => GoneIsTame(s, Put(s, c, s.conns[c].(destroyed := true)), c);
    case Close(_) => GoneIsTame(s, Put(s, c, s.conns[c].(closed := true)), c);
    assert Live(Apply(s, e), d);
  }

  ghost predicate CanDouble(s: Server) {
    exists es :: ValidRun(s, es) && NoStaleRelease(s, es) && TwoInFlight(After(s, es))
  }

  lemma StaleReleaseCanDouble(s: Server, e: Event)
    requires Good(s) && Enabled(s, e) && StaleRelease(s, e)
    ensures CanDouble(Apply(s, e))
  {
    StaleReleaseClears(s, e);
    hide Apply;
    hide Good;
    hide Live;
    var s' := Apply(s, e);
    var d :| Live(s', d);
    var es := LiveBesideClearFlag(s', d);
    assert ValidRun(s', es) && NoStaleRelease(s', es) && TwoInFlight(After(s', es));
  }

  lemma SerialCannotDouble(s: Server)
    requires Good(s) && Serial(s)
    ensures !CanDouble(s)
  {
    hide Good;
    hide Serial;
    forall es | ValidRun(s, es) && NoStaleRelease(s, es) ensures !TwoInFlight(After(s, es)) {
      NoStaleReleaseKeepsSerial(s, es);
    }
  }

  /** One task decides it: two handlers can follow without any further stale release exactly
      when this task is one. */
  lemma StaleReleaseIsExactlyTheDanger(s: Server, e: Event)
    requires Good(s) && Serial(s) && Enabled(s, e)
    ensures StaleRelease(s, e) <==> CanDouble(Apply(s, e))
  {
    if StaleRelease(s, e) {
      StaleReleaseCanDouble(s, e);
    } else {
      StepKeepsGood(s, e);
      TaskKeepsSerial(s, e);
      SerialCannotDouble(Apply(s, e));
    }
    hide Apply;
    hide Good;
    hide Serial;
    hide CanDouble;
    hide StaleRelease;
  }

  /** From every state of the run, futures without stale releases have one handler at most. */
  ghost predicate ReliablySerial(s: Server, es: seq<Event>)
    requires ValidRun(s, es)
    decreases |es|
  {
    !CanDouble(s) && (es == [] || ReliablySerial(Apply(s, es[0]), es[1..]))
  }

  lemma {:induction false} SerialIffNoStaleRelease(s: Server, es: seq<Event>)
    requires Good(s) && Serial(s) && ValidRun(s, es)
    ensures ReliablySerial(s, es) <==> NoStaleRelease(s, es)
    decreases |es|
  {
    hide Apply;
    hide Good;
    hide Serial;
    hide CanDouble;
    hide StaleRelease;
    SerialCannotDouble(s);
    if es != [] {
      var s' := Apply(s, es[0]);
      StaleReleaseIsExactlyTheDanger(s, es[0]);
      if !StaleRelease(s, es[0]) {
        StepKeepsGood(s, es[0]);
        TaskKeepsSerial(s, es[0]);
        SerialIffNoStaleRelease(s', es[1..]);
      }
    }
  }
}
