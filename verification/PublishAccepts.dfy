/** When accepts may fall so that one handler runs at a time, and a run where two do. */
module PublishAccepts {
  import opened JsText
  import opened ApprovalHub
  import opened PublishHandler
  import opened PublishServer
  import opened PublishSerial
  import Jobs = DecideJobs

  /** Served, never dispatched, and its socket not yet closed. */
  predicate Unclosed(s: Server, c: ConnId) {
    c in s.conns && s.conns[c].served && !s.conns[c].dispatched && !s.conns[c].closed
  }

  /** Refused before dispatch, or broken: the flag is released, but the close event, which
      releases it again, is still to come. */
  predicate Lingering(s: Server, c: ConnId) {
    Unclosed(s, c) && s.conns[c].destroyed
  }

  /** In flight, or still to release the flag. */
  predicate Holding(s: Server, c: ConnId) {
    InFlight(s, c) || Unclosed(s, c)
  }

  ghost predicate Guarded(s: Server) {
    && (forall c | Holding(s, c) :: s.busy || Lingering(s, c))
    && (forall c, d | Holding(s, c) && Holding(s, d) :: c == d)
  }

  /** No connection is let in while another one lingers. */
  ghost predicate CarefulAccepts(s: Server, es: seq<Event>)
    requires ValidRun(s, es)
    decreases |es|
  {
    es == [] ||
    ((es[0].Accept? && !s.busy ==> forall d :: !Lingering(s, d)) && CarefulAccepts(Apply(s, es[0]), es[1..]))
  }

  lemma GuardedHasNoStaleRelease(s: Server, e: Event)
    requires Guarded(s) && Enabled(s, e)
    ensures !StaleRelease(s, e)
  {
    if StaleRelease(s, e) {
      var d :| d != e.conn && Live(s, d);
      assert Holding(s, d) && Holding(s, e.conn);
    }
  }

  // ----- what a task leaves alone -----

  predicate SameSocket(x: Conn, y: Conn) {
    x.served == y.served && x.dispatched == y.dispatched && x.ended == y.ended
    && x.destroyed == y.destroyed && x.closed == y.closed
  }

  /** The task only moved this connection's handler on. */
  ghost predicate Moved(s: Server, s': Server, c: ConnId) {
    c in s.conns && c in s'.conns && s'.conns == s.conns[c := s'.conns[c]] && SameSocket(s.conns[c], s'.conns[c])
  }

  lemma CompleteMoves(s: Server, c: ConnId, r: Response)
    requires c in s.conns
    ensures Moved(s, Complete(s, c, r), c)
  {
  }

  lemma SettleMoves(s: Server, c: ConnId, fate: Jobs.Fate, rereads: Rereads, at: int)
    requires c in s.conns && s.conns[c].phase.Deciding? && fate != Jobs.Open
    ensures Moved(s, PublishServer.Settle(s, c, fate, rereads, at), c)
  {
    hide Complete;
    hide Conclude;
    var t := Settle1(s, c, fate, at);
    if fate.Lost? {
      CompleteMoves(t, c, Fail(CanceledRequest));
    } else if !fate.approved {
      CompleteMoves(t, c, Fail(DeclinedByHuman));
    } else {
      var prep := s.conns[c].phase.prep;
      CompleteMoves(Settle2(t, c, prep, rereads), c, Conclude(prep, s.conns[c].aborted, rereads).reply);
    }
  }

  lemma DriveMoves(s: Server, c: ConnId, acts: seq<Jobs.Act>, rereads: Rereads, at: int)
    requires c in s.conns
    ensures Moved(s, Drive(s, c, acts, rereads, at), c)
  {
    hide PublishServer.Settle;
    hide Jobs.Task;
    if s.conns[c].phase.Deciding? {
      var race := Jobs.Task(s.conns[c].phase.race, acts);
      if race.result != Jobs.Open {
        SettleMoves(s, c, race.result, rereads, at);
      }
    } else {
      assert s.conns == s.conns[c := s.conns[c]];
    }
  }

  lemma GoneMoves(s: Server, c: ConnId)
    requires c in s.conns
    ensures Moved(s, Gone(s, c), c)
  {
    hide Drive;
    var t := GoneListener(s, c);
    var conn := t.conns[c];
    assert t.conns == s.conns[c := conn];
    DriveMoves(t, c, [Jobs.Abort], NO_REREADS, 0);
  }

  lemma BudgetMoves(s: Server, c: ConnId, at: int)
    requires c in s.conns
    ensures Moved(s, Drive(BudgetListener(s, c), c, [Jobs.Abort], NO_REREADS, at), c)
  {
    hide Drive;
    var t := BudgetListener(s, c);
    var conn := t.conns[c];
    assert t.conns == s.conns[c := conn];
    DriveMoves(t, c, [Jobs.Abort], NO_REREADS, at);
  }

  lemma ConsultedMoves(s: Server, c: ConnId, verdict: Option<string>, id: Id, reaction: Jobs.Reaction, at: int)
    requires Enabled(s, Consulted(c, verdict, id, reaction, at))
    ensures Moved(s, Apply(s, Consulted(c, verdict, id, reaction, at)), c)
  {
    hide PublishServer.Settle;
    hide Jobs.Drain;
    hide Jobs.Begin;
    var race := Jobs.Drain(Jobs.Begin(s.conns[c].aborted, reaction, None));
    if race.result != Jobs.Open {
      SettleMoves(Await(s, c, verdict, id, race, at), c, race.result, NO_REREADS, at);
    }
  }

  /** After a dispatch the connection counts as dispatched. */
  lemma DispatchMoves(s: Server, c: ConnId, line: Line)
    requires c in s.conns
    ensures var t := Dispatch(s, c, line);
      c in t.conns && t.conns == s.conns[c := t.conns[c]] && t.conns[c].dispatched
  {
    hide Prepare;
    hide Complete;
    var t := Log(Put(s, c, s.conns[c].(dispatched := true, timerArmed := true)), Dispatched(c));
    if line.Malformed? {
      CompleteMoves(t, c, Fail(InvalidRequest));
    } else if Prepare(line.req, line.seen).Failure? {
      CompleteMoves(t, c, Prepare(line.req, line.seen).error);
    }
  }

  // ----- every task keeps the guard -----

  /** A task on one connection: it ends or keeps that connection's hold, and clears the flag
      only for a connection that holds it, which then lingers or is done. */
  ghost predicate Orderly(s: Server, s': Server, c: ConnId) {
    && (forall d | d != c :: (Holding(s', d) <==> Holding(s, d)) && (Lingering(s', d) <==> Lingering(s, d)))
    && (Holding(s', c) ==> Holding(s, c) && (Lingering(s, c) ==> Lingering(s', c)))
    && (s'.busy == s.busy || (!s'.busy && Holding(s, c) && (Holding(s', c) ==> Lingering(s', c))))
  }

  lemma OrderlyKeepsGuard(s: Server, s': Server, c: ConnId)
    requires Guarded(s) && Orderly(s, s', c)
    ensures Guarded(s')
  {
    hide Holding;
    hide Lingering;
  }

  lemma OthersKeepHold(s: Server, s': Server, c: ConnId)
    requires c in s'.conns && s'.conns == s.conns[c := s'.conns[c]]
    ensures forall d | d != c :: (Holding(s', d) <==> Holding(s, d)) && (Lingering(s', d) <==> Lingering(s, d))
  {
  }

  /** A task that is tame and moves one connection's handler. */
  lemma TameIsOrderly(s: Server, s': Server, c: ConnId)
    requires Moved(s, s', c) && Tame(s, s', c) && ShapedAt(s, c) && ShapedAt(s', c)
    ensures Orderly(s, s', c)
  {
    OthersKeepHold(s, s', c);
    assert Live(s, c) ==> Holding(s, c);
    assert InFlight(s', c) ==> Live(s', c);
    assert Unclosed(s', c) <==> Unclosed(s, c);
    assert Lingering(s', c) <==> Lingering(s, c);
    assert Live(s, c) && Unclosed(s, c) ==> Live(s', c);
  }

  lemma DispatchIsOrderly(s: Server, t: Server, c: ConnId, line: Line)
    requires Listening(s, c) && !s.conns[c].dispatched
    requires c in t.conns && t.conns == s.conns[c := t.conns[c]] && t.busy == s.busy && t.conns[c].served
    ensures Orderly(s, Dispatch(t, c, line), c)
  {
    DispatchMoves(t, c, line);
    DispatchIsTame(s, t, c, line);
    hide Dispatch;
    var s' := Dispatch(t, c, line);
    assert s'.conns == s.conns[c := s'.conns[c]];
    OthersKeepHold(s, s', c);
    assert Holding(s', c) ==> InFlight(s', c);
  }

  /** A refusal leaves the connection lingering. */
  lemma RefusalIsOrderly(s: Server, c: ConnId)
    requires ShapedAt(s, c) && Unclosed(s, c)
    ensures Orderly(s, Refusal(s, c), c)
  {
    var s' := Refusal(s, c);
    var conn := s.conns[c];
    assert s'.conns[c] == conn.(replied := true, timerArmed := false, destroyed := true);
    assert s'.conns == s.conns[c := s'.conns[c]];
    OthersKeepHold(s, s', c);
  }

  /** `onGone` for a connection that never dispatched: after an error it lingers, after the close
      event it is done. */
  lemma GoneIsOrderly(s: Server, t: Server, c: ConnId)
    requires ShapedAt(s, c) && s.conns[c].served && !s.conns[c].closed
    requires c in t.conns && t == Put(s, c, t.conns[c]) && (t.conns[c].destroyed || t.conns[c].closed)
    requires t.conns[c] == s.conns[c].(destroyed := t.conns[c].destroyed, closed := t.conns[c].closed)
    requires s.conns[c].destroyed ==> t.conns[c].destroyed
    ensures Orderly(s, Gone(t, c), c)
  {
    hide Gone;
    var s' := Gone(t, c);
    GoneMoves(t, c);
    GoneIsTame(s, t, c);
    assert s'.conns == s.conns[c := s'.conns[c]];
    OthersKeepHold(s, s', c);
    if s.conns[c].dispatched {
      assert Holding(s', c) ==> InFlight(s', c);
      assert Live(s, c) ==> InFlight(s, c);
    } else {
      assert s.conns[c].phase.Reading? && Unclosed(s, c);
      assert InFlight(s', c) ==> Live(s', c);
    }
  }

  lemma DataIsOrderly(s: Server, c: ConnId, chunk: Chunk)
    requires Listening(s, c) && ShapedAt(s, c)
    ensures Orderly(s, Apply(s, Data(c, chunk)), c)
  {
    hide Dispatch;
    hide Refusal;
    hide Orderly;
    var conn := s.conns[c];
    if conn.dispatched {
      SameIsOrderly(s, s, c);
    } else {
      match chunk
      case Partial => SameIsOrderly(s, Put(s, c, conn.(buffered := true)), c);
      case TooLarge => RefusalIsOrderly(s, c);
      case Whole(line) =>
        assert s.conns == s.conns[c := conn];
        DispatchIsOrderly(s, s, c, line);
    }
  }

  lemma EndIsOrderly(s: Server, c: ConnId, line: Line)
    requires Listening(s, c) && ShapedAt(s, c)
    ensures Orderly(s, Apply(s, End(c, line)), c)
  {
    hide Dispatch;
    hide Orderly;
    var t := Put(s, c, s.conns[c].(ended := true));
    if !s.conns[c].dispatched && s.conns[c].buffered {
      DispatchIsOrderly(s, t, c, line);
    } else {
      SameIsOrderly(s, t, c);
    }
  }

  /** Neither the flag nor the phase nor the socket's state changed. */
  lemma SameIsOrderly(s: Server, s': Server, c: ConnId)
    requires c in s.conns && c in s'.conns && s'.conns == s.conns[c := s'.conns[c]] && s'.busy == s.busy
    requires s'.conns[c].phase == s.conns[c].phase && s'.conns[c].served == s.conns[c].served
    requires s'.conns[c].dispatched == s.conns[c].dispatched
    requires s'.conns[c].destroyed == s.conns[c].destroyed && s'.conns[c].closed == s.conns[c].closed
    ensures Orderly(s, s', c)
  {
    OthersKeepHold(s, s', c);
  }

  lemma ConnIsOrderly(s: Server, e: Event)
    requires Enabled(s, e) && Good(s) && Good(Apply(s, e)) && !e.Accept? && !e.Submitted?
    ensures Orderly(s, Apply(s, e), e.conn)
  {
    hide Good;
    hide Gone;
    hide Refusal;
    hide Orderly;
    hide Drive;
    var c := e.conn;
    GoodIsShaped(s, c);
    match e
    case Data(_, chunk) => DataIsOrderly(s, c, chunk);
    case End(_, line) => EndIsOrderly(s, c, line);
    case ReadTimeout(_) => RefusalIsOrderly(s, c);
    case SocketError(_) => GoneIsOrderly(s, Put(s, c, s.conns[c].(destroyed := true)), c);
    case Close(_) => GoneIsOrderly(s, Put(s, c, s.conns[c].(closed := true)), c);
    case Budget(_, at) =>
      BudgetMoves(s, c, at);
      BudgetIsTame(s, c, at);
      GoodIsShaped(Apply(s, e), c);
      TameIsOrderly(s, Apply(s, e), c);
    case Consulted(_, verdict, id, reaction, at) =>
      ConsultedMoves(s, c, verdict, id, reaction, at);
      ConsultedIsTame(s, c, verdict, id, reaction, at);
      GoodIsShaped(Apply(s, e), c);
      TameIsOrderly(s, Apply(s, e), c);
    case Terminal(_, hops, typed, rereads, at) =>
      DriveMoves(s, c, [Jobs.KickTty(hops, typed)], rereads, at);
      TerminalIsTame(s, c, hops, typed, rereads, at);
      GoodIsShaped(Apply(s, e), c);
      TameIsOrderly(s, Apply(s, e), c);
  }

  lemma VoteIsOrderly(s: Server, op: Op, rereads: Rereads, at: int)
    requires Good(s) && Good(Apply(s, Submitted(op, rereads, at))) && s.owner in s.conns
    ensures Orderly(s, Apply(s, Submitted(op, rereads, at)), s.owner)
  {
    hide Good;
    hide Orderly;
    hide Drive;
    hide Submit;
    var s', c := Apply(s, Submitted(op, rereads, at)), s.owner;
    var t := s.(hub := Submit(s.hub, op));
    var vote := Vote(Answer(s.hub, op));
    GoodIsShaped(s, c);
    VoteIsTame(s, op, rereads, at);
    if vote.Some? {
      DriveMoves(t, c, [Jobs.CastSocket(vote.value)], rereads, at);
    } else {
      assert s'.conns == s.conns[c := s.conns[c]];
    }
    GoodIsShaped(s', c);
    TameIsOrderly(s, s', c);
  }

  lemma AcceptKeepsGuard(s: Server, c: ConnId)
    requires Guarded(s) && c !in s.conns && (!s.busy ==> forall d :: !Lingering(s, d))
    ensures Guarded(Apply(s, Accept(c)))
  {
    var s' := Apply(s, Accept(c));
    OthersKeepHold(s, s', c);
    if !s.busy {
      assert forall d :: !Holding(s, d);
    } else {
      assert !Holding(s', c);
    }
  }

  lemma NobodyVotes(s: Server, op: Op, rereads: Rereads, at: int)
    requires Good(s) && Guarded(s) && s.owner !in s.conns
    ensures Guarded(Apply(s, Submitted(op, rereads, at)))
  {
    assert s.hub.pending.None?;
  }

  lemma StepKeepsGuard(s: Server, e: Event)
    requires Good(s) && Guarded(s) && Enabled(s, e)
    requires e.Accept? && !s.busy ==> forall d :: !Lingering(s, d)
    ensures Good(Apply(s, e)) && Guarded(Apply(s, e))
  {
    StepKeepsGood(s, e);
    hide Good;
    hide Guarded;
    hide Apply;
    if e.Accept? {
      AcceptKeepsGuard(s, e.conn);
    } else if e.Submitted? {
      if s.owner in s.conns {
        VoteIsOrderly(s, e.op, e.rereads, e.at);
        OrderlyKeepsGuard(s, Apply(s, e), s.owner);
      } else {
        NobodyVotes(s, e.op, e.rereads, e.at);
      }
    } else {
      ConnIsOrderly(s, e);
      OrderlyKeepsGuard(s, Apply(s, e), e.conn);
    }
  }

  lemma {:induction false} CarefulRunIsFree(s: Server, es: seq<Event>)
    requires Good(s) && Guarded(s) && ValidRun(s, es) && CarefulAccepts(s, es)
    ensures NoStaleRelease(s, es) && Guarded(After(s, es))
    decreases |es|
  {
    hide Good;
    hide Guarded;
    hide Apply;
    hide Enabled;
    hide StaleRelease;
    if es != [] {
      GuardedHasNoStaleRelease(s, es[0]);
      StepKeepsGuard(s, es[0]);
      CarefulRunIsFree(Apply(s, es[0]), es[1..]);
    }
  }

  /** If no accept falls between a release before dispatch and that socket's close event, one
      handler at most is ever in flight. */
  lemma CarefulAcceptsKeepSerial(es: seq<Event>)
    requires ValidRun(INITIAL, es) && CarefulAccepts(INITIAL, es)
    ensures !TwoInFlight(After(INITIAL, es))
  {
    InitialIsGood();
    CarefulRunIsFree(INITIAL, es);
    NoStaleReleaseKeepsSerial(INITIAL, es);
  }

  // ----- two handlers at once -----

  /** Accept, read timeout, another accept, and only then the first socket's close event: from
      there two handlers come to be in flight. */
  lemma TwoHandlersAreReachable() returns (rest: seq<Event>)
    ensures var es := [Event.Accept(0), Event.ReadTimeout(0), Event.Accept(1), Event.Close(0)] + rest;
      ValidRun(INITIAL, es) && TwoInFlight(After(INITIAL, es))
  {
    var a, b, c, d := Event.Accept(0), Event.ReadTimeout(0), Event.Accept(1), Event.Close(0);
    var s1 := Apply(INITIAL, a);
    var s2 := Apply(s1, b);
    var s3 := Apply(s2, c);
    var s4 := Apply(s3, d);
    assert s4.conns[1].served && !s4.busy;
    rest := LiveBesideClearFlag(s4, 1);
    hide Apply;
    hide Enabled;
    ConsEvent(s3, d, rest);
    ConsEvent(s2, c, [d] + rest);
    ConsEvent(s1, b, [c] + ([d] + rest));
    ConsEvent(INITIAL, a, [b] + ([c] + ([d] + rest)));
    assert [a, b, c, d] + rest == [a] + ([b] + ([c] + ([d] + rest)));
  }
}
