/** Browsers polling through the client: the compressed replies against the broker's pending request. */
module PollRuns {
  import opened JsText
  import opened ApprovalHub
  import opened BrokerClient

  type PollId = nat
  type BrowserId = nat

  /** How far a poll has come. `seen` is what was pending at the broker at its last request. */
  datatype Stage =
    | Asked(q: Option<Id>)
    | Replied(q: Option<Id>, reply: StatusReply, seen: Option<Pending>)
    | Relayed(out: PendingReply, seen: Option<Pending>)
    | Lost

  datatype Poll = Poll(browser: BrowserId, known: Option<Id>, requests: nat, stage: Stage)

  /** `issued` holds every request there ever was, `rank` the order of their outcomes, and
      `observed` the outcomes the client has recorded since it started. */
  datatype World = World(
    hub: State, issued: map<Id, View>, rank: map<Id, nat>,
    cache: seq<Pending>, history: seq<Summary>, observed: seq<Summary>,
    browsers: map<BrowserId, Option<Pending>>, polls: map<PollId, Poll>)

  const INITIAL := World(State(None, None), map[], map[], [], [], [], map[], map[])

  /** Requests may register over one another; each is settled once, pending or not by then. */
  datatype Event =
    | Registers(id: Id, startedAt: int, view: View)
    | Submits(op: Op)
    | Settles(id: Id, decision: Decision, channel: Channel, at: int)
    | Reports(result: PublishOutcome)
    | PollStarts(p: PollId, browser: BrowserId)
    | BrokerReplies(p: PollId)
    | ClientReceives(p: PollId)
    | BrowserUpdates(p: PollId)
    | PollFails(p: PollId)
    | ClientRestarts

  /** What a browser shows. */
  function Shown(w: World, b: BrowserId): Option<Pending> {
    if b in w.browsers then w.browsers[b] else None
  }

  function IdOf(p: Option<Pending>): Option<Id> {
    if p.Some? then Some(p.value.id) else None
  }

  function PendingAt(s: State): Option<Pending> {
    if s.pending.Some? then Some(s.pending.value.wire) else None
  }

  /** The reply to the browser: "unchanged" only if it named this very request. */
  function Relay(known: Option<Id>, pending: Option<Pending>): PendingReply {
    match pending
    case None => Nothing
    case Some(p) => if known == Some(p.id) then Unchanged else Full(p)
  }

  /** What the browser shows after a reply. */
  function Updated(shown: Option<Pending>, out: PendingReply): Option<Pending> {
    match out
    case Unchanged => shown
    case Full(p) => Some(p)
    case Nothing => None
  }

  function WithStage(w: World, p: PollId, stage: Stage): World
    requires p in w.polls
  {
    w.(polls := w.polls[p := w.polls[p].(stage := stage)])
  }

  predicate Enabled(w: World, e: Event) {
    match e
    case Registers(id, _, _) => id !in w.issued
    case Submits(_) => true
    case Settles(id, _, _, _) => id in w.issued && id !in w.rank
    case Reports(_) => true
    case PollStarts(p, _) => p !in w.polls
    case BrokerReplies(p) => p in w.polls && w.polls[p].stage.Asked?
    case ClientReceives(p) => p in w.polls && w.polls[p].stage.Replied?
    case BrowserUpdates(p) => p in w.polls && w.polls[p].stage.Relayed?
    case PollFails(p) => p in w.polls
    case ClientRestarts => true
  }

  function ClientReceived(w: World, p: PollId): World
    requires p in w.polls && w.polls[p].stage.Replied?
  {
    var poll := w.polls[p];
    var q, reply, seen := poll.stage.q, poll.stage.reply, poll.stage.seen;
    if Misses(w.cache, q, reply) then
      w.(polls := w.polls[p := poll.(requests := poll.requests + 1, stage := Asked(None))])
    else
      WithStage(w, p, Relayed(Relay(poll.known, Expanded(w.cache, q, reply)), seen)).(
        cache := CacheAfter(w.cache, reply),
        history := HistoryAfter(w.cache, w.history, reply),
        observed := if reply.last.None? then w.observed
          else w.observed + [Summarize(reply.last.value, ViewOf(CacheAfter(w.cache, reply), reply.last.value.id))])
  }

  function Ended(w: World, p: PollId, shows: Option<Pending>): World
    requires p in w.polls
  {
    w.(browsers := w.browsers[w.polls[p].browser := shows], polls := w.polls - {p})
  }

  function Step(w: World, e: Event): World
    requires Enabled(w, e)
  {
    match e
    case Registers(id, startedAt, view) =>
      w.(hub := Register(w.hub, id, startedAt, view), issued := w.issued[id := view])
    case Submits(op) => w.(hub := Submit(w.hub, op))
    case Settles(id, decision, channel, at) =>
      w.(hub := Settle(w.hub, id, decision, channel, at), rank := w.rank[id := |w.rank|])
    case Reports(result) => w.(hub := Report(w.hub, result))
    case PollStarts(p, b) => w.(polls := w.polls[p := Poll(b, IdOf(Shown(w, b)), 1, Asked(IdOf(Shown(w, b))))])
    case BrokerReplies(p) =>
      WithStage(w, p, Replied(w.polls[p].stage.q, StatusOf(w.hub, w.polls[p].stage.q), PendingAt(w.hub)))
    case ClientReceives(p) => ClientReceived(w, p)
    case BrowserUpdates(p) => Ended(w, p, Updated(Shown(w, w.polls[p].browser), w.polls[p].stage.out))
    case PollFails(p) => Ended(w, p, None)
    case ClientRestarts =>
      w.(cache := [], history := [], observed := [],
         polls := map p | p in w.polls ::
           w.polls[p].(stage := if w.polls[p].stage.Relayed? then w.polls[p].stage else Lost))
  }

  predicate ValidRun(w: World, es: seq<Event>)
    decreases |es|
  {
    es == [] || (Enabled(w, es[0]) && ValidRun(Step(w, es[0]), es[1..]))
  }

  function After(w: World, es: seq<Event>): World
    requires ValidRun(w, es)
    decreases |es|
  {
    if es == [] then w else After(Step(w, es[0]), es[1..])
  }

  // ---------------------------------------------------------------- the same request, seen through two caches

  predicate Issued(issued: map<Id, View>, p: Pending) {
    p.id in issued && issued[p.id] == p.view
  }

  predicate IssuedOrNone(issued: map<Id, View>, p: Option<Pending>) {
    p.Some? ==> Issued(issued, p.value)
  }

  /** Same id and view; the attempts left may have changed since. */
  predicate Agree(x: Option<Pending>, y: Option<Pending>) {
    x.Some? == y.Some? && (x.Some? ==> x.value.id == y.value.id && x.value.view == y.value.view)
  }

  predicate AskedRight(poll: Poll, q: Option<Id>) {
    (poll.requests == 1 && q == poll.known) || (poll.requests == 2 && q == None)
  }

  predicate GoodPoll(issued: map<Id, View>, poll: Poll) {
    match poll.stage
    case Asked(q) => AskedRight(poll, q)
    case Replied(q, reply, seen) =>
      && AskedRight(poll, q) && IssuedOrNone(issued, seen)
      && (match reply.pending
          case Full(p) => seen == Some(p)
          case Unchanged => seen.Some? && q == Some(seen.value.id)
          case Nothing => seen.None?)
    case Relayed(out, seen) =>
      && poll.requests <= 2 && IssuedOrNone(issued, seen)
      && (match out
          case Full(p) => Issued(issued, p) && Agree(Some(p), seen)
          case Unchanged => seen.Some? && poll.known == Some(seen.value.id)
          case Nothing => seen.None?)
    case Lost => poll.requests <= 2
  }

  predicate AllIssued(issued: map<Id, View>, cache: seq<Pending>) {
    forall k | 0 <= k < |cache| :: Issued(issued, cache[k])
  }

  predicate GoodCache(w: World) {
    && DistinctIds(w.cache) && |w.cache| <= PENDING_CACHE_LIMIT && AllIssued(w.issued, w.cache)
    && w.history == RingOf(w.observed)
  }

  predicate GoodPolls(w: World) {
    forall p <- w.polls :: GoodPoll(w.issued, w.polls[p])
  }

  predicate GoodBrowsers(w: World) {
    forall b <- w.browsers :: IssuedOrNone(w.issued, w.browsers[b])
  }

  predicate Good(w: World) {
    IssuedOrNone(w.issued, PendingAt(w.hub)) && GoodCache(w) && GoodPolls(w) && GoodBrowsers(w)
  }

  lemma MoreIssued(issued: map<Id, View>, id: Id, view: View, poll: Poll)
    requires id !in issued && GoodPoll(issued, poll)
    ensures GoodPoll(issued[id := view], poll)
  {
  }

  lemma RegistersKeepsGood(w: World, id: Id, startedAt: int, view: View)
    requires Good(w) && Enabled(w, Registers(id, startedAt, view))
    ensures Good(Step(w, Registers(id, startedAt, view)))
  {
    hide GoodPoll;
    hide RingOf;
    var t := Step(w, Registers(id, startedAt, view));
    forall p <- t.polls ensures GoodPoll(t.issued, t.polls[p]) {
      MoreIssued(w.issued, id, view, w.polls[p]);
    }
  }

  lemma HubKeepsGood(w: World, hub: State)
    requires Good(w) && IssuedOrNone(w.issued, PendingAt(hub))
    ensures Good(w.(hub := hub))
  {
    hide GoodPoll;
    hide RingOf;
  }

  lemma SubmitKeepsRequest(w: World, op: Op)
    requires IssuedOrNone(w.issued, PendingAt(w.hub))
    ensures IssuedOrNone(w.issued, PendingAt(Submit(w.hub, op)))
  {
    hide Trim;
  }

  /** One poll moves on. */
  lemma PollKeepsGood(w: World, p: PollId, poll: Poll)
    requires Good(w) && GoodPoll(w.issued, poll)
    ensures Good(w.(polls := w.polls[p := poll]))
  {
    hide GoodPoll;
    hide RingOf;
  }

  lemma ReplyIsGood(w: World, p: PollId)
    requires Good(w) && Enabled(w, BrokerReplies(p))
    ensures GoodPoll(w.issued, Step(w, BrokerReplies(p)).polls[p])
  {
    assert GoodPoll(w.issued, w.polls[p]);
    hide RingOf;
  }

  lemma EndedKeepsGood(w: World, p: PollId, shows: Option<Pending>)
    requires Good(w) && p in w.polls && IssuedOrNone(w.issued, shows)
    ensures Good(Ended(w, p, shows))
  {
    hide GoodPoll;
    hide RingOf;
  }

  lemma ShownIsIssued(w: World, b: BrowserId)
    requires Good(w)
    ensures IssuedOrNone(w.issued, Shown(w, b))
  {
  }

  lemma RestartKeepsGood(w: World)
    requires Good(w)
    ensures Good(Step(w, ClientRestarts))
  {
    var t := Step(w, ClientRestarts);
    forall p <- t.polls ensures GoodPoll(t.issued, t.polls[p]) {
      assert GoodPoll(w.issued, w.polls[p]);
    }
  }

  lemma CachedIsIssued(issued: map<Id, View>, cache: seq<Pending>, p: Pending)
    requires AllIssued(issued, cache) && Issued(issued, p)
    ensures AllIssued(issued, Cached(cache, p))
  {
  }

  lemma LookupIsIssued(issued: map<Id, View>, cache: seq<Pending>, id: Id)
    requires AllIssued(issued, cache)
    ensures var r := Lookup(cache, id); r.Some? ==> r.value.id == id && Issued(issued, r.value)
  {
  }

  /** The client undoes the broker's compression and redoes it for the browser. */
  lemma RelayIsGood(w: World, p: PollId)
    requires Good(w) && Enabled(w, ClientReceives(p))
    ensures GoodPoll(w.issued, ClientReceived(w, p).polls[p])
  {
    hide RingOf;
    hide HistoryAfter;
    hide CacheAfter;
    var poll := w.polls[p];
    assert GoodPoll(w.issued, poll);
    if poll.stage.reply.pending.Unchanged? {
      LookupIsIssued(w.issued, w.cache, poll.stage.seen.value.id);
    }
  }

  lemma NotedInRing(w: World, p: PollId)
    requires Good(w) && Enabled(w, ClientReceives(p))
    ensures GoodCache(ClientReceived(w, p))
  {
    hide Summarize;
    var poll := w.polls[p];
    var reply := poll.stage.reply;
    assert GoodPoll(w.issued, poll);
    if reply.pending.Full? {
      var x := reply.pending.pending;
      CachedIsFound(w.cache, x, x.id);
      CachedIsIssued(w.issued, w.cache, x);
    }
    if reply.last.Some? {
      var s := Summarize(reply.last.value, ViewOf(CacheAfter(w.cache, reply), reply.last.value.id));
      assert (w.observed + [s])[..|w.observed|] == w.observed;
    }
  }

  lemma ReceiveKeepsGood(w: World, p: PollId)
    requires Good(w) && Enabled(w, ClientReceives(p))
    ensures Good(Step(w, ClientReceives(p)))
  {
    hide GoodCache;
    hide GoodPoll;
    RelayIsGood(w, p);
    NotedInRing(w, p);
    var t := ClientReceived(w, p);
    PollKeepsGood(w, p, t.polls[p]);
    hide ClientReceived;
    ReceiveMoves(w, p);
  }

  lemma ReceiveMoves(w: World, p: PollId)
    requires p in w.polls && w.polls[p].stage.Replied?
    ensures var t := ClientReceived(w, p);
      p in t.polls
        && t == w.(polls := w.polls[p := t.polls[p]], cache := t.cache, history := t.history, observed := t.observed)
  {
    hide Expanded;
    hide Misses;
    hide HistoryAfter;
    hide CacheAfter;
    hide Summarize;
  }

  lemma StepKeepsGood(w: World, e: Event)
    requires Good(w) && Enabled(w, e)
    ensures Good(Step(w, e))
  {
    hide Good;
    hide GoodPoll;
    hide ClientReceived;
    hide Submit;
    match e
    case Registers(id, startedAt, view) => RegistersKeepsGood(w, id, startedAt, view);
    case Submits(op) => GoodHub(w); SubmitKeepsRequest(w, op); HubKeepsGood(w, Submit(w.hub, op));
    case Settles(_, _, _, _) => SettleKeepsGood(w, e);
    case Reports(result) => GoodHub(w); HubKeepsGood(w, Report(w.hub, result));
    case PollStarts(p, b) =>
      NewPollIsGood(w, b);
      PollKeepsGood(w, p, Poll(b, IdOf(Shown(w, b)), 1, Asked(IdOf(Shown(w, b)))));
    case BrokerReplies(p) => ReplyIsGood(w, p); PollKeepsGood(w, p, Step(w, e).polls[p]);
    case ClientReceives(p) => ReceiveKeepsGood(w, p);
    case BrowserUpdates(p) => UpdateKeepsGood(w, p);
    case PollFails(p) => EndedKeepsGood(w, p, None);
    case ClientRestarts => RestartKeepsGood(w);
  }

  lemma NewPollIsGood(w: World, b: BrowserId)
    ensures GoodPoll(w.issued, Poll(b, IdOf(Shown(w, b)), 1, Asked(IdOf(Shown(w, b)))))
  {
  }

  lemma GoodHub(w: World)
    requires Good(w)
    ensures IssuedOrNone(w.issued, PendingAt(w.hub))
  {
  }

  lemma SettleKeepsGood(w: World, e: Event)
    requires Good(w) && Enabled(w, e) && e.Settles?
    ensures Good(Step(w, e))
  {
    hide GoodPoll;
    hide RingOf;
  }

  lemma UpdateKeepsGood(w: World, p: PollId)
    requires Good(w) && Enabled(w, BrowserUpdates(p))
    ensures Good(Step(w, BrowserUpdates(p)))
  {
    ShownIsIssued(w, w.polls[p].browser);
    assert GoodPoll(w.issued, w.polls[p]);
    hide Good;
    EndedKeepsGood(w, p, Updated(Shown(w, w.polls[p].browser), w.polls[p].stage.out));
  }

  lemma {:induction false} RunKeepsGood(w: World, es: seq<Event>)
    requires Good(w) && ValidRun(w, es)
    ensures Good(After(w, es))
    decreases |es|
  {
    hide Good;
    hide Step;
    hide Enabled;
    if es != [] {
      StepKeepsGood(w, es[0]);
      RunKeepsGood(Step(w, es[0]), es[1..]);
    }
  }

  lemma InitialIsGood()
    ensures Good(INITIAL)
  {
  }

  // ---------------------------------------------------------------- what a browser shows after a poll

  /** In every run: the browser then shows what was pending at the broker when it was last asked,
      unless the reply was "unchanged" and the browser no longer shows what it asked about. */
  lemma BrowserAgreesIff(es: seq<Event>, p: PollId)
    requires ValidRun(INITIAL, es) && Enabled(After(INITIAL, es), BrowserUpdates(p))
    ensures
      var w := After(INITIAL, es);
      var poll := w.polls[p];
      && poll.requests <= 2
      && (Agree(Shown(Step(w, BrowserUpdates(p)), poll.browser), poll.stage.seen) <==>
          !poll.stage.out.Unchanged? || IdOf(Shown(w, poll.browser)) == poll.known)
  {
    InitialIsGood();
    RunKeepsGood(INITIAL, es);
    var w := After(INITIAL, es);
    hide After;
    hide GoodCache;
    assert GoodPoll(w.issued, w.polls[p]);
    ShownIsIssued(w, w.polls[p].browser);
  }

  /** A poll may only start when this browser has no other one under way. */
  predicate OneAtATime(w: World, es: seq<Event>)
    requires ValidRun(w, es)
    decreases |es|
  {
    es == [] ||
    ((es[0].PollStarts? ==> forall p <- w.polls :: w.polls[p].browser != es[0].browser)
     && OneAtATime(Step(w, es[0]), es[1..]))
  }

  /** Polls under way belong to different browsers and name what their browser still shows. */
  predicate Current(w: World) {
    && (forall p <- w.polls :: w.polls[p].known == IdOf(Shown(w, w.polls[p].browser)))
    && (forall p, q | p in w.polls && q in w.polls && p != q :: w.polls[p].browser != w.polls[q].browser)
  }

  lemma StepKeepsCurrent(w: World, e: Event)
    requires Current(w) && Enabled(w, e)
    requires e.PollStarts? ==> forall p <- w.polls :: w.polls[p].browser != e.browser
    ensures Current(Step(w, e))
  {
    hide Submit;
    hide Register;
    hide Report;
    if e.ClientReceives? {
      ReceiveKeepsCurrent(w, e.p);
    }
  }

  lemma ReceiveKeepsCurrent(w: World, p: PollId)
    requires Current(w) && Enabled(w, ClientReceives(p))
    ensures Current(ClientReceived(w, p))
  {
    hide Expanded;
    hide Misses;
    hide HistoryAfter;
    hide CacheAfter;
    hide Summarize;
  }

  lemma {:induction false} RunKeepsCurrent(w: World, es: seq<Event>)
    requires Current(w) && ValidRun(w, es) && OneAtATime(w, es)
    ensures Current(After(w, es))
    decreases |es|
  {
    hide Current;
    hide Step;
    hide Enabled;
    if es != [] {
      StepKeepsCurrent(w, es[0]);
      RunKeepsCurrent(Step(w, es[0]), es[1..]);
    }
  }

  /** With one poll at a time per browser, every poll ends in agreement, through any number of
      browsers, client restarts and evictions, after at most two requests. */
  lemma BrowsersAgree(es: seq<Event>, p: PollId)
    requires ValidRun(INITIAL, es) && OneAtATime(INITIAL, es) && Enabled(After(INITIAL, es), BrowserUpdates(p))
    ensures
      var w := After(INITIAL, es);
      var poll := w.polls[p];
      Agree(Shown(Step(w, BrowserUpdates(p)), poll.browser), poll.stage.seen) && poll.requests <= 2
  {
    BrowserAgreesIff(es, p);
    RunKeepsCurrent(INITIAL, es);
    hide Step;
    hide After;
  }

  // ---------------------------------------------------------------- overlapping polls can disagree

  lemma {:induction false} RunSnoc(w: World, es: seq<Event>, e: Event)
    requires ValidRun(w, es) && Enabled(After(w, es), e)
    ensures ValidRun(w, es + [e]) && After(w, es + [e]) == Step(After(w, es), e)
    decreases |es|
  {
    hide Step;
    hide Enabled;
    if es == [] {
      assert es + [e] == [e] && [e][1..] == [];
    } else {
      assert (es + [e])[0] == es[0] && (es + [e])[1..] == es[1..] + [e];
      RunSnoc(Step(w, es[0]), es[1..], e);
    }
  }

  /** A whole poll on its own leaves the browser with what is pending. */
  lemma WholePoll(start: World, es: seq<Event>, p: PollId, b: BrowserId) returns (more: seq<Event>)
    requires ValidRun(start, es)
    requires var w := After(start, es);
      p !in w.polls && (Shown(w, b).None? || w.hub.pending.None?)
    ensures ValidRun(start, more)
    ensures var w, t := After(start, es), After(start, more);
      t.hub == w.hub && t.issued == w.issued && t.rank == w.rank && t.polls == w.polls
        && t.browsers == w.browsers[b := PendingAt(w.hub)]
      && (w.hub.pending.Some? ==> t.cache == Cached(w.cache, w.hub.pending.value.wire))
  {
    hide HistoryAfter;
    hide Summarize;
    hide Cached;
    hide ValidRun;
    var w := After(start, es);
    more := PollAnswered(start, es, p, b);
    RunSnoc(start, more, BrowserUpdates(p));
    more := more + [BrowserUpdates(p)];
    assert After(start, more).polls == w.polls;
  }

  /** The poll has its answer, in full or that nothing is pending. */
  lemma PollAnswered(start: World, es: seq<Event>, p: PollId, b: BrowserId) returns (more: seq<Event>)
    requires ValidRun(start, es)
    requires var w := After(start, es);
      p !in w.polls && (Shown(w, b).None? || w.hub.pending.None?)
    ensures ValidRun(start, more)
    ensures var w, t := After(start, es), After(start, more);
      var known := IdOf(Shown(w, b));
      && t.hub == w.hub && t.issued == w.issued && t.rank == w.rank && t.browsers == w.browsers
      && t.polls == w.polls[p := Poll(b, known, 1, Relayed(Relay(known, PendingAt(w.hub)), PendingAt(w.hub)))]
      && (w.hub.pending.Some? ==> t.cache == Cached(w.cache, w.hub.pending.value.wire))
  {
    hide HistoryAfter;
    hide Summarize;
    hide Cached;
    hide ValidRun;
    more := PollReplied(start, es, p, b);
    RunSnoc(start, more, ClientReceives(p));
    more := more + [ClientReceives(p)];
    hide After;
  }

  /** The broker has replied. */
  lemma PollReplied(start: World, es: seq<Event>, p: PollId, b: BrowserId) returns (more: seq<Event>)
    requires ValidRun(start, es) && p !in After(start, es).polls
    ensures ValidRun(start, more)
    ensures var w, t := After(start, es), After(start, more);
      var known := IdOf(Shown(w, b));
      t == w.(polls := w.polls[p := Poll(b, known, 1, Replied(known, StatusOf(w.hub, known), PendingAt(w.hub)))])
  {
    hide ValidRun;
    RunSnoc(start, es, PollStarts(p, b));
    var es1 := es + [PollStarts(p, b)];
    RunSnoc(start, es1, BrokerReplies(p));
    more := es1 + [BrokerReplies(p)];
  }

  /** Two polls of one browser under way: the later one is answered first, and the "unchanged" of
      the earlier one then finds nothing to keep. */
  lemma OverlapDisagrees(id: Id, view: View) returns (es: seq<Event>, p: PollId)
    ensures ValidRun(INITIAL, es) && Enabled(After(INITIAL, es), BrowserUpdates(p))
    ensures var w := After(INITIAL, es);
      !Agree(Shown(Step(w, BrowserUpdates(p)), w.polls[p].browser), w.polls[p].stage.seen)
  {
    hide HistoryAfter;
    hide Summarize;
    hide ValidRun;
    es := [Registers(id, 0, view)];
    assert ValidRun(INITIAL, []) && After(INITIAL, []) == INITIAL && [] + es == es by { FirstEvent(); }
    RunSnoc(INITIAL, [], es[0]);
    es := WholePoll(INITIAL, es, 0, 0);
    var w := After(INITIAL, es);
    p := 1;
    es := UnchangedOnItsWay(es, p, 0);
    RunSnoc(INITIAL, es, Settles(id, Approved, Socket, 0));
    es := es + [Settles(id, Approved, Socket, 0)];
    es := WholePoll(INITIAL, es, 2, 0);
    BrowserAgreesIff(es, p);
  }

  lemma FirstEvent()
    ensures ValidRun(INITIAL, []) && After(INITIAL, []) == INITIAL
  {
  }

  /** A browser that shows the pending request asks about it. */
  lemma UnchangedOnItsWay(es: seq<Event>, p: PollId, b: BrowserId) returns (more: seq<Event>)
    requires ValidRun(INITIAL, es)
    requires var w := After(INITIAL, es);
      p !in w.polls && w.hub.pending.Some? && Shown(w, b) == PendingAt(w.hub)
      && Lookup(w.cache, w.hub.pending.value.wire.id) == PendingAt(w.hub)
    ensures ValidRun(INITIAL, more)
    ensures var w, t := After(INITIAL, es), After(INITIAL, more);
      && t.hub == w.hub && t.issued == w.issued && t.rank == w.rank && t.browsers == w.browsers
      && t.polls == w.polls[p := Poll(b, IdOf(Shown(w, b)), 1, Relayed(Unchanged, Shown(w, b)))]
  {
    hide HistoryAfter;
    hide Summarize;
    hide Lookup;
    hide ValidRun;
    more := PollReplied(INITIAL, es, p, b);
    RunSnoc(INITIAL, more, ClientReceives(p));
    more := more + [ClientReceives(p)];
    hide After;
  }

  // ---------------------------------------------------------------- sequential polls keep the newest outcomes

  predicate AtClient(poll: Poll) {
    poll.stage.Asked? || poll.stage.Replied?
  }

  /** A poll starts only when no other one is still at the client. */
  predicate Sequential(w: World, es: seq<Event>)
    requires ValidRun(w, es)
    decreases |es|
  {
    es == [] ||
    ((es[0].PollStarts? ==> forall p <- w.polls :: !AtClient(w.polls[p]))
     && Sequential(Step(w, es[0]), es[1..]))
  }

  /** Different outcomes have different ranks, below their number. */
  predicate Ranking(rank: map<Id, nat>) {
    && (forall id <- rank :: rank[id] < |rank|)
    && (forall x, y | x in rank && y in rank && rank[x] == rank[y] :: x == y)
  }

  predicate RankedHub(w: World) {
    && Ranking(w.rank) && w.rank.Keys <= w.issued.Keys
    && (w.hub.last.Some? ==> w.hub.last.value.id in w.rank && w.rank[w.hub.last.value.id] == |w.rank| - 1)
    && (w.hub.pending.Some? ==> w.hub.pending.value.wire.id in w.issued && w.hub.pending.value.wire.id !in w.rank)
  }

  /** Observed in the order they were decided. */
  predicate Ordered(rank: map<Id, nat>, observed: seq<Summary>) {
    && (forall k | 0 <= k < |observed| :: observed[k].id in rank)
    && (forall i, j | 0 <= i < j < |observed| :: rank[observed[i].id] <= rank[observed[j].id])
  }

  predicate NotBefore(rank: map<Id, nat>, observed: seq<Summary>, id: Id) {
    id in rank && forall k | 0 <= k < |observed| && observed[k].id in rank :: rank[observed[k].id] <= rank[id]
  }

  predicate RepliesNotBefore(w: World) {
    forall p <- w.polls ::
      w.polls[p].stage.Replied? && w.polls[p].stage.reply.last.Some? ==>
        NotBefore(w.rank, w.observed, w.polls[p].stage.reply.last.value.id)
  }

  predicate OneAtClient(w: World) {
    forall p, q | p in w.polls && q in w.polls && p != q :: !AtClient(w.polls[p]) || !AtClient(w.polls[q])
  }

  predicate InOrder(w: World) {
    RankedHub(w) && Ordered(w.rank, w.observed) && RepliesNotBefore(w) && OneAtClient(w)
  }

  lemma OrderedIsForward(rank: map<Id, nat>, observed: seq<Summary>)
    requires Ordered(rank, observed)
    requires Ranking(rank)
    ensures Forward(observed)
  {
    forall i, j, k | 0 <= i < j < k < |observed| && observed[i].id == observed[k].id
      ensures observed[j].id == observed[i].id
    {
      assert rank[observed[i].id] <= rank[observed[j].id] <= rank[observed[k].id];
    }
  }

  /** Only the hub changed, with the outcomes decided so far. */
  lemma HubKeepsOrder(w: World, t: World)
    requires InOrder(w) && RankedHub(t)
    requires t.polls == w.polls && t.observed == w.observed && t.rank == w.rank
    ensures InOrder(t)
  {
  }

  lemma RankGrows(rank: map<Id, nat>, id: Id, n: nat, observed: seq<Summary>, x: Id)
    requires Ordered(rank, observed) && id !in rank
    ensures Ordered(rank[id := n], observed)
    ensures NotBefore(rank, observed, x) ==> NotBefore(rank[id := n], observed, x)
  {
  }

  lemma NextRank(rank: map<Id, nat>, id: Id)
    requires Ranking(rank) && id !in rank
    ensures Ranking(rank[id := |rank|]) && |rank[id := |rank|]| == |rank| + 1
  {
    var after := rank[id := |rank|];
    assert after.Keys == rank.Keys + {id};
    assert |after| == |after.Keys| && |rank| == |rank.Keys|;
  }

  lemma SettleKeepsHub(w: World, e: Event)
    requires RankedHub(w) && Enabled(w, e) && e.Settles?
    ensures RankedHub(Step(w, e))
  {
    NextRank(w.rank, e.id);
    hide Ranking;
  }

  lemma SettleKeepsOrder(w: World, e: Event)
    requires InOrder(w) && Enabled(w, e) && e.Settles?
    ensures InOrder(Step(w, e))
  {
    SettleKeepsHub(w, e);
    hide RankedHub;
    hide Ordered;
    hide NotBefore;
    var t := Step(w, e);
    var id := e.id;
    RankGrows(w.rank, id, |w.rank|, w.observed, id);
    forall p | p in t.polls && t.polls[p].stage.Replied? && t.polls[p].stage.reply.last.Some?
      ensures NotBefore(t.rank, t.observed, t.polls[p].stage.reply.last.value.id)
    {
      RankGrows(w.rank, id, |w.rank|, w.observed, t.polls[p].stage.reply.last.value.id);
    }
  }

  lemma SubmitKeepsIds(s: State, op: Op)
    ensures Submit(s, op).last == s.last && Submit(s, op).pending.Some? == s.pending.Some?
    ensures s.pending.Some? ==> Submit(s, op).pending.value.wire.id == s.pending.value.wire.id
  {
    hide Trim;
  }

  lemma BrokerRepliesKeepsOrder(w: World, p: PollId)
    requires InOrder(w) && Enabled(w, BrokerReplies(p))
    ensures InOrder(Step(w, BrokerReplies(p)))
  {
    var t := Step(w, BrokerReplies(p));
    if w.hub.last.Some? {
      var id := w.hub.last.value.id;
      forall k | 0 <= k < |w.observed| ensures w.rank[w.observed[k].id] <= w.rank[id] {
        assert w.observed[k].id in w.rank;
      }
    }
  }

  lemma ReceiveKeepsOrder(w: World, p: PollId)
    requires InOrder(w) && Enabled(w, ClientReceives(p))
    ensures InOrder(Step(w, ClientReceives(p)))
  {
    hide RankedHub;
    hide Ordered;
    hide NotBefore;
    var t := ClientReceived(w, p);
    ReceiveMoves(w, p);
    ReceivedStage(w, p);
    HubIsSame(w, t);
    hide ClientReceived;
    assert AtClient(w.polls[p]);
    forall q | q in t.polls ensures !t.polls[q].stage.Replied? && (AtClient(t.polls[q]) ==> q == p) {
      assert q != p ==> t.polls[q] == w.polls[q] && !AtClient(w.polls[q]);
    }
    ObservedInOrder(w, p);
  }

  lemma ReceivedStage(w: World, p: PollId)
    requires p in w.polls && w.polls[p].stage.Replied?
    ensures p in ClientReceived(w, p).polls && !ClientReceived(w, p).polls[p].stage.Replied?
  {
    hide Expanded;
    hide Misses;
    hide HistoryAfter;
    hide CacheAfter;
    hide Summarize;
    hide Relay;
  }

  lemma ObservedInOrder(w: World, p: PollId)
    requires Ordered(w.rank, w.observed) && RepliesNotBefore(w) && Enabled(w, ClientReceives(p))
    ensures Ordered(w.rank, ClientReceived(w, p).observed)
  {
    hide HistoryAfter;
    hide CacheAfter;
    hide Misses;
    hide Expanded;
    hide ViewOf;
    hide Relay;
    var t := ClientReceived(w, p);
    var reply := w.polls[p].stage.reply;
    if t.observed != w.observed {
      var s := t.observed[|w.observed|];
      assert t.observed == w.observed + [s] && s.id == reply.last.value.id;
      assert NotBefore(w.rank, w.observed, s.id);
    }
  }

  lemma RestartKeepsOrder(w: World)
    requires InOrder(w)
    ensures InOrder(Step(w, ClientRestarts))
  {
    hide RankedHub;
    var t := Step(w, ClientRestarts);
    assert forall p <- t.polls :: !AtClient(t.polls[p]);
    HubIsSame(w, t);
  }

  lemma HubIsSame(w: World, t: World)
    requires RankedHub(w) && t.hub == w.hub && t.rank == w.rank && t.issued == w.issued
    ensures RankedHub(t)
  {
  }

  /** Polls that start or end elsewhere. */
  lemma PollsKeepOrder(w: World, t: World)
    requires InOrder(w)
    requires t.hub == w.hub && t.rank == w.rank && t.issued == w.issued && t.observed == w.observed
    requires forall p <- t.polls ::
      ((p in w.polls && t.polls[p] == w.polls[p])
       || (!t.polls[p].stage.Replied?
         && (AtClient(t.polls[p]) ==> forall q <- t.polls :: AtClient(t.polls[q]) ==> q == p)))
    ensures InOrder(t)
  {
    HubIsSame(w, t);
    hide RankedHub;
    hide Ordered;
    hide NotBefore;
  }

  lemma StepKeepsOrder(w: World, e: Event)
    requires InOrder(w) && Enabled(w, e)
    requires e.PollStarts? ==> forall p <- w.polls :: !AtClient(w.polls[p])
    ensures InOrder(Step(w, e))
  {
    hide InOrder;
    hide ClientReceived;
    hide Submit;
    match e
    case Registers(id, startedAt, view) => OrderedHub(w); HubKeepsOrder(w, Step(w, e));
    case Submits(op) => OrderedHub(w); SubmitKeepsIds(w.hub, op); HubKeepsOrder(w, Step(w, e));
    case Settles(_, _, _, _) => SettleKeepsOrder(w, e);
    case Reports(result) => OrderedHub(w); HubKeepsOrder(w, Step(w, e));
    case PollStarts(p, b) => PollsKeepOrder(w, Step(w, e));
    case BrokerReplies(p) => BrokerRepliesKeepsOrder(w, p);
    case ClientReceives(p) => ReceiveKeepsOrder(w, p);
    case BrowserUpdates(p) => PollsKeepOrder(w, Step(w, e));
    case PollFails(p) => PollsKeepOrder(w, Step(w, e));
    case ClientRestarts => RestartKeepsOrder(w);
  }

  lemma OrderedHub(w: World)
    requires InOrder(w)
    ensures RankedHub(w)
  {
  }

  lemma {:induction false} RunKeepsOrder(w: World, es: seq<Event>)
    requires InOrder(w) && ValidRun(w, es) && Sequential(w, es)
    ensures InOrder(After(w, es))
    decreases |es|
  {
    hide InOrder;
    hide Step;
    hide Enabled;
    if es != [] {
      StepKeepsOrder(w, es[0]);
      RunKeepsOrder(Step(w, es[0]), es[1..]);
    }
  }

  /** In every run the history is the front of the log of what was observed; with polls one after
      another it is the newest distinct outcomes, each as last observed. */
  lemma HistoryIsNewest(es: seq<Event>)
    requires ValidRun(INITIAL, es)
    ensures var w := After(INITIAL, es);
      && w.history == Ring(Unbounded(w.observed))
      && (Sequential(INITIAL, es) ==> w.history == Ring(Newest(w.observed)) && DistinctSummaries(w.history))
  {
    InitialIsGood();
    RunKeepsGood(INITIAL, es);
    var w := After(INITIAL, es);
    RingIsFront(w.observed);
    if Sequential(INITIAL, es) {
      InitialInOrder();
      RunKeepsOrder(INITIAL, es);
      OrderedIsForward(w.rank, w.observed);
      RingIsNewest(w.observed);
    }
    hide After;
  }

  lemma InitialInOrder()
    ensures InOrder(INITIAL)
  {
  }
}
