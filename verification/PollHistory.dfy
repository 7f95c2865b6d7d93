/** What the history shows: whose outcomes its entries tell, and when one gets there. */
module PollHistory {
  import opened JsText
  import opened ApprovalHub
  import opened BrokerClient
  import opened PollRuns

  // ---------------------------------------------------------------- what an entry tells

  /** The outcome, with the pull request's address only after a publish that succeeded. */
  predicate TellsOutcome(s: Summary, o: Outcome) {
    && s.id == o.id && s.decision == o.decision && s.channel == o.channel && s.decidedAt == o.decidedAt
    && (o.publish.Some? && o.publish.value.Published? ==> s.prUrl == o.publish.value.prUrl)
    && (o.publish.None? || o.publish.value.PublishFailed? ==> s.prUrl == None)
  }

  /** The request it decided; the repository shown is the one that is pushed to. */
  predicate TellsView(s: Summary, v: View) {
    && s.title == v.title && s.org == v.org && s.repo == v.targetRepo && s.branch == v.branch
    && s.shortSha == v.shortSha && s.ticket == v.ticket
  }

  predicate TellsNoView(s: Summary) {
    s.title == "" && s.org == "" && s.repo == "" && s.branch == "" && s.shortSha == "" && s.ticket == None
  }

  lemma SummaryTells(o: Outcome, view: Option<View>)
    ensures var s := Summarize(o, view);
      TellsOutcome(s, o) && (if view.Some? then TellsView(s, view.value) else TellsNoView(s))
  {
  }

  // ---------------------------------------------------------------- every entry is true

  /** The broker had this as its last outcome at some point of the run. */
  ghost predicate WasLast(es: seq<Event>, o: Outcome) {
    exists k: nat :: k <= |es| && ValidRun(INITIAL, es[..k]) && After(INITIAL, es[..k]).hub.last == Some(o)
  }

  /** It tells an outcome that was, and the view issued under its id or none. */
  ghost predicate IsTrue(es: seq<Event>, issued: map<Id, View>, s: Summary) {
    && (exists o :: WasLast(es, o) && TellsOutcome(s, o))
    && ((s.id in issued && TellsView(s, issued[s.id])) || TellsNoView(s))
  }

  ghost predicate AllTrue(es: seq<Event>, issued: map<Id, View>, log: seq<Summary>) {
    forall k | 0 <= k < |log| :: IsTrue(es, issued, log[k])
  }

  ghost predicate RepliesTrue(es: seq<Event>, w: World) {
    forall p <- w.polls | w.polls[p].stage.Replied? && w.polls[p].stage.reply.last.Some? ::
      WasLast(es, w.polls[p].stage.reply.last.value)
  }

  lemma WasLastStays(es: seq<Event>, e: Event, o: Outcome)
    requires WasLast(es, o)
    ensures WasLast(es + [e], o)
  {
    var k: nat :| k <= |es| && ValidRun(INITIAL, es[..k]) && After(INITIAL, es[..k]).hub.last == Some(o);
    assert (es + [e])[..k] == es[..k];
    hide ValidRun;
    hide After;
  }

  lemma TrueStays(es: seq<Event>, e: Event, issued: map<Id, View>, issued': map<Id, View>, s: Summary)
    requires IsTrue(es, issued, s) && forall id <- issued :: id in issued' && issued'[id] == issued[id]
    ensures IsTrue(es + [e], issued', s)
  {
    var o :| WasLast(es, o) && TellsOutcome(s, o);
    WasLastStays(es, e, o);
    hide WasLast;
    hide TellsOutcome;
  }

  lemma {:induction false} RunSplits(w: World, xs: seq<Event>, e: Event)
    ensures ValidRun(w, xs + [e]) <==> ValidRun(w, xs) && Enabled(After(w, xs), e)
    ensures ValidRun(w, xs + [e]) ==> After(w, xs + [e]) == Step(After(w, xs), e)
    decreases |xs|
  {
    hide Step;
    hide Enabled;
    if xs == [] {
      assert xs + [e] == [e] && [e][1..] == [];
    } else {
      assert (xs + [e])[0] == xs[0] && (xs + [e])[1..] == xs[1..] + [e];
      if Enabled(w, xs[0]) {
        RunSplits(Step(w, xs[0]), xs[1..], e);
      }
    }
  }

  /** The last outcome, as it is when it has just been read. */
  lemma LastIsLast(es: seq<Event>)
    requires ValidRun(INITIAL, es) && After(INITIAL, es).hub.last.Some?
    ensures WasLast(es, After(INITIAL, es).hub.last.value)
  {
    assert es[..|es|] == es;
    hide ValidRun;
    hide After;
  }

  /** What a step does to the replies under way and to the log. */
  predicate Brings(w: World, t: World, e: Event) {
    && (forall p <- t.polls | t.polls[p].stage.Replied? && t.polls[p].stage.reply.last.Some? ::
         || (p in w.polls && w.polls[p].stage == t.polls[p].stage)
         || w.hub.last == t.polls[p].stage.reply.last)
    && (t.observed == w.observed || t.observed == []
        || (e.ClientReceives? && e.p in w.polls && w.polls[e.p].stage.Replied? && w.polls[e.p].stage.reply.last.Some?
            && var o, cache := w.polls[e.p].stage.reply.last.value, CacheAfter(w.cache, w.polls[e.p].stage.reply);
               t.observed == w.observed + [Summarize(o, ViewOf(cache, o.id))]))
    && (forall id <- w.issued :: id in t.issued && t.issued[id] == w.issued[id])
  }

  lemma ReceiveBrings(w: World, p: PollId)
    requires Enabled(w, ClientReceives(p))
    ensures Brings(w, Step(w, ClientReceives(p)), ClientReceives(p))
  {
    hide Expanded;
    hide Misses;
    hide HistoryAfter;
    hide CacheAfter;
    hide ViewOf;
    hide Summarize;
    hide Relay;
  }

  lemma StepBrings(w: World, e: Event)
    requires Enabled(w, e)
    ensures Brings(w, Step(w, e), e)
  {
    hide Submit;
    if e.ClientReceives? {
      ReceiveBrings(w, e.p);
    } else {
      hide ClientReceived;
      hide CacheAfter;
      hide ViewOf;
      hide Summarize;
    }
  }

  /** The view a summary is made from was issued under that id. */
  lemma ViewIsIssued(w: World, p: PollId, id: Id)
    requires Good(w) && Enabled(w, ClientReceives(p))
    ensures var view := ViewOf(CacheAfter(w.cache, w.polls[p].stage.reply), id);
      view.Some? ==> id in w.issued && w.issued[id] == view.value
  {
    var reply := w.polls[p].stage.reply;
    assert GoodPoll(w.issued, w.polls[p]);
    if reply.pending.Full? {
      CachedIsIssued(w.issued, w.cache, reply.pending.pending);
    }
    LookupIsIssued(w.issued, CacheAfter(w.cache, reply), id);
    hide RingOf;
    hide Lookup;
    hide Cached;
  }

  lemma SummaryIsTrue(es: seq<Event>, w: World, p: PollId)
    requires Good(w) && Enabled(w, ClientReceives(p)) && w.polls[p].stage.reply.last.Some?
    requires WasLast(es, w.polls[p].stage.reply.last.value)
    ensures var o := w.polls[p].stage.reply.last.value;
      IsTrue(es, w.issued, Summarize(o, ViewOf(CacheAfter(w.cache, w.polls[p].stage.reply), o.id)))
  {
    var o := w.polls[p].stage.reply.last.value;
    var view := ViewOf(CacheAfter(w.cache, w.polls[p].stage.reply), o.id);
    ViewIsIssued(w, p, o.id);
    SummaryTells(o, view);
    hide WasLast;
    hide Good;
    hide ViewOf;
    hide CacheAfter;
    hide Summarize;
    hide TellsOutcome;
    hide TellsView;
    hide TellsNoView;
    SameId(o, view);
  }

  lemma SameId(o: Outcome, view: Option<View>)
    ensures Summarize(o, view).id == o.id
  {
  }

  lemma {:induction false} EverythingIsTrue(es: seq<Event>)
    requires ValidRun(INITIAL, es)
    ensures var w := After(INITIAL, es);
      Good(w) && RepliesTrue(es, w) && AllTrue(es, w.issued, w.observed)
    decreases |es|
  {
    InitialIsGood();
    RunKeepsGood(INITIAL, es);
    if es != [] {
      var front, e := es[..|es| - 1], es[|es| - 1];
      assert es == front + [e];
      RunSplits(INITIAL, front, e);
      EverythingIsTrue(front);
      hide Good;
      hide ValidRun;
      hide WasLast;
      hide IsTrue;
      var w, t := After(INITIAL, front), After(INITIAL, es);
      StepBrings(w, e);
      RepliesStayTrue(front, e, w, t);
      LogStaysTrue(front, e, w, t);
    }
  }

  lemma RepliesStayTrue(es: seq<Event>, e: Event, w: World, t: World)
    requires ValidRun(INITIAL, es) && w == After(INITIAL, es) && RepliesTrue(es, w) && Brings(w, t, e)
    ensures RepliesTrue(es + [e], t)
  {
    hide After;
    hide ValidRun;
    forall p | p in t.polls && t.polls[p].stage.Replied? && t.polls[p].stage.reply.last.Some?
      ensures WasLast(es + [e], t.polls[p].stage.reply.last.value)
    {
      if w.hub.last == t.polls[p].stage.reply.last {
        LastIsLast(es);
      }
      WasLastStays(es, e, t.polls[p].stage.reply.last.value);
    }
  }

  lemma LogStaysTrue(es: seq<Event>, e: Event, w: World, t: World)
    requires Good(w) && Enabled(w, e) && RepliesTrue(es, w) && AllTrue(es, w.issued, w.observed) && Brings(w, t, e)
    ensures AllTrue(es + [e], t.issued, t.observed)
  {
    hide IsTrue;
    hide WasLast;
    hide Good;
    hide Summarize;
    hide ViewOf;
    hide CacheAfter;
    if t.observed != [] && t.observed != w.observed {
      SummaryIsTrue(es, w, e.p);
    }
    forall k | 0 <= k < |t.observed| ensures IsTrue(es + [e], t.issued, t.observed[k]) {
      TrueStays(es, e, w.issued, t.issued, t.observed[k]);
    }
  }

  /** Every entry of the history is one that was observed. */
  lemma {:induction false} FromTheLog(observed: seq<Summary>, s: Summary)
    requires s in Unbounded(observed)
    ensures s in observed
  {
    if observed != [] {
      var n := |observed| - 1;
      var before := Unbounded(observed[..n]);
      if s != observed[n] {
        assert s in before;
        FromTheLog(observed[..n], s);
      }
    }
  }

  /** In every run each entry of the history tells an outcome that the broker did have as its last,
      with that outcome's pull request if its publish succeeded, and the view issued under its id,
      or none where the client does not know it. */
  lemma HistoryIsTrue(es: seq<Event>, s: Summary)
    requires ValidRun(INITIAL, es) && s in After(INITIAL, es).history
    ensures IsTrue(es, After(INITIAL, es).issued, s)
  {
    EverythingIsTrue(es);
    HistoryIsNewest(es);
    var w := After(INITIAL, es);
    hide After;
    hide IsTrue;
    hide Good;
    FromTheLog(w.observed, s);
  }

  // ---------------------------------------------------------------- every outcome read is entered

  /** None of these events moves this poll on, or loses it. */
  predicate Leaves(es: seq<Event>, p: PollId) {
    forall e <- es ::
      && !e.ClientRestarts?
      && (e.BrokerReplies? || e.ClientReceives? || e.BrowserUpdates? || e.PollFails? ==> e.p != p)
  }

  lemma {:induction false} PollWaits(w: World, es: seq<Event>, p: PollId)
    requires p in w.polls && ValidRun(w, es) && Leaves(es, p)
    ensures p in After(w, es).polls && After(w, es).polls[p] == w.polls[p]
    decreases |es|
  {
    if es != [] {
      assert es[0] in es && forall e <- es[1..] :: e in es;
      PollIsLeft(w, es[0], p);
      hide Step;
      hide Enabled;
      PollWaits(Step(w, es[0]), es[1..], p);
    }
  }

  lemma PollIsLeft(w: World, e: Event, p: PollId)
    requires p in w.polls && Enabled(w, e) && Leaves([e], p)
    ensures p in Step(w, e).polls && Step(w, e).polls[p] == w.polls[p]
  {
    assert e in [e];
    hide Submit;
    if e.ClientReceives? {
      ReceiveMoves(w, e.p);
      hide ClientReceived;
    }
  }

  /** The newest entry tells this outcome, and the view the client has for it. */
  ghost predicate Entered(t: World, o: Outcome) {
    && t.history != [] && TellsOutcome(t.history[0], o)
    && match Lookup(t.cache, o.id)
       case Some(p) => TellsView(t.history[0], p.view)
       case None => TellsNoView(t.history[0])
  }

  /** Whatever happens elsewhere while the reply is on its way: what was the broker's last outcome
      when it answered is the newest entry once the client has taken the reply, unless that asks
      again; and nothing is entered where there was none. */
  lemma ReplyIsEntered(w: World, es: seq<Event>, p: PollId)
    requires Good(w) && Enabled(w, BrokerReplies(p))
    requires ValidRun(Step(w, BrokerReplies(p)), es) && Leaves(es, p)
    ensures var v := After(Step(w, BrokerReplies(p)), es);
      && Enabled(v, ClientReceives(p))
      && var t := Step(v, ClientReceives(p));
         && p in t.polls
         && (if t.polls[p].stage.Asked? || w.hub.last.None? then t.history == v.history
             else Entered(t, w.hub.last.value))
  {
    var u := Step(w, BrokerReplies(p));
    PollWaits(u, es, p);
    var v := After(u, es);
    hide After;
    hide ValidRun;
    hide Good;
    TakingEnters(v, p);
    hide ClientReceived;
  }

  lemma TakingEnters(v: World, p: PollId)
    requires Enabled(v, ClientReceives(p))
    ensures var (t, last) := (Step(v, ClientReceives(p)), v.polls[p].stage.reply.last);
      && p in t.polls
      && (if t.polls[p].stage.Asked? || last.None? then t.history == v.history else Entered(t, last.value))
  {
    var reply := v.polls[p].stage.reply;
    hide Expanded;
    hide Misses;
    hide Relay;
    hide CacheAfter;
    if reply.last.Some? {
      SummaryTells(reply.last.value, ViewOf(CacheAfter(v.cache, reply), reply.last.value.id));
      hide Summarize;
    }
  }
}
