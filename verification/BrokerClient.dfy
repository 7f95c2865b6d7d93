/** The client that sits between the browsers and the broker: its view cache and its history ring. */
module BrokerClient {
  import opened JsText
  import opened ApprovalHub

  const PENDING_CACHE_LIMIT := 20
  const HISTORY_LIMIT := 20

  datatype Summary = Summary(
    id: Id, decision: Decision, channel: Channel, decidedAt: int, title: string, org: string, repo: string,
    branch: string, shortSha: string, prUrl: Option<string>, ticket: Option<string>)

  // ---------------------------------------------------------------- the view cache, in insertion order

  function CacheIndex(cache: seq<Pending>, id: Id): (i: nat)
    ensures i <= |cache| && (i < |cache| ==> cache[i].id == id)
    ensures forall k | 0 <= k < i :: cache[k].id != id
  {
    if cache == [] || cache[0].id == id then 0 else 1 + CacheIndex(cache[1..], id)
  }

  function Lookup(cache: seq<Pending>, id: Id): Option<Pending> {
    var i := CacheIndex(cache, id);
    if i < |cache| then Some(cache[i]) else None
  }

  /** A known id is replaced where it stands; a new one goes last and may push out the oldest. */
  function Cached(cache: seq<Pending>, p: Pending): seq<Pending> {
    var i := CacheIndex(cache, p.id);
    if i < |cache| then cache[i := p]
    else if |cache| >= PENDING_CACHE_LIMIT then cache[1..] + [p]
    else cache + [p]
  }

  predicate DistinctIds(cache: seq<Pending>) {
    forall i, j | 0 <= i < j < |cache| :: cache[i].id != cache[j].id
  }

  lemma LookupAt(cache: seq<Pending>, k: nat)
    requires DistinctIds(cache) && k < |cache|
    ensures Lookup(cache, cache[k].id) == Some(cache[k])
  {
    var i := CacheIndex(cache, cache[k].id);
    assert i == k;
  }

  lemma NotThere(cache: seq<Pending>, id: Id)
    requires forall k | 0 <= k < |cache| :: cache[k].id != id
    ensures Lookup(cache, id) == None
  {
  }

  /** The cache answers with the newest entry, and forgets at most the oldest. */
  lemma CachedIsFound(cache: seq<Pending>, p: Pending, id: Id)
    requires DistinctIds(cache) && |cache| <= PENDING_CACHE_LIMIT
    ensures DistinctIds(Cached(cache, p)) && |Cached(cache, p)| <= PENDING_CACHE_LIMIT
    ensures Lookup(Cached(cache, p), p.id) == Some(p)
    ensures id != p.id && !(Lookup(cache, p.id).None? && |cache| == PENDING_CACHE_LIMIT && cache[0].id == id) ==>
      Lookup(Cached(cache, p), id) == Lookup(cache, id)
  {
    var after, i, k := Cached(cache, p), CacheIndex(cache, p.id), CacheIndex(cache, id);
    var dropped := if i == |cache| == PENDING_CACHE_LIMIT then 1 else 0;
    LookupAt(after, if i < |cache| then i else |after| - 1);
    if id != p.id && dropped <= k < |cache| {
      LookupAt(after, k - dropped);
    } else if id != p.id && k == |cache| {
      NotThere(after, id);
    }
  }

  // ---------------------------------------------------------------- the history ring

  function Summarize(o: Outcome, view: Option<View>): Summary {
    match view
    case Some(v) =>
      Summary(o.id, o.decision, o.channel, o.decidedAt,
              v.title, v.org, v.targetRepo, v.branch, v.shortSha, PrUrl(o), v.ticket)
    case None =>
      Summary(o.id, o.decision, o.channel, o.decidedAt, "", "", "", "", "", PrUrl(o), None)
  }

  function PrUrl(o: Outcome): Option<string> {
    match o.publish
    case Some(Published(prUrl)) => prUrl
    case _ => None
  }

  /** The newest entry is refreshed in place; another outcome goes in front of it. */
  function Noted(log: seq<Summary>, s: Summary): seq<Summary> {
    if log != [] && log[0].id == s.id then log[0 := s] else [s] + log
  }

  function Ring(log: seq<Summary>): seq<Summary> {
    if |log| > HISTORY_LIMIT then log[..HISTORY_LIMIT] else log
  }

  // ---------------------------------------------------------------- the client object

  datatype Received = Retry | Result(pending: Option<Pending>, last: Option<Outcome>, history: seq<Summary>)

  /** The view a summary is made from. */
  function ViewOf(cache: seq<Pending>, id: Id): Option<View> {
    match Lookup(cache, id)
    case Some(p) => Some(p.view)
    case None => None
  }

  function CacheAfter(cache: seq<Pending>, r: StatusReply): seq<Pending> {
    if r.pending.Full? then Cached(cache, r.pending.pending) else cache
  }

  /** An "unchanged" for an id that is not cached has to be asked again in full. */
  predicate Misses(cache: seq<Pending>, asked: Option<Id>, r: StatusReply) {
    r.pending.Unchanged? && (asked.None? || Lookup(cache, asked.value).None?)
  }

  function HistoryAfter(cache: seq<Pending>, history: seq<Summary>, r: StatusReply): seq<Summary> {
    if r.last.None? then history
    else Ring(Noted(history, Summarize(r.last.value, ViewOf(CacheAfter(cache, r), r.last.value.id))))
  }

  function Expanded(cache: seq<Pending>, asked: Option<Id>, r: StatusReply): Option<Pending>
    requires !Misses(cache, asked, r)
  {
    match r.pending
    case Full(p) => Some(p)
    case Unchanged => Lookup(cache, asked.value)
    case Nothing => None
  }

  class Client {
    var pendingCache: seq<Pending>
    var history: seq<Summary>

    constructor ()
      ensures pendingCache == [] && history == []
    {
      pendingCache, history := [], [];
    }

    method CachePending(p: Pending)
      modifies this
      ensures pendingCache == Cached(old(pendingCache), p) && history == old(history)
    {
      var i := CacheIndex(pendingCache, p.id);
      var has := i < |pendingCache|;
      if !has && |pendingCache| >= PENDING_CACHE_LIMIT {
        pendingCache := pendingCache[1..];
      }
      pendingCache := if has then pendingCache[i := p] else pendingCache + [p];
    }

    method RecordOutcome(o: Outcome)
      modifies this
      ensures pendingCache == old(pendingCache)
      ensures history == if |old(history)| <= HISTORY_LIMIT
        then Ring(Noted(old(history), Summarize(o, ViewOf(old(pendingCache), o.id)))) else history
    {
      var summary := Summarize(o, ViewOf(pendingCache, o.id));
      if history != [] && history[0].id == o.id {
        history := history[0 := summary];
        return;
      }
      history := [summary] + history;
      if |history| > HISTORY_LIMIT {
        history := history[..HISTORY_LIMIT];
      }
    }

    /** What status() does with a reply to a request that named `asked`. */
    method Receive(asked: Option<Id>, r: StatusReply) returns (result: Received)
      requires |history| <= HISTORY_LIMIT
      modifies this
      ensures Misses(old(pendingCache), asked, r) ==>
        result == Retry && pendingCache == old(pendingCache) && history == old(history)
      ensures !Misses(old(pendingCache), asked, r) ==>
        && pendingCache == CacheAfter(old(pendingCache), r)
        && history == HistoryAfter(old(pendingCache), old(history), r)
        && result == Result(Expanded(old(pendingCache), asked, r), r.last, history)
    {
      var expanded := None;
      match r.pending {
        case Unchanged =>
          if asked.Some? {
            expanded := Lookup(pendingCache, asked.value);
          }
          if expanded.None? {
            return Retry;
          }
        case Full(p) =>
          expanded := Some(p);
          CachePending(p);
        case Nothing =>
      }
      if r.last.Some? {
        RecordOutcome(r.last.value);
      }
      result := Result(expanded, r.last, history);
    }
  }

  // ---------------------------------------------------------------- the ring against an unbounded log

  /** All observations noted, without a bound. */
  function Unbounded(seen: seq<Summary>): seq<Summary> {
    if seen == [] then [] else Noted(Unbounded(seen[..|seen| - 1]), seen[|seen| - 1])
  }

  /** The ring after the same observations. */
  function RingOf(seen: seq<Summary>): seq<Summary> {
    if seen == [] then [] else Ring(Noted(RingOf(seen[..|seen| - 1]), seen[|seen| - 1]))
  }

  /** The ring is the front of the unbounded log. */
  lemma {:induction false} RingIsFront(seen: seq<Summary>)
    ensures RingOf(seen) == Ring(Unbounded(seen))
  {
    if seen != [] {
      RingIsFront(seen[..|seen| - 1]);
    }
  }

  function Without(seen: seq<Summary>, id: Id): (rest: seq<Summary>)
    ensures |rest| <= |seen| && forall s <- rest :: s.id != id
  {
    if seen == [] then []
    else Without(seen[..|seen| - 1], id) + (if seen[|seen| - 1].id == id then [] else [seen[|seen| - 1]])
  }

  /** The distinct outcomes, newest first, each as it was last observed. */
  function Newest(seen: seq<Summary>): seq<Summary>
    decreases |seen|
  {
    if seen == [] then []
    else
      var s := seen[|seen| - 1];
      [s] + Newest(Without(seen[..|seen| - 1], s.id))
  }

  /** Nobody looks back: once another outcome has been observed, an older one never is again. */
  predicate Forward(seen: seq<Summary>) {
    forall i, j, k | 0 <= i < j < k < |seen| && seen[i].id == seen[k].id :: seen[j].id == seen[i].id
  }

  predicate DistinctSummaries(log: seq<Summary>) {
    forall i, j | 0 <= i < j < |log| :: log[i].id != log[j].id
  }

  predicate Has(seen: seq<Summary>, id: Id) {
    exists k | 0 <= k < |seen| :: seen[k].id == id
  }

  lemma UnboundedHead(seen: seq<Summary>)
    requires seen != []
    ensures Unbounded(seen) != [] && Unbounded(seen)[0] == seen[|seen| - 1]
  {
  }

  /** The log has the ids that were seen. */
  lemma {:induction false} UnboundedIds(seen: seq<Summary>, id: Id)
    ensures Has(Unbounded(seen), id) <==> Has(seen, id)
  {
    if seen != [] {
      var n := |seen| - 1;
      var before, s := seen[..n], seen[n];
      UnboundedIds(before, id);
      HasSnoc(before, s, id);
      assert seen == before + [s];
      var log := Unbounded(before);
      if log != [] && log[0].id == s.id {
        HasCons(log[0], log[1..], id);
        HasCons(s, log[1..], id);
        assert log == [log[0]] + log[1..] && Noted(log, s) == [s] + log[1..];
      } else {
        HasCons(s, log, id);
      }
    }
  }

  lemma HasCons(s: Summary, log: seq<Summary>, id: Id)
    ensures Has([s] + log, id) <==> s.id == id || Has(log, id)
  {
    if Has(log, id) {
      var k :| 0 <= k < |log| && log[k].id == id;
      assert ([s] + log)[k + 1].id == id;
    }
    if s.id == id {
      assert ([s] + log)[0].id == id;
    }
  }

  lemma HasSnoc(log: seq<Summary>, s: Summary, id: Id)
    ensures Has(log + [s], id) <==> s.id == id || Has(log, id)
  {
    if Has(log, id) {
      var k :| 0 <= k < |log| && log[k].id == id;
      assert (log + [s])[k].id == id;
    }
    if s.id == id {
      assert (log + [s])[|log|].id == id;
    }
  }

  lemma NotHas(log: seq<Summary>, id: Id, i: nat)
    requires i < |log| && !Has(log, id)
    ensures log[i].id != id
  {
  }

  lemma {:induction false} WithoutNone(seen: seq<Summary>, id: Id)
    requires !Has(seen, id)
    ensures Without(seen, id) == seen
  {
    if seen != [] {
      var n := |seen| - 1;
      assert seen == seen[..n] + [seen[n]];
      HasSnoc(seen[..n], seen[n], id);
      WithoutNone(seen[..n], id);
    }
  }

  lemma {:induction false} WithoutKeepsOrder(seen: seq<Summary>, id: Id, other: Id)
    ensures Has(Without(seen, id), other) ==> Has(seen, other)
  {
    if seen != [] {
      var n := |seen| - 1;
      assert seen == seen[..n] + [seen[n]];
      HasSnoc(seen[..n], seen[n], other);
      WithoutKeepsOrder(seen[..n], id, other);
      HasSnoc(Without(seen[..n], id), seen[n], other);
      assert Without(seen[..n], id) + [] == Without(seen[..n], id);
    }
  }

  lemma {:induction false} NewestIsDistinct(seen: seq<Summary>)
    ensures DistinctSummaries(Newest(seen))
    ensures forall id | Has(Newest(seen), id) :: Has(seen, id)
    decreases |seen|
  {
    if seen != [] {
      var n := |seen| - 1;
      var s := seen[n];
      var rest := Without(seen[..n], s.id);
      NewestIsDistinct(rest);
      forall id | Has(Newest(seen), id) ensures Has(seen, id) {
        HasCons(s, Newest(rest), id);
        WithoutKeepsOrder(seen[..n], s.id, id);
        HasSnoc(seen[..n], s, id);
        assert seen == seen[..n] + [s];
      }
      forall j | 0 <= j < |Newest(rest)| ensures Newest(rest)[j].id != s.id {
        assert Has(Newest(rest), Newest(rest)[j].id);
      }
    }
  }

  /** Nobody looks back as long as the next outcome is the last one again, or a new one. */
  lemma ForwardSnoc(before: seq<Summary>, s: Summary)
    ensures Forward(before + [s]) <==>
      Forward(before) && ((before != [] && before[|before| - 1].id == s.id) || !Has(before, s.id))
  {
    var seen, n := before + [s], |before|;
    if Forward(seen) {
      forall i, j, k | 0 <= i < j < k < n && before[i].id == before[k].id ensures before[j].id == before[i].id {
        assert seen[i] == before[i] && seen[j] == before[j] && seen[k] == before[k];
      }
      if Has(before, s.id) {
        var i :| 0 <= i < n && before[i].id == s.id;
        assert seen[i].id == seen[n].id;
        assert i < n - 1 ==> seen[n - 1].id == seen[i].id;
      }
    }
    if Forward(before) && before != [] && before[n - 1].id == s.id {
      forall i, j, k | 0 <= i < j < k < |seen| && seen[i].id == seen[k].id ensures seen[j].id == seen[i].id {
        if k == n && j < n - 1 {
          assert before[i].id == before[n - 1].id;
        }
      }
    }
    if Forward(before) && !Has(before, s.id) {
      forall i, j, k | 0 <= i < j < k < |seen| && seen[i].id == seen[k].id ensures seen[j].id == seen[i].id {
        NotHas(before, s.id, i);
        assert seen[i] == before[i];
      }
    }
  }

  /** Without looking back, and only then, the log is the distinct outcomes, newest first. */
  lemma {:induction false} LogIsNewestIff(seen: seq<Summary>)
    ensures Forward(seen) <==> Unbounded(seen) == Newest(seen)
    ensures Forward(seen) <==> DistinctSummaries(Unbounded(seen))
  {
    NewestIsDistinct(seen);
    if seen != [] {
      var n := |seen| - 1;
      var before, s := seen[..n], seen[n];
      assert seen == before + [s];
      LogIsNewestIff(before);
      ForwardSnoc(before, s);
      LogStep(before, s);
    }
  }

  lemma LogStep(before: seq<Summary>, s: Summary)
    requires Forward(before) <==> Unbounded(before) == Newest(before)
    requires Forward(before) <==> DistinctSummaries(Unbounded(before))
    ensures var seen := before + [s];
      && (Forward(seen) ==> Unbounded(seen) == Newest(seen))
      && (DistinctSummaries(Unbounded(seen)) ==> Forward(seen))
  {
    hide Newest;
    hide Unbounded;
    hide Forward;
    hide Has;
    hide DistinctSummaries;
    hide Without;
    var log := Unbounded(before);
    ForwardSnoc(before, s);
    NewestSnoc(before, s);
    UnboundedSnoc(before, s);
    if before == [] {
      NothingIsSeen(s);
    } else {
      UnboundedHead(before);
      if log[0].id == s.id {
        SameBlock(before, s);
        SameIdsDistinct(log, s);
      } else {
        UnboundedIds(before, s.id);
        ConsDistinct(s, log);
        if !Has(before, s.id) { WithoutNone(before, s.id); }
      }
    }
  }

  lemma UnboundedSnoc(before: seq<Summary>, s: Summary)
    ensures Unbounded(before + [s]) == Noted(Unbounded(before), s)
    ensures Unbounded(before) != [] && Unbounded(before)[0].id == s.id ==>
      Unbounded(before + [s]) == [s] + Unbounded(before)[1..]
  {
    assert (before + [s])[..|before|] == before;
  }

  lemma NothingIsSeen(s: Summary)
    ensures Unbounded([]) == [] && Newest(Without([], s.id)) == [] && !Has([], s.id) && Forward([])
  {
  }

  lemma SameBlock(before: seq<Summary>, s: Summary)
    requires before != [] && before[|before| - 1].id == s.id
    ensures Newest(before + [s]) == [s] + Newest(before)[1..]
  {
    hide Newest;
    hide Without;
    var n := |before| - 1;
    NewestSnoc(before, s);
    NewestSnoc(before[..n], before[n]);
    WithoutSnoc(before[..n], before[n], s.id);
    assert before == before[..n] + [before[n]];
  }

  lemma NewestSnoc(before: seq<Summary>, s: Summary)
    ensures Newest(before + [s]) == [s] + Newest(Without(before, s.id))
  {
    assert (before + [s])[..|before|] == before;
  }

  lemma WithoutSnoc(before: seq<Summary>, s: Summary, id: Id)
    ensures Without(before + [s], id) == if s.id == id then Without(before, id) else Without(before, id) + [s]
  {
    assert (before + [s])[..|before|] == before;
  }

  lemma SameIdsDistinct(log: seq<Summary>, s: Summary)
    requires log != [] && log[0].id == s.id
    ensures DistinctSummaries([s] + log[1..]) ==> DistinctSummaries(log)
  {
    var after := [s] + log[1..];
    assert forall i | 0 <= i < |log| :: after[i].id == log[i].id;
  }

  lemma ConsDistinct(s: Summary, log: seq<Summary>)
    ensures DistinctSummaries([s] + log) ==> DistinctSummaries(log) && !Has(log, s.id)
  {
    var after := [s] + log;
    if DistinctSummaries(after) {
      assert forall i | 0 <= i < |log| :: after[i + 1] == log[i] && after[i + 1].id != after[0].id;
    }
  }

  /** The ring is the newest distinct outcomes, as many as it holds, each as last observed. */
  lemma RingIsNewest(seen: seq<Summary>)
    requires Forward(seen)
    ensures RingOf(seen) == Ring(Newest(seen)) && DistinctSummaries(RingOf(seen))
  {
    RingIsFront(seen);
    LogIsNewestIff(seen);
  }
}
