/** The broker's single record of what is pending and who decided it. */
module ApprovalHub {
  import opened JsText

  type Id = string

  datatype Channel = Tty | Socket
  datatype Decision = Approved | Declined | Canceled

  /** What the human is shown; the commit, the constructed URL and the branch are what a push
      would use. The reviewer's verdict is advice, or none; `rest` stands for the remaining
      display fields. */
  datatype View = View(repo: string, ticket: Option<string>, branch: string, headSha: string, shortSha: string,
                       title: string, org: string, targetRepo: string, url: string, diff: string,
                       reviewerVerdict: Option<string>, rest: string)

  datatype Pending = Pending(id: Id, startedAt: int, attemptsLeft: int, view: View)

  datatype PublishOutcome = Published(prUrl: Option<string>) | PublishFailed(error: string)

  datatype Outcome = Outcome(
    id: Id, decision: Decision, channel: Channel, decidedAt: int, publish: Option<PublishOutcome>)

  /** The pending request with the flag set by the socket operation that decides it. */
  datatype Entry = Entry(wire: Pending, resolved: bool)

  datatype State = State(pending: Option<Entry>, last: Option<Outcome>)

  const ATTEMPTS_INIT := 3

  datatype PendingReply = Full(pending: Pending) | Unchanged | Nothing

  datatype StatusReply = StatusReply(pending: PendingReply, last: Option<Outcome>)

  /** Answers to the two socket operations. */
  datatype Reply = OkApproved | OkDeclined | Exhausted | NoPending | StaleId | ShaMismatch(attemptsLeft: int)

  datatype Op = Approve(id: Id, sha: string) | Decline(id: Id)

  /** The vote a reply casts on the pending request, if it casts one. */
  function Vote(r: Reply): Option<bool> {
    match r
    case OkApproved => Some(true)
    case OkDeclined => Some(false)
    case Exhausted => Some(false)
    case _ => None
  }

  // ----- the operations as functions of the state -----

  function StatusOf(s: State, known: Option<Id>): StatusReply {
    match s.pending
    case None => StatusReply(Nothing, s.last)
    case Some(e) => StatusReply(if known == Some(e.wire.id) then Unchanged else Full(e.wire), s.last)
  }

  function Answer(s: State, op: Op): Reply {
    if s.pending.None? || s.pending.value.resolved then NoPending
    else
      var w := s.pending.value.wire;
      if w.id != op.id then StaleId
      else if op.Decline? then OkDeclined
      else if Trim(op.sha) == w.view.shortSha then OkApproved
      else if w.attemptsLeft - 1 <= 0 then Exhausted
      else ShaMismatch(w.attemptsLeft - 1)
  }

  function Submit(s: State, op: Op): State {
    match Answer(s, op)
    case NoPending => s
    case StaleId => s
    case ShaMismatch(left) =>
      s.(pending := Some(s.pending.value.(wire := s.pending.value.wire.(attemptsLeft := left))))
    case Exhausted =>
      s.(pending := Some(Entry(s.pending.value.wire.(attemptsLeft := s.pending.value.wire.attemptsLeft - 1), true)))
    case _ =>
      s.(pending := Some(s.pending.value.(resolved := true)))
  }

  function Register(s: State, id: Id, startedAt: int, view: View): State {
    s.(pending := Some(Entry(Pending(id, startedAt, ATTEMPTS_INIT, view), false)))
  }

  function Settle(s: State, id: Id, decision: Decision, channel: Channel, at: int): State {
    State(None, Some(Outcome(id, decision, channel, at, None)))
  }

  function Report(s: State, result: PublishOutcome): State {
    if s.last.Some? && s.last.value.decision == Approved
    then s.(last := Some(s.last.value.(publish := Some(result))))
    else s
  }

  // ----- the class -----

  class Hub {
    var pending: Option<Entry>
    var last: Option<Outcome>

    function Current(): State
      reads this
    {
      State(pending, last)
    }

    constructor ()
      ensures Current() == State(None, None)
    {
      pending, last := None, None;
    }

    method Status(known: Option<Id>) returns (r: StatusReply)
      ensures r == StatusOf(Current(), known)
    {
      if pending.None? { return StatusReply(Nothing, last); }
      if known.Some? && known.value == pending.value.wire.id { return StatusReply(Unchanged, last); }
      r := StatusReply(Full(pending.value.wire), last);
    }

    method SubmitApprove(id: Id, sha: string) returns (r: Reply)
      modifies this
      ensures r == Answer(old(Current()), Approve(id, sha)) && Current() == Submit(old(Current()), Approve(id, sha))
    {
      if pending.None? || pending.value.resolved { return NoPending; }
      if pending.value.wire.id != id { return StaleId; }
      if Trim(sha) == pending.value.wire.view.shortSha {
        Resolve();
        return OkApproved;
      }
      pending := Some(pending.value.(wire := pending.value.wire.(attemptsLeft := pending.value.wire.attemptsLeft - 1)));
      if pending.value.wire.attemptsLeft <= 0 {
        Resolve();
        return Exhausted;
      }
      r := ShaMismatch(pending.value.wire.attemptsLeft);
    }

    method SubmitDecline(id: Id) returns (r: Reply)
      modifies this
      ensures r == Answer(old(Current()), Decline(id)) && Current() == Submit(old(Current()), Decline(id))
    {
      if pending.None? || pending.value.resolved { return NoPending; }
      if pending.value.wire.id != id { return StaleId; }
      Resolve();
      r := OkDeclined;
    }

    method Resolve()
      modifies this
      ensures last == old(last)
      ensures pending == if old(pending).Some? then Some(old(pending).value.(resolved := true)) else None
    {
      if pending.None? || pending.value.resolved { return; }
      pending := Some(pending.value.(resolved := true));
    }

    method ReportOutcome(result: PublishOutcome)
      modifies this
      ensures Current() == Report(old(Current()), result)
    {
      if last.Some? && last.value.decision == Approved {
        last := Some(last.value.(publish := Some(result)));
      }
    }
  }

  // ----- what a whole series of socket operations can do to one pending request -----

  /** The state after a series of operations, and the answers given. */
  function SubmitAll(s: State, ops: seq<Op>): State
    decreases |ops|
  {
    if ops == [] then s else SubmitAll(Submit(s, ops[0]), ops[1..])
  }

  function Answers(s: State, ops: seq<Op>): seq<Reply>
    decreases |ops|
  {
    if ops == [] then [] else [Answer(s, ops[0])] + Answers(Submit(s, ops[0]), ops[1..])
  }

  /** The operations that address this id with a sha other than the one shown. */
  function Mismatches(w: Pending, ops: seq<Op>): nat {
    if ops == [] then 0
    else
      (if ops[0].Approve? && ops[0].id == w.id && Trim(ops[0].sha) != w.view.shortSha then 1 else 0)
      + Mismatches(w, ops[1..])
  }

  /** The vote the operations add up to, read off the list alone: the first one for this id
      that declines, names the sha, or is the last mismatch allowed. */
  function Verdict(w: Pending, ops: seq<Op>, allowed: int): Option<bool>
    decreases |ops|
  {
    if ops == [] then None
    else if ops[0].id != w.id then Verdict(w, ops[1..], allowed)
    else if ops[0].Decline? then Some(false)
    else if Trim(ops[0].sha) == w.view.shortSha then Some(true)
    else if allowed <= 1 then Some(false)
    else Verdict(w, ops[1..], allowed - 1)
  }

  /** How many of the answers cast a vote. */
  function Votes(rs: seq<Reply>): nat {
    if rs == [] then 0 else (if Vote(rs[0]).Some? then 1 else 0) + Votes(rs[1..])
  }

  lemma {:induction false} AfterTheVote(s: State, ops: seq<Op>)
    requires s.pending.Some? && s.pending.value.resolved
    ensures SubmitAll(s, ops) == s
    ensures forall r <- Answers(s, ops) :: r == NoPending
    ensures Votes(Answers(s, ops)) == 0
  {
    if ops != [] {
      AfterTheVote(s, ops[1..]);
    }
  }

  /** Over any series of operations at most one is accepted as final, it is the one the list
      itself dictates, and until then the attempts left are those given minus the mismatches. */
  lemma {:induction false} OneVotePerPending(s: State, ops: seq<Op>)
    requires s.pending.Some? && !s.pending.value.resolved && s.pending.value.wire.attemptsLeft >= 1
    ensures var (w, t) := (s.pending.value.wire, SubmitAll(s, ops));
      var verdict := Verdict(w, ops, w.attemptsLeft);
      && t.pending.Some? && t.pending.value.wire.id == w.id && t.pending.value.wire.view == w.view && t.last == s.last
      && t.pending.value.resolved == verdict.Some?
      && Votes(Answers(s, ops)) == (if verdict.Some? then 1 else 0)
      && (forall r <- Answers(s, ops) :: Vote(r).Some? ==> Vote(r) == verdict)
      && (verdict.None? ==> t.pending.value.wire.attemptsLeft == w.attemptsLeft - Mismatches(w, ops) >= 1)
    decreases |ops|
  {
    if ops != [] {
      var s' := Submit(s, ops[0]);
      if s'.pending.value.resolved {
        AfterTheVote(s', ops[1..]);
      } else {
        OneVotePerPending(s', ops[1..]);
        SameId(s.pending.value.wire, s'.pending.value.wire, ops[1..]);
      }
    }
  }

  lemma {:induction false} SameId(w: Pending, w': Pending, ops: seq<Op>)
    requires w.id == w'.id && w.view == w'.view
    ensures Mismatches(w, ops) == Mismatches(w', ops)
    ensures forall n :: Verdict(w, ops, n) == Verdict(w', ops, n)
    decreases |ops|
  {
    if ops != [] {
      SameId(w, w', ops[1..]);
    }
  }

  /** A freshly registered request: it is approved by the socket only through its own id and
      its own short sha, within three attempts. */
  lemma FreshRequestVerdict(s: State, id: Id, at: int, view: View, ops: seq<Op>)
    ensures var (t, s0) := (SubmitAll(Register(s, id, at, view), ops), Register(s, id, at, view));
      var w := s0.pending.value.wire;
      && t.pending.Some?
      && (t.pending.value.resolved <==> Verdict(w, ops, 3).Some?)
      && (Verdict(w, ops, 3) == Some(true) ==>
            exists k | 0 <= k < |ops| ::
              ops[k].Approve? && ops[k].id == id && Trim(ops[k].sha) == view.shortSha && Mismatches(w, ops[..k]) < 3
              && forall j | 0 <= j < k :: ops[j] != Decline(id))
      && (!t.pending.value.resolved ==> t.pending.value.wire.attemptsLeft == 3 - Mismatches(w, ops))
  {
    var s0 := Register(s, id, at, view);
    OneVotePerPending(s0, ops);
    if Verdict(s0.pending.value.wire, ops, 3) == Some(true) {
      var k := ApprovedBy(s0.pending.value.wire, ops, 3);
    }
  }

  lemma {:induction false} ApprovedBy(w: Pending, ops: seq<Op>, allowed: int) returns (k: nat)
    requires Verdict(w, ops, allowed) == Some(true) && allowed >= 1
    ensures k < |ops| && ops[k].Approve? && ops[k].id == w.id && Trim(ops[k].sha) == w.view.shortSha
    ensures Mismatches(w, ops[..k]) < allowed
    ensures forall j | 0 <= j < k :: ops[j] != Decline(w.id)
    decreases |ops|
  {
    if ops[0].id == w.id && ops[0].Approve? && Trim(ops[0].sha) == w.view.shortSha {
      k := 0;
    } else {
      var mismatch := ops[0].id == w.id;
      var i := ApprovedBy(w, ops[1..], if mismatch then allowed - 1 else allowed);
      k := i + 1;
      assert ops[..k][1..] == ops[1..][..i];
      assert Mismatches(w, ops[..k]) == (if mismatch then 1 else 0) + Mismatches(w, ops[1..][..i]);
      assert forall j | 1 <= j < k :: ops[j] == ops[1..][j - 1];
    }
  }
}
