/** What a run of the driver leaves in the ticket's file, and the code it exits with. */
module TicketRecords {
  import opened JsText
  import opened Orchestrator
  import opened TicketDriver
  import opened TicketCrashes

  /** The selection keeps the given order; no names mean all, and an unknown one stops the run. */
  lemma SelectionIs(all: seq<string>, subset: seq<string>)
    ensures SelectRepos(all, subset).None? <==> exists n <- subset :: n !in all
    ensures SelectRepos(all, subset).Some? ==> SelectRepos(all, subset).value == if subset == [] then all else subset
  {
  }

  /** A new ticket is described by its arguments; a stored one keeps everything but perhaps its
      instruction, which is the given one exactly while nothing is published. */
  lemma BegunIs(file: Option<TicketState>, args: Args)
    requires Accepted(args)
    ensures var s := Begun(file, args).0;
      match file
      case None => s == TicketState(args.ticket, args.instruction, args.branch, args.purpose, map[])
      case Some(f) =>
        && (s.ticket, s.branch, s.purpose, s.repos) == (f.ticket, f.branch, f.purpose, f.repos)
        && s.instruction == if NothingPublished(f) then args.instruction else f.instruction
  {
  }

  /** Everything before the k-th repository was published. */
  predicate Reached(results: Results, lo: nat, k: nat) {
    forall j: nat | lo <= j < k :: results(j).outcome == Published
  }

  /** The same ticket, and the same record of every repository that is not on the list. */
  ghost predicate SameBut(s: TicketState, t: TicketState, todo: seq<string>) {
    && (t.ticket, t.instruction, t.branch, t.purpose) == (s.ticket, s.instruction, s.branch, s.purpose)
    && (forall r :: r in t.repos <==> r in s.repos || r in todo)
    && (forall r | r in s.repos && r !in todo :: t.repos[r] == s.repos[r])
  }

  lemma {:induction false} MarkedRecords(s: TicketState, todo: seq<string>, r: RepoResult)
    ensures var t := Marked(s, todo, r).0;
      SameBut(s, t, todo) && forall n <- todo :: t.repos[n] == r
    decreases |todo|
  {
    if todo != [] {
      var s1 := WithRepo(s, todo[0], r);
      MarkedRecords(s1, todo[1..], r);
      assert todo == [todo[0]] + todo[1..];
    }
  }

  lemma {:induction false} PipelineRecords(s: TicketState, todo: seq<string>, i: nat, results: Results)
    requires i <= |todo| && Distinct(todo) && forall n <- todo :: n in s.repos
    ensures var f := FileAfter(Some(s), Pipeline(s, todo, i, results));
      && f.Some? && SameBut(s, f.value, todo)
      && (forall k | 0 <= k < i :: f.value.repos[todo[k]] == s.repos[todo[k]])
      && (forall k | i <= k < |todo| ::
           f.value.repos[todo[k]] == if Reached(results, i, k) then results(k) else s.repos[todo[k]])
    decreases |todo| - i
  {
    if i < |todo| {
      var s1 := WithRepo(s, todo[i], results(i));
      var pair := [Attempt(todo[i], s.instruction, results(i)), Save(s1)];
      var rest := if results(i).outcome == Published then Pipeline(s1, todo, i + 1, results) else [];
      assert Pipeline(s, todo, i, results) == pair + rest;
      FileAfterAppend(Some(s), pair, rest);
      PairSaves(s, pair[0], s1);
      PipelineRecords(s1, todo, i + 1, results);
      forall k | i <= k < |todo|
        ensures Reached(results, i, k) <==> k == i || (results(i).outcome == Published && Reached(results, i + 1, k))
      {
        assert k > i ==> (Reached(results, i, k) ==> results(i).outcome == Published);
      }
    }
  }

  lemma PairSaves(s: TicketState, attempt: Act, s1: TicketState)
    requires attempt.Attempt?
    ensures FileAfter(Some(s), [attempt, Save(s1)]) == Some(s1)
  {
    assert [attempt, Save(s1)][1..] == [Save(s1)] && [Save(s1)][1..] == [];
    assert FileAfter(Some(s), [attempt, Save(s1)]) == FileAfter(Some(s), [Save(s1)]);
    assert FileAfter(Some(s), [Save(s1)]) == FileAfter(Some(s1), []);
  }

  lemma SameButTwice(s: TicketState, t: TicketState, u: TicketState, todo: seq<string>)
    requires SameBut(s, t, todo) && SameBut(t, u, todo)
    ensures SameBut(s, u, todo)
  {
  }

  /** The file after a run's last stretch, from the state in which everything to do is pending. */
  lemma LastStretchRecords(
    s0: TicketState, s1: TicketState, todo: seq<string>, approved: bool, results: Results, last: seq<Act>)
    requires Distinct(todo) && s1 == Marked(s0, todo, PENDING_RESULT).0
    requires last == if approved then Pipeline(s1, todo, 0, results) else Marked(s1, todo, DECLINED_RESULT).1
    ensures var f := FileAfter(Some(s1), last);
      && f.Some? && SameBut(s0, f.value, todo)
      && forall k | 0 <= k < |todo| ::
           f.value.repos[todo[k]] ==
             if !approved then DECLINED_RESULT else if Reached(results, 0, k) then results(k) else PENDING_RESULT
  {
    MarkedRecords(s0, todo, PENDING_RESULT);
    var f;
    if approved {
      PipelineRecords(s1, todo, 0, results);
      f := FileAfter(Some(s1), last);
      hide Reached;
    } else {
      MarkedInFile(s1, todo, DECLINED_RESULT);
      MarkedRecords(s1, todo, DECLINED_RESULT);
      f := FileAfter(Some(s1), last);
    }
    hide Marked;
    hide Pipeline;
    hide FileAfter;
    SameButTwice(s0, s1, f.value, todo);
    hide SameBut;
  }

  /** What a run that is accepted and not cut short leaves behind: every repository it had to do is
      recorded as declined if the plan was, and otherwise with its own result as far as the run
      came and as pending from there on; nothing else changes. */
  lemma RunRecords(file: Option<TicketState>, args: Args, selected: seq<string>, approved: bool, results: Results)
    requires Accepted(args) && Distinct(selected)
    ensures var (s0, todo) := (Begun(file, args).0, Todo(Begun(file, args).0, selected));
      var f := FileAfter(file, RunActs(file, args, selected, approved, results));
      && f.Some? && SameBut(s0, f.value, todo)
      && forall k | 0 <= k < |todo| ::
           f.value.repos[todo[k]] ==
             if !approved then DECLINED_RESULT else if Reached(results, 0, k) then results(k) else PENDING_RESULT
  {
    var (s0, first) := Begun(file, args);
    var todo := Todo(s0, selected);
    BegunInFile(file, args);
    TodoOfDistinct(s0, selected);
    RunActsSpelledOut(file, args, selected, approved, results);
    hide RunActs;
    hide Begun;
    hide Todo;
    hide Marked;
    hide Pipeline;
    hide FileAfter;
    hide Reached;
    hide Distinct;
    if todo != [] {
      hide SameBut;
      var (s1, pending) := Marked(s0, todo, PENDING_RESULT);
      var last := if approved then Pipeline(s1, todo, 0, results) else Marked(s1, todo, DECLINED_RESULT).1;
      MarkedInFile(s0, todo, PENDING_RESULT);
      FileAfterAppend(file, first, pending);
      FileAfterAppend(file, first + pending, last);
      LastStretchRecords(s0, s1, todo, approved, results, last);
    }
  }

  /** The pipeline's code: 0 if everything was published or a human declined, 1 for any other stop. */
  lemma {:induction false} ExitCodeIs(todo: seq<string>, i: nat, results: Results)
    requires i <= |todo|
    ensures ExitCode(todo, i, results) == 0 <==>
      Reached(results, i, |todo|)
      || exists k: nat :: i <= k < |todo| && Reached(results, i, k) && results(k).outcome == Declined
    ensures ExitCode(todo, i, results) in {0, 1}
    decreases |todo| - i
  {
    if i < |todo| {
      assert Reached(results, i, i);
      if results(i).outcome == Published {
        ExitCodeIs(todo, i + 1, results);
        forall k: nat | i < k ensures Reached(results, i, k) <==> Reached(results, i + 1, k) {
        }
      } else {
        forall k: nat | i < k ensures !Reached(results, i, k) {
        }
      }
    }
  }
}
