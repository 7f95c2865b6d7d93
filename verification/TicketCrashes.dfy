/** What a crash of the driver can forget, and what it cannot. */
module TicketCrashes {
  import opened JsText
  import opened Orchestrator
  import opened TicketDriver

  // ---------------------------------------------------------------- an attempt and its save

  /** Every attempt is followed by the save that records it. */
  predicate AttemptsSaved(acts: seq<Act>) {
    forall k | 0 <= k < |acts| && acts[k].Attempt? :: k + 1 < |acts| && Records(acts[k + 1], acts[k])
  }

  predicate Records(save: Act, attempt: Act) {
    save.Save? && attempt.Attempt?
    && attempt.repo in save.state.repos && save.state.repos[attempt.repo] == attempt.result
  }

  lemma SavedAppend(xs: seq<Act>, ys: seq<Act>)
    requires AttemptsSaved(xs) && AttemptsSaved(ys)
    ensures AttemptsSaved(xs + ys)
  {
    var all := xs + ys;
    forall k | 0 <= k < |all| && all[k].Attempt? ensures k + 1 < |all| && Records(all[k + 1], all[k]) {
      if k < |xs| {
        assert all[k] == xs[k] && all[k + 1] == xs[k + 1];
      } else {
        assert all[k] == ys[k - |xs|];
        assert all[k + 1] == ys[k - |xs| + 1];
      }
    }
  }

  lemma SavesAreSaved(acts: seq<Act>)
    requires OnlySaves(acts)
    ensures AttemptsSaved(acts)
  {
  }

  lemma {:induction false} PipelineIsSaved(s: TicketState, todo: seq<string>, i: nat, results: Results)
    requires i <= |todo|
    ensures AttemptsSaved(Pipeline(s, todo, i, results))
    decreases |todo| - i
  {
    if i < |todo| {
      var s1 := WithRepo(s, todo[i], results(i));
      var pair := [Attempt(todo[i], s.instruction, results(i)), Save(s1)];
      var rest := if results(i).outcome == Published then Pipeline(s1, todo, i + 1, results) else [];
      PipelineIsSaved(s1, todo, i + 1, results);
      assert AttemptsSaved(pair) by { assert Records(pair[1], pair[0]); }
      SavedAppend(pair, rest);
      assert Pipeline(s, todo, i, results) == pair + rest;
    }
  }

  /** A run that is not cut short records every attempt. */
  lemma RunIsSaved(file: Option<TicketState>, args: Args, selected: seq<string>, approved: bool, results: Results)
    ensures AttemptsSaved(RunActs(file, args, selected, approved, results))
  {
    hide AttemptsSaved;
    hide Pipeline;
    hide Marked;
    hide Todo;
    var (s0, first) := Begun(file, args);
    var todo := Todo(s0, selected);
    SavesAreSaved(first);
    SavesAreSaved([]);
    if Accepted(args) && todo != [] {
      var (s1, pending) := Marked(s0, todo, PENDING_RESULT);
      MarkedOnlySaves(s0, todo, PENDING_RESULT);
      SavesAreSaved(pending);
      MarkedOnlySaves(s1, todo, DECLINED_RESULT);
      SavesAreSaved(Marked(s1, todo, DECLINED_RESULT).1);
      PipelineIsSaved(s1, todo, 0, results);
      SavedAppend(first, pending);
      SavedAppend(
        first + pending,
        if approved then Pipeline(s1, todo, 0, results) else Marked(s1, todo, DECLINED_RESULT).1);
    }
  }

  // ---------------------------------------------------------------- attempts go by the stored instruction

  /** Every attempt is made under the instruction the file holds. */
  predicate ByTheFile(file: Option<TicketState>, acts: seq<Act>)
    decreases |acts|
  {
    acts == [] ||
    (match acts[0]
     case Save(s) => ByTheFile(Some(s), acts[1..])
     case Attempt(_, instruction, _) =>
       file.Some? && file.value.instruction == instruction && ByTheFile(file, acts[1..]))
  }

  lemma {:induction false} ByTheFileAppend(file: Option<TicketState>, xs: seq<Act>, ys: seq<Act>)
    ensures ByTheFile(file, xs + ys) <==> ByTheFile(file, xs) && ByTheFile(FileAfter(file, xs), ys)
    decreases |xs|
  {
    if xs == [] {
      assert xs + ys == ys;
    } else {
      assert (xs + ys)[0] == xs[0] && (xs + ys)[1..] == xs[1..] + ys;
      ByTheFileAppend(if xs[0].Save? then Some(xs[0].state) else file, xs[1..], ys);
    }
  }

  lemma {:induction false} SavesGoByTheFile(file: Option<TicketState>, acts: seq<Act>)
    requires OnlySaves(acts)
    ensures ByTheFile(file, acts)
    decreases |acts|
  {
    if acts != [] {
      SavesGoByTheFile(Some(acts[0].state), acts[1..]);
    }
  }

  lemma {:induction false} PipelineGoesByTheFile(s: TicketState, todo: seq<string>, i: nat, results: Results)
    requires i <= |todo|
    ensures ByTheFile(Some(s), Pipeline(s, todo, i, results))
    decreases |todo| - i
  {
    if i < |todo| {
      var s1 := WithRepo(s, todo[i], results(i));
      var a, b := Attempt(todo[i], s.instruction, results(i)), Save(s1);
      var rest := if results(i).outcome == Published then Pipeline(s1, todo, i + 1, results) else [];
      PipelineGoesByTheFile(s1, todo, i + 1, results);
      var acts := Pipeline(s, todo, i, results);
      assert acts == [a, b] + rest && acts[1..] == [b] + rest && acts[1..][1..] == rest;
    }
  }

  lemma {:induction false} MarkedInFile(s: TicketState, todo: seq<string>, r: RepoResult)
    ensures FileAfter(Some(s), Marked(s, todo, r).1) == Some(Marked(s, todo, r).0)
    decreases |todo|
  {
    if todo != [] {
      var s1 := WithRepo(s, todo[0], r);
      MarkedInFile(s1, todo[1..], r);
      var acts := Marked(s, todo, r).1;
      assert acts[0] == Save(s1) && acts[1..] == Marked(s1, todo[1..], r).1;
    }
  }

  lemma BegunInFile(file: Option<TicketState>, args: Args)
    ensures FileAfter(file, Begun(file, args).1) == Some(Begun(file, args).0) && OnlySaves(Begun(file, args).1)
  {
    var (s, acts) := Begun(file, args);
    if acts != [] {
      assert acts == [Save(s)] && acts[1..] == [];
    }
  }

  lemma RunGoesByTheFile(
    file: Option<TicketState>, args: Args, selected: seq<string>, approved: bool, results: Results)
    ensures ByTheFile(file, RunActs(file, args, selected, approved, results))
  {
    hide ByTheFile;
    hide Begun;
    hide Pipeline;
    hide Marked;
    hide Todo;
    var (s0, first) := Begun(file, args);
    var todo := Todo(s0, selected);
    BegunInFile(file, args);
    SavesGoByTheFile(file, first);
    SavesGoByTheFile(file, []);
    if Accepted(args) && todo != [] {
      var (s1, pending) := Marked(s0, todo, PENDING_RESULT);
      MarkedOnlySaves(s0, todo, PENDING_RESULT);
      MarkedInFile(s0, todo, PENDING_RESULT);
      SavesGoByTheFile(Some(s0), pending);
      ByTheFileAppend(file, first, pending);
      FileAfterAppend(file, first, pending);
      MarkedOnlySaves(s1, todo, DECLINED_RESULT);
      SavesGoByTheFile(Some(s1), Marked(s1, todo, DECLINED_RESULT).1);
      PipelineGoesByTheFile(s1, todo, 0, results);
      ByTheFileAppend(
        file, first + pending,
        if approved then Pipeline(s1, todo, 0, results) else Marked(s1, todo, DECLINED_RESULT).1);
    }
  }

  lemma {:induction false} HistoryGoesByTheFile(file: Option<TicketState>, runs: seq<Run>)
    ensures ByTheFile(file, History(file, runs))
    decreases |runs|
  {
    hide ByTheFile;
    hide RunActs;
    if runs == [] {
      SavesGoByTheFile(file, []);
    } else {
      var all, acts := WholeRun(file, runs[0]), ActsOf(file, runs[0]);
      RunGoesByTheFile(file, runs[0].args, runs[0].selected, runs[0].approved, runs[0].results);
      assert acts + all[|acts|..] == all;
      ByTheFileAppend(file, acts, all[|acts|..]);
      HistoryGoesByTheFile(FileAfter(file, acts), runs[1..]);
      ByTheFileAppend(file, acts, History(FileAfter(file, acts), runs[1..]));
    }
  }

  // ---------------------------------------------------------------- the file names its ticket

  predicate FileNamed(file: Option<TicketState>) {
    file.Some? ==> file.value.ticket != ""
  }

  predicate SavesNamed(acts: seq<Act>) {
    forall a <- acts | a.Save? :: a.state.ticket != ""
  }

  lemma {:induction false} MarkedIsNamed(s: TicketState, todo: seq<string>, r: RepoResult)
    requires s.ticket != ""
    ensures SavesNamed(Marked(s, todo, r).1) && Marked(s, todo, r).0.ticket == s.ticket
    decreases |todo|
  {
    if todo != [] {
      MarkedIsNamed(WithRepo(s, todo[0], r), todo[1..], r);
    }
  }

  lemma {:induction false} PipelineIsNamed(s: TicketState, todo: seq<string>, i: nat, results: Results)
    requires i <= |todo| && s.ticket != ""
    ensures SavesNamed(Pipeline(s, todo, i, results))
    decreases |todo| - i
  {
    if i < |todo| {
      PipelineIsNamed(WithRepo(s, todo[i], results(i)), todo, i + 1, results);
    }
  }

  lemma RunIsNamed(file: Option<TicketState>, args: Args, selected: seq<string>, approved: bool, results: Results)
    requires FileNamed(file)
    ensures SavesNamed(RunActs(file, args, selected, approved, results))
  {
    hide Todo;
    hide Marked;
    hide Pipeline;
    var (s0, first) := Begun(file, args);
    var todo := Todo(s0, selected);
    if Accepted(args) {
      MarkedIsNamed(s0, todo, PENDING_RESULT);
      var s1 := Marked(s0, todo, PENDING_RESULT).0;
      MarkedIsNamed(s1, todo, DECLINED_RESULT);
      PipelineIsNamed(s1, todo, 0, results);
    }
  }

  lemma {:induction false} FileStaysNamed(file: Option<TicketState>, acts: seq<Act>)
    requires FileNamed(file) && SavesNamed(acts)
    ensures FileNamed(FileAfter(file, acts))
    decreases |acts|
  {
    if acts != [] {
      FileStaysNamed(if acts[0].Save? then Some(acts[0].state) else file, acts[1..]);
    }
  }

  lemma {:induction false} HistoryIsNamed(file: Option<TicketState>, runs: seq<Run>)
    requires FileNamed(file)
    ensures FileNamed(FileAfter(file, History(file, runs)))
    decreases |runs|
  {
    if runs != [] {
      var acts := ActsOf(file, runs[0]);
      RunIsNamed(file, runs[0].args, runs[0].selected, runs[0].approved, runs[0].results);
      HistoryCons(file, runs);
      hide History;
      hide RunActs;
      FileStaysNamed(file, acts);
      HistoryIsNamed(FileAfter(file, acts), runs[1..]);
      FileAfterAppend(file, acts, History(FileAfter(file, acts), runs[1..]));
    }
  }

  // ---------------------------------------------------------------- histories, cut and continued

  /** What a run would do, and what it does before it is cut short. */
  function WholeRun(file: Option<TicketState>, r: Run): seq<Act> {
    RunActs(file, r.args, r.selected, r.approved, r.results)
  }

  function ActsOf(file: Option<TicketState>, r: Run): seq<Act> {
    Cut(WholeRun(file, r), r.cut)
  }

  lemma HistoryCons(file: Option<TicketState>, runs: seq<Run>)
    requires runs != []
    ensures var acts := ActsOf(file, runs[0]);
      History(file, runs) == acts + History(FileAfter(file, acts), runs[1..])
  {
    hide RunActs;
  }

  lemma {:induction false} HistoryAppend(file: Option<TicketState>, runs: seq<Run>, more: seq<Run>)
    ensures History(file, runs + more) == History(file, runs) + History(FileAfter(file, History(file, runs)), more)
    decreases |runs|
  {
    hide RunActs;
    if runs == [] {
      assert runs + more == more;
      assert [] + History(file, more) == History(file, more);
    } else {
      var acts := ActsOf(file, runs[0]);
      var file1 := FileAfter(file, acts);
      assert (runs + more)[0] == runs[0] && (runs + more)[1..] == runs[1..] + more;
      HistoryCons(file, runs);
      HistoryCons(file, runs + more);
      HistoryAppend(file1, runs[1..], more);
      FileAfterAppend(file, acts, History(file1, runs[1..]));
    }
  }

  /** The run that did the i-th act was cut right after it. */
  predicate CutRightAfter(file: Option<TicketState>, runs: seq<Run>, i: nat)
    decreases |runs|
  {
    runs != [] &&
    var acts := ActsOf(file, runs[0]);
    if i < |acts| then runs[0].cut == i + 1
    else CutRightAfter(FileAfter(file, acts), runs[1..], i - |acts|)
  }

  /** What comes after an attempt: the later runs if its own was cut there, else its record. */
  ghost predicate ContinuesWith(file: Option<TicketState>, runs: seq<Run>, i: nat, later: seq<Run>)
    requires i < |History(file, runs)|
  {
    var acts := History(file, runs);
    Continues(acts, i, CutRightAfter(file, runs, i), History(FileAfter(file, acts[..i + 1]), later))
  }

  ghost predicate Continues(acts: seq<Act>, i: nat, cut: bool, tail: seq<Act>)
    requires i < |acts|
  {
    if cut then acts[i + 1..] == tail else i + 1 < |acts| && Records(acts[i + 1], acts[i])
  }

  lemma {:induction false} AfterAnAttempt(file: Option<TicketState>, runs: seq<Run>, i: nat) returns (later: seq<Run>)
    requires i < |History(file, runs)| && History(file, runs)[i].Attempt?
    requires NoDuplicates(runs)
    ensures NoDuplicates(later) && ContinuesWith(file, runs, i, later)
    decreases |runs|
  {
    hide Distinct;
    hide ContinuesWith;
    hide CutRightAfter;
    hide RunActs;
    var acts := ActsOf(file, runs[0]);
    HistoryCons(file, runs);
    assert forall j | 0 <= j < |runs| - 1 :: runs[1..][j] == runs[j + 1];
    if i < |acts| {
      later := runs[1..];
      CutInFirstRun(file, runs, i);
    } else {
      later := AfterAnAttempt(FileAfter(file, acts), runs[1..], i - |acts|);
      CutInLaterRun(file, runs, i, later);
    }
  }

  lemma CutInFirstRun(file: Option<TicketState>, runs: seq<Run>, i: nat)
    requires runs != [] && i < |ActsOf(file, runs[0])| && i < |History(file, runs)| && History(file, runs)[i].Attempt?
    ensures ContinuesWith(file, runs, i, runs[1..])
  {
    var acts := ActsOf(file, runs[0]);
    var rest := History(FileAfter(file, acts), runs[1..]);
    HistoryCons(file, runs);
    Joined(acts, rest, i);
    InItsRun(file, runs[0], i);
    assert CutRightAfter(file, runs, i) <==> runs[0].cut == i + 1;
    hide History;
    hide ActsOf;
    hide FileAfter;
    hide Records;
    hide CutRightAfter;
  }

  lemma Joined(acts: seq<Act>, rest: seq<Act>, i: nat)
    requires i < |acts|
    ensures (acts + rest)[i] == acts[i] && (i + 1 < |acts| ==> (acts + rest)[i + 1] == acts[i + 1])
    ensures i + 1 == |acts| ==> (acts + rest)[..i + 1] == acts && (acts + rest)[i + 1..] == rest
  {
  }

  lemma CutInLaterRun(file: Option<TicketState>, runs: seq<Run>, i: nat, later: seq<Run>)
    requires runs != [] && |ActsOf(file, runs[0])| <= i < |History(file, runs)|
    requires var acts := ActsOf(file, runs[0]);
      i - |acts| < |History(FileAfter(file, acts), runs[1..])|
      && ContinuesWith(FileAfter(file, acts), runs[1..], i - |acts|, later)
    ensures ContinuesWith(file, runs, i, later)
  {
    hide History;
    hide ActsOf;
    hide FileAfter;
    hide Continues;
    hide CutRightAfter;
    var acts := ActsOf(file, runs[0]);
    var file1, k := FileAfter(file, acts), i - |acts|;
    var rest := History(file1, runs[1..]);
    HistoryCons(file, runs);
    FileBeyond(file, acts, rest, i);
    CutInRest(file, runs, i);
    ContinuesBeyond(acts, rest, i, CutRightAfter(file1, runs[1..], k), History(FileAfter(file1, rest[..k + 1]), later));
  }

  lemma CutInRest(file: Option<TicketState>, runs: seq<Run>, i: nat)
    requires runs != [] && |ActsOf(file, runs[0])| <= i
    ensures var acts := ActsOf(file, runs[0]);
      CutRightAfter(file, runs, i) <==> CutRightAfter(FileAfter(file, acts), runs[1..], i - |acts|)
  {
    hide ActsOf;
    hide FileAfter;
  }

  lemma ContinuesBeyond(acts: seq<Act>, rest: seq<Act>, i: nat, cut: bool, tail: seq<Act>)
    requires |acts| <= i < |acts + rest| && Continues(rest, i - |acts|, cut, tail)
    ensures Continues(acts + rest, i, cut, tail)
  {
    hide Records;
    var k := i - |acts|;
    assert (acts + rest)[i] == rest[k] && (acts + rest)[i + 1..] == rest[k + 1..];
    assert k + 1 < |rest| ==> (acts + rest)[i + 1] == rest[k + 1];
  }

  lemma FileBeyond(file: Option<TicketState>, acts: seq<Act>, rest: seq<Act>, i: nat)
    requires |acts| <= i < |acts + rest|
    ensures FileAfter(file, (acts + rest)[..i + 1]) == FileAfter(FileAfter(file, acts), rest[..i - |acts| + 1])
  {
    FileAfterAppend(file, acts, rest[..i - |acts| + 1]);
    assert (acts + rest)[..i + 1] == acts + rest[..i - |acts| + 1];
    hide FileAfter;
  }

  /** Within its run an attempt is recorded next, unless the cut falls right after it. */
  lemma InItsRun(file: Option<TicketState>, r: Run, i: nat)
    requires i < |ActsOf(file, r)| && ActsOf(file, r)[i].Attempt?
    ensures var acts := ActsOf(file, r);
      if r.cut == i + 1 then |acts| == i + 1 else i + 1 < |acts| && Records(acts[i + 1], acts[i])
  {
    hide Records;
    RunIsSaved(file, r.args, r.selected, r.approved, r.results);
    hide RunActs;
  }

  // ---------------------------------------------------------------- which publishes are forgotten

  /** The repository is attempted again after the i-th act. */
  predicate AttemptedAfter(acts: seq<Act>, i: nat, repo: string) {
    exists k :: i < k < |acts| && acts[k].Attempt? && acts[k].repo == repo
  }

  /** Runs that are accepted, for the ticket of the file if there is one. */
  predicate OfTicket(file: Option<TicketState>, runs: seq<Run>) {
    forall k | 0 <= k < |runs| :: Accepted(runs[k].args) && (file.Some? ==> runs[k].args.ticket == file.value.ticket)
  }

  /** Some continuation attempts again what the i-th act attempted. */
  ghost predicate CanRepeat(runs: seq<Run>, i: nat)
    requires i < |History(None, runs)| && History(None, runs)[i].Attempt?
  {
    exists more :: NoDuplicates(more) && OfTicket(FileAfter(None, History(None, runs)), more)
      && AttemptedAfter(History(None, runs + more), i, History(None, runs)[i].repo)
  }

  lemma {:induction false} MadeByAttempt(made: map<string, string>, acts: seq<Act>, repo: string) returns (k: nat)
    requires repo !in made && repo in MadeAfter(made, acts)
    ensures k < |acts| && acts[k].Attempt? && acts[k].repo == repo
    decreases |acts|
  {
    if acts[0].Attempt? && acts[0].repo == repo {
      k := 0;
    } else {
      var made1 := if acts[0].Attempt? then made[acts[0].repo := acts[0].instruction] else made;
      var j := MadeByAttempt(made1, acts[1..], repo);
      k := j + 1;
    }
  }

  lemma {:induction false} FirstAttempt(acts: seq<Act>) returns (k: nat)
    requires Attempts(acts) != []
    ensures k < |acts| && acts[k].Attempt? && acts[k].repo == Attempts(acts)[0].0
  {
    if acts[0].Attempt? {
      k := 0;
    } else {
      var j := FirstAttempt(acts[1..]);
      k := j + 1;
    }
  }

  /** Arguments for one more run of the ticket. */
  function ArgsFor(file: Option<TicketState>, repo: string, instruction: string): Args {
    match file
    case Some(s) => Args(s.ticket, instruction, s.branch, s.purpose, [repo])
    case None => Args("ticket", instruction, "", "", [repo])
  }

  /** A run on one repository that is not published attempts it. */
  lemma RetryAttempts(file: Option<TicketState>, repo: string) returns (run: Run, k: nat)
    requires !PublishedIn(file, repo) && FileNamed(file)
    ensures Distinct(run.selected) && OfTicket(file, [run])
    ensures k < |ActsOf(file, run)| && ActsOf(file, run)[k].Attempt? && ActsOf(file, run)[k].repo == repo
  {
    var args := ArgsFor(file, repo, "again");
    var acts := RunActs(file, args, [repo], true, ALWAYS_PUBLISHED);
    run := Run(args, [repo], true, ALWAYS_PUBLISHED, |acts|);
    var todo := Todo(Begun(file, args).0, [repo]);
    assert repo in todo;
    RunAttemptsAPrefix(file, args, [repo], true, ALWAYS_PUBLISHED);
    hide RunActs;
    k := FirstAttempt(acts);
    assert todo[0] in todo;
  }

  /** An attempt is only made of what is not published, and what is published afterwards has
      been attempted in between. */
  lemma PublishedMeansAttempted(runs: seq<Run>, i: nat, later: seq<Run>)
    requires NoDuplicates(runs) && NoDuplicates(later)
    requires i < |History(None, runs)| && History(None, runs)[i].Attempt?
    requires var acts := History(None, runs); acts[i + 1..] == History(FileAfter(None, acts[..i + 1]), later)
    ensures var acts := History(None, runs);
      PublishedIn(FileAfter(None, acts), acts[i].repo) ==> AttemptedAfter(acts, i, acts[i].repo)
  {
    hide History;
    var acts := History(None, runs);
    var repo, before, after := acts[i].repo, acts[..i + 1], acts[i + 1..];
    var file := FileAfter(None, before);
    assert acts == before + after;
    HistoryIsProper(None, map[], runs);
    AttemptedIsUnpublished(acts, i);
    ProperAppend(None, map[], before, after);
    ProperStaysConsistent(None, map[], before);
    var made := MadeAfter(map[], before) - {repo};
    ForgetOne(file, MadeAfter(map[], before), repo);
    HistoryIsProper(file, made, later);
    ProperStaysConsistent(file, made, after);
    FileAfterAppend(None, before, after);
    hide Proper;
    if PublishedIn(FileAfter(None, acts), repo) {
      assert repo in MadeAfter(made, after);
      var k := MadeByAttempt(made, after, repo);
      assert acts[i + 1 + k] == after[k];
    }
  }

  lemma ForgetOne(file: Option<TicketState>, made: map<string, string>, repo: string)
    requires Consistent(file, made) && !PublishedIn(file, repo)
    ensures Consistent(file, made - {repo})
  {
  }

  lemma AttemptedIsUnpublished(acts: seq<Act>, i: nat)
    requires Proper(None, map[], acts) && i < |acts| && acts[i].Attempt?
    ensures !PublishedIn(FileAfter(None, acts[..i + 1]), acts[i].repo)
  {
    assert acts == acts[..i] + acts[i..] && acts[..i + 1] == acts[..i] + [acts[i]];
    ProperAppend(None, map[], acts[..i], acts[i..]);
    FileAfterAppend(None, acts[..i], [acts[i]]);
    assert acts[i..][0] == acts[i];
  }

  lemma CutCanRepeat(runs: seq<Run>, i: nat)
    requires NoDuplicates(runs) && i < |History(None, runs)| && History(None, runs)[i].Attempt?
    requires CutRightAfter(None, runs, i)
    ensures CanRepeat(runs, i)
  {
    var acts := History(None, runs);
    var repo := acts[i].repo;
    var later := AfterAnAttempt(None, runs, i);
    PublishedMeansAttempted(runs, i, later);
    if PublishedIn(FileAfter(None, acts), repo) {
      hide History;
      assert runs + [] == runs;
      assert NoDuplicates([]) && OfTicket(FileAfter(None, acts), [])
        && AttemptedAfter(History(None, runs + []), i, repo);
    } else {
      RetryRepeats(runs, i);
    }
  }

  lemma RetryRepeats(runs: seq<Run>, i: nat)
    requires i < |History(None, runs)| && History(None, runs)[i].Attempt?
    requires !PublishedIn(FileAfter(None, History(None, runs)), History(None, runs)[i].repo)
    ensures CanRepeat(runs, i)
  {
    hide History;
    hide FileAfter;
    hide ActsOf;
    var acts := History(None, runs);
    HistoryIsNamed(None, runs);
    var run, k := RetryAttempts(FileAfter(None, acts), acts[i].repo);
    hide FileNamed;
    hide PublishedIn;
    OneMoreRun(runs, run);
    hide Distinct;
    hide OfTicket;
    LaterAttempt(acts, ActsOf(FileAfter(None, acts), run), i, k, acts[i].repo);
    hide AttemptedAfter;
    assert NoDuplicates([run]) && OfTicket(FileAfter(None, acts), [run])
      && AttemptedAfter(History(None, runs + [run]), i, acts[i].repo);
  }

  lemma LaterAttempt(acts: seq<Act>, more: seq<Act>, i: nat, k: nat, repo: string)
    requires i < |acts| && k < |more| && more[k].Attempt? && more[k].repo == repo
    ensures AttemptedAfter(acts + more, i, repo)
  {
    assert (acts + more)[|acts| + k] == more[k];
  }

  /** A history and one more run. */
  lemma OneMoreRun(runs: seq<Run>, run: Run)
    ensures History(None, runs + [run]) == History(None, runs) + ActsOf(FileAfter(None, History(None, runs)), run)
  {
    HistoryAppend(None, runs, [run]);
    OneRunHistory(FileAfter(None, History(None, runs)), run);
  }

  lemma OneRunHistory(file: Option<TicketState>, run: Run)
    ensures History(file, [run]) == ActsOf(file, run)
  {
    HistoryCons(file, [run]);
    hide RunActs;
    assert [run][1..] == [] && History(FileAfter(file, ActsOf(file, run)), []) == [];
    assert ActsOf(file, run) + [] == ActsOf(file, run);
  }

  lemma RecordedIsNotRepeated(runs: seq<Run>, i: nat)
    requires NoDuplicates(runs) && i < |History(None, runs)| && History(None, runs)[i].Attempt?
    requires History(None, runs)[i].result.outcome == Published && !CutRightAfter(None, runs, i)
    ensures !CanRepeat(runs, i)
  {
    var acts := History(None, runs);
    var _ := AfterAnAttempt(None, runs, i);
    forall more | NoDuplicates(more) ensures !AttemptedAfter(History(None, runs + more), i, acts[i].repo) {
      HistoryAppend(None, runs, more);
      HistoryIsProper(None, map[], runs + more);
      hide History;
      hide Distinct;
      hide Proper;
      NotAfterItsSave(History(None, runs + more), i, acts[i]);
    }
  }

  lemma NotAfterItsSave(acts: seq<Act>, i: nat, attempt: Act)
    requires Proper(None, map[], acts) && i + 1 < |acts|
    requires Records(acts[i + 1], attempt) && attempt.result.outcome == Published
    ensures !AttemptedAfter(acts, i, attempt.repo)
  {
    hide Proper;
    forall k | i < k < |acts| && acts[k].Attempt? ensures acts[k].repo != attempt.repo {
      ProperKeepsAt(acts, i + 1, k, attempt.repo);
    }
  }

  /** Which publishes are forgotten, over every history without duplicates: an attempt that
      published can be repeated by some continuation if and only if its run was cut between the
      attempt and its save. */
  lemma ForgottenIffCutBeforeItsSave(runs: seq<Run>, i: nat)
    requires NoDuplicates(runs) && i < |History(None, runs)| && History(None, runs)[i].Attempt?
    requires History(None, runs)[i].result.outcome == Published
    ensures CanRepeat(runs, i) <==> CutRightAfter(None, runs, i)
  {
    hide History;
    hide CanRepeat;
    hide CutRightAfter;
    if CutRightAfter(None, runs, i) {
      CutCanRepeat(runs, i);
    } else {
      RecordedIsNotRepeated(runs, i);
    }
  }

  // ---------------------------------------------------------------- repeated under another instruction

  predicate AttemptedUnderAnother(acts: seq<Act>, i: nat, repo: string, instruction: string) {
    exists k :: i < k < |acts| && acts[k].Attempt? && acts[k].repo == repo && acts[k].instruction != instruction
  }

  ghost predicate CanRepeatUnderAnother(runs: seq<Run>)
    requires var acts := History(None, runs); acts != [] && acts[|acts| - 1].Attempt?
  {
    var acts := History(None, runs);
    var last := acts[|acts| - 1];
    exists more :: NoDuplicates(more) && OfTicket(FileAfter(None, acts), more)
      && AttemptedUnderAnother(History(None, runs + more), |acts| - 1, last.repo, last.instruction)
  }

  lemma {:induction false} AttemptIsByTheFile(file: Option<TicketState>, acts: seq<Act>, k: nat)
    requires ByTheFile(file, acts) && k < |acts| && acts[k].Attempt?
    ensures FileAfter(file, acts[..k]).Some? && FileAfter(file, acts[..k]).value.instruction == acts[k].instruction
  {
    assert acts == acts[..k] + acts[k..] && acts[k..][0] == acts[k];
    ByTheFileAppend(file, acts[..k], acts[k..]);
  }

  /** Once something is published the instruction stays. */
  lemma {:induction false} InstructionStays(
    file: Option<TicketState>, made: map<string, string>, acts: seq<Act>, repo: string)
    requires PublishedIn(file, repo) && Proper(file, made, acts)
    ensures PublishedIn(FileAfter(file, acts), repo)
    ensures FileAfter(file, acts).value.instruction == file.value.instruction
    decreases |acts|
  {
    if acts != [] {
      match acts[0]
      case Save(s) => InstructionStays(Some(s), made, acts[1..], repo);
      case Attempt(r, instruction, _) => InstructionStays(file, made[r := instruction], acts[1..], repo);
    }
  }

  lemma LastAttemptIsByTheFile(runs: seq<Run>)
    requires var acts := History(None, runs); acts != [] && acts[|acts| - 1].Attempt?
    ensures var acts := History(None, runs);
      FileAfter(None, acts).Some? && FileAfter(None, acts).value.instruction == acts[|acts| - 1].instruction
  {
    var acts := History(None, runs);
    var n := |acts| - 1;
    HistoryGoesByTheFile(None, runs);
    hide History;
    AttemptIsByTheFile(None, acts, n);
    assert acts == acts[..n] + [acts[n]];
    FileAfterAppend(None, acts[..n], [acts[n]]);
  }

  lemma AnotherIsAdopted(runs: seq<Run>)
    requires NoDuplicates(runs)
    requires var acts := History(None, runs); acts != [] && acts[|acts| - 1].Attempt?
    requires FileAfter(None, History(None, runs)).Some? && NothingPublished(FileAfter(None, History(None, runs)).value)
    ensures CanRepeatUnderAnother(runs)
  {
    hide History;
    hide FileAfter;
    hide CanRepeatUnderAnother;
    hide ActsOf;
    var acts := History(None, runs);
    var s := FileAfter(None, acts).value;
    LastAttemptIsByTheFile(runs);
    HistoryIsNamed(None, runs);
    var repo := acts[|acts| - 1].repo;
    var args := ArgsFor(Some(s), repo, if s.instruction == "a" then "b" else "a");
    var run := AdoptingRun(s, args, repo);
    AdoptingRunRepeats(runs, run);
  }

  lemma AdoptingRunRepeats(runs: seq<Run>, run: Run)
    requires var acts := History(None, runs);
      var more := ActsOf(FileAfter(None, acts), run);
      && acts != [] && acts[|acts| - 1].Attempt? && Distinct(run.selected)
      && OfTicket(FileAfter(None, acts), [run])
      && |more| > 2 && more[2].Attempt? && more[2].repo == acts[|acts| - 1].repo
      && more[2].instruction != acts[|acts| - 1].instruction
    ensures CanRepeatUnderAnother(runs)
  {
    hide History;
    hide FileAfter;
    hide ActsOf;
    hide Distinct;
    hide AttemptedUnderAnother;
    hide OfTicket;
    var acts := History(None, runs);
    var last := acts[|acts| - 1];
    OneMoreRun(runs, run);
    ThirdAct(acts, ActsOf(FileAfter(None, acts), run), last);
    assert NoDuplicates([run]) && OfTicket(FileAfter(None, acts), [run])
      && AttemptedUnderAnother(History(None, runs + [run]), |acts| - 1, last.repo, last.instruction);
  }

  /** Where nothing is published, a run takes a new instruction and attempts the repository. */
  lemma AdoptingRun(s: TicketState, args: Args, repo: string) returns (run: Run)
    requires NothingPublished(s) && Accepted(args) && args.instruction != s.instruction && args.ticket == s.ticket
    ensures Distinct(run.selected) && OfTicket(Some(s), [run])
    ensures var acts := ActsOf(Some(s), run);
      |acts| > 2 && acts[2].Attempt? && acts[2].repo == repo && acts[2].instruction == args.instruction
  {
    var whole := OneRepoActs(Some(s), args, repo);
    run := Run(args, [repo], true, ALWAYS_PUBLISHED, |whole|);
    hide RunActs;
    hide WithRepo;
  }

  lemma ThirdAct(acts: seq<Act>, more: seq<Act>, last: Act)
    requires acts != [] && last.Attempt?
    requires |more| > 2 && more[2].Attempt? && more[2].repo == last.repo && more[2].instruction != last.instruction
    ensures AttemptedUnderAnother(acts + more, |acts| - 1, last.repo, last.instruction)
  {
    assert (acts + more)[|acts| + 2] == more[2];
  }

  lemma OtherwiseItStays(runs: seq<Run>, published: string)
    requires NoDuplicates(runs)
    requires var acts := History(None, runs); acts != [] && acts[|acts| - 1].Attempt?
    requires PublishedIn(FileAfter(None, History(None, runs)), published)
    ensures !CanRepeatUnderAnother(runs)
  {
    var acts := History(None, runs);
    var n, last := |acts| - 1, acts[|acts| - 1];
    LastAttemptIsByTheFile(runs);
    forall more | NoDuplicates(more)
      ensures !AttemptedUnderAnother(History(None, runs + more), n, last.repo, last.instruction)
    {
      HistoryAppend(None, runs, more);
      LaterAttemptsAgree(runs, more, published);
      hide History;
      hide NoDuplicates;
      hide FileAfter;
      NoneUnderAnother(acts, History(FileAfter(None, acts), more), last);
    }
  }

  lemma NoneUnderAnother(acts: seq<Act>, rest: seq<Act>, last: Act)
    requires acts != [] && last.Attempt?
    requires forall k | 0 <= k < |rest| && rest[k].Attempt? :: rest[k].instruction == last.instruction
    ensures !AttemptedUnderAnother(acts + rest, |acts| - 1, last.repo, last.instruction)
  {
    assert forall k | |acts| <= k < |acts + rest| :: (acts + rest)[k] == rest[k - |acts|];
  }

  lemma LaterAttemptsAgree(runs: seq<Run>, more: seq<Run>, published: string)
    requires NoDuplicates(runs) && NoDuplicates(more)
    requires PublishedIn(FileAfter(None, History(None, runs)), published)
    ensures var file := FileAfter(None, History(None, runs));
      var rest := History(file, more);
      forall k | 0 <= k < |rest| && rest[k].Attempt? :: rest[k].instruction == file.value.instruction
  {
    var acts := History(None, runs);
    var file, made := FileAfter(None, acts), MadeAfter(map[], acts);
    HistoryIsProper(None, map[], runs);
    ProperStaysConsistent(None, map[], acts);
    HistoryIsProper(file, made, more);
    HistoryGoesByTheFile(file, more);
    var rest := History(file, more);
    hide History;
    hide NoDuplicates;
    hide Proper;
    hide ByTheFile;
    hide FileAfter;
    hide MadeAfter;
    forall k | 0 <= k < |rest| && rest[k].Attempt? ensures rest[k].instruction == file.value.instruction {
      LaterInstruction(file, made, rest, k, published);
    }
  }

  lemma LaterInstruction(
    file: Option<TicketState>, made: map<string, string>, rest: seq<Act>, k: nat, published: string)
    requires PublishedIn(file, published) && Proper(file, made, rest) && ByTheFile(file, rest)
    requires k < |rest| && rest[k].Attempt?
    ensures rest[k].instruction == file.value.instruction
  {
    assert rest == rest[..k] + rest[k..];
    ProperAppend(file, made, rest[..k], rest[k..]);
    InstructionStays(file, made, rest[..k], published);
    AttemptIsByTheFile(file, rest, k);
  }

  /** What can follow a crash right after an attempt: the repository may be attempted again under
      another instruction if and only if the file shows nothing published. */
  lemma UnderAnotherIffNothingPublished(runs: seq<Run>)
    requires NoDuplicates(runs)
    requires var acts := History(None, runs); acts != [] && acts[|acts| - 1].Attempt?
    ensures FileAfter(None, History(None, runs)).Some?
    ensures CanRepeatUnderAnother(runs) <==> NothingPublished(FileAfter(None, History(None, runs)).value)
  {
    LastAttemptIsByTheFile(runs);
    var s := FileAfter(None, History(None, runs)).value;
    if NothingPublished(s) {
      AnotherIsAdopted(runs);
    } else {
      var published :| published in s.repos && s.repos[published].outcome == Published;
      OtherwiseItStays(runs, published);
    }
    hide CanRepeatUnderAnother;
    hide History;
  }

  // ---------------------------------------------------------------- one history

  /** A crash between an attempt and its save forgets the attempt: the next run takes a new
      instruction and attempts the repository again, even if the first attempt did publish. */
  lemma CrashForgetsAnAttempt(args: Args, repo: string, other: string) returns (runs: seq<Run>)
    requires Accepted(args) && other != "" && other != args.instruction
    ensures NoDuplicates(runs)
    ensures var acts := History(None, runs);
      && |acts| == 7
      && acts[2] == Attempt(repo, args.instruction, ALWAYS_PUBLISHED(0))
      && acts[5] == Attempt(repo, other, ALWAYS_PUBLISHED(0)) && acts[5].result.outcome == Published
  {
    var first := Run(args, [repo], true, ALWAYS_PUBLISHED, 3);
    var second := Run(args.(instruction := other), [repo], true, ALWAYS_PUBLISHED, 100);
    runs := [first, second];
    var s0 := TicketState(args.ticket, args.instruction, args.branch, args.purpose, map[]);
    var acts1 := OneRepoActs(None, args, repo);
    var cut := Cut(acts1, 3);
    var pending := WithRepo(s0, repo, PENDING_RESULT);
    assert cut == [Save(s0), Save(pending), Attempt(repo, args.instruction, ALWAYS_PUBLISHED(0))];
    FileOfThree(s0, pending, repo, args.instruction);
    var acts2 := OneRepoActs(Some(pending), second.args, repo);
    assert Cut(acts2, 100) == acts2;
    assert runs[1..] == [second] && [second][1..] == [];
    assert History(FileAfter(FileAfter(None, cut), acts2), []) == [];
    assert History(FileAfter(None, cut), [second]) == acts2 + [];
    assert History(None, runs) == cut + (acts2 + []);
  }

  lemma FileOfThree(s: TicketState, t: TicketState, repo: string, instruction: string)
    ensures FileAfter(None, [Save(s), Save(t), Attempt(repo, instruction, ALWAYS_PUBLISHED(0))]) == Some(t)
  {
    FileAfterAppend(None, [Save(s)], [Save(t)]);
    FileAfterAppend(None, [Save(s)] + [Save(t)], [Attempt(repo, instruction, ALWAYS_PUBLISHED(0))]);
    assert [Save(s)] + [Save(t)] + [Attempt(repo, instruction, ALWAYS_PUBLISHED(0))]
      == [Save(s), Save(t), Attempt(repo, instruction, ALWAYS_PUBLISHED(0))];
  }

  /** A whole run on one repository that changes the instruction or begins the ticket. */
  lemma OneRepoActs(file: Option<TicketState>, args: Args, repo: string) returns (acts: seq<Act>)
    requires Accepted(args) && Begun(file, args).1 == [Save(Begun(file, args).0)]
      && !IsPublished(Begun(file, args).0, repo)
    ensures acts == RunActs(file, args, [repo], true, ALWAYS_PUBLISHED)
    ensures var s := Begun(file, args).0;
      acts == [Save(s), Save(WithRepo(s, repo, PENDING_RESULT)), Attempt(repo, s.instruction, ALWAYS_PUBLISHED(0)),
               Save(WithRepo(WithRepo(s, repo, PENDING_RESULT), repo, ALWAYS_PUBLISHED(0)))]
  {
    hide Begun;
    var s := Begun(file, args).0;
    acts := RunActs(file, args, [repo], true, ALWAYS_PUBLISHED);
    var todo := Todo(s, [repo]);
    assert [repo][1..] == [] && Todo(s, []) == [];
    assert todo == [repo];
    var p := WithRepo(s, repo, PENDING_RESULT);
    assert Marked(p, [], PENDING_RESULT) == (p, []);
    assert Marked(s, [repo], PENDING_RESULT).1 == [Save(p)] + [];
    var d := WithRepo(p, repo, ALWAYS_PUBLISHED(0));
    assert Pipeline(d, [repo], 1, ALWAYS_PUBLISHED) == [];
    assert Pipeline(p, [repo], 0, ALWAYS_PUBLISHED) ==
      [Attempt(repo, p.instruction, ALWAYS_PUBLISHED(0)), Save(d)] + [];
  }
}
