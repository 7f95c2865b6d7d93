/** The driver that takes a ticket through its repositories, and what survives its crashes. */
module TicketDriver {
  import opened JsText
  import opened Orchestrator

  datatype TicketState = TicketState(
    ticket: string, instruction: string, branch: string, purpose: string, repos: map<string, RepoResult>)

  datatype Args = Args(ticket: string, instruction: string, branch: string, purpose: string, repos: seq<string>)

  /** What a run does that outlives it: the file is replaced, or a repository is attempted. */
  datatype Act = Save(state: TicketState) | Attempt(repo: string, instruction: string, result: RepoResult)

  type Results = nat -> RepoResult

  // ---------------------------------------------------------------- the pieces of a run

  /** No names given means all; an unknown name stops the run. */
  function SelectRepos(all: seq<string>, subset: seq<string>): Option<seq<string>> {
    if subset == [] then Some(all)
    else if forall n <- subset :: n in all then Some(subset)
    else None
  }

  predicate IsPublished(s: TicketState, repo: string) {
    repo in s.repos && s.repos[repo].outcome == Published
  }

  predicate NothingPublished(s: TicketState) {
    forall repo <- s.repos :: s.repos[repo].outcome != Published
  }

  /** The instruction to go on with, and whether it is a new one. */
  function ResolveResumedInstruction(s: TicketState, given: string): (string, bool) {
    if given != "" && given != s.instruction && NothingPublished(s) then (given, true) else (s.instruction, false)
  }

  /** The state a run works on, and the saves that get it there. */
  function Begun(file: Option<TicketState>, args: Args): (r: (TicketState, seq<Act>)) {
    match file
    case None =>
      var s := TicketState(args.ticket, args.instruction, args.branch, args.purpose, map[]);
      (s, [Save(s)])
    case Some(s) =>
      var (instruction, adopted) := ResolveResumedInstruction(s, args.instruction);
      if adopted then (s.(instruction := instruction), [Save(s.(instruction := instruction))]) else (s, [])
  }

  function Todo(s: TicketState, selected: seq<string>): (todo: seq<string>)
    ensures forall n <- todo :: n in selected && !IsPublished(s, n)
    ensures forall n <- selected :: n in todo || IsPublished(s, n)
  {
    if selected == [] then []
    else
      var rest := Todo(s, selected[1..]);
      assert selected == [selected[0]] + selected[1..];
      if IsPublished(s, selected[0]) then rest else [selected[0]] + rest
  }

  function WithRepo(s: TicketState, repo: string, r: RepoResult): TicketState {
    s.(repos := s.repos[repo := r])
  }

  const PENDING_RESULT := RepoResult(Pending, None, None, None)
  const DECLINED_RESULT := RepoResult(Declined, None, None, Some("combined plan declined"))

  /** Every repository on the list gets this result, one save each. */
  function Marked(s: TicketState, todo: seq<string>, r: RepoResult): (TicketState, seq<Act>)
    decreases |todo|
  {
    if todo == [] then (s, [])
    else
      var s1 := WithRepo(s, todo[0], r);
      var (s2, acts) := Marked(s1, todo[1..], r);
      (s2, [Save(s1)] + acts)
  }

  /** One repository after the other, until one is not published. */
  function Pipeline(s: TicketState, todo: seq<string>, i: nat, results: Results): seq<Act>
    requires i <= |todo|
    decreases |todo| - i
  {
    if i == |todo| then []
    else
      var s1 := WithRepo(s, todo[i], results(i));
      [Attempt(todo[i], s.instruction, results(i)), Save(s1)]
      + (if results(i).outcome == Published then Pipeline(s1, todo, i + 1, results) else [])
  }

  /** A run needs a ticket and an instruction. */
  predicate Accepted(args: Args) {
    args.ticket != "" && args.instruction != ""
  }

  /** Everything a run does when it is not cut short; a refused one does nothing. */
  function RunActs(
    file: Option<TicketState>, args: Args, selected: seq<string>, approved: bool, results: Results): seq<Act> {
    if !Accepted(args) then [] else
    var (s0, first) := Begun(file, args);
    var todo := Todo(s0, selected);
    if todo == [] then first
    else
      var (s1, pending) := Marked(s0, todo, PENDING_RESULT);
      first + pending + (if approved then Pipeline(s1, todo, 0, results) else Marked(s1, todo, DECLINED_RESULT).1)
  }

  function ExitCode(todo: seq<string>, i: nat, results: Results): int
    requires i <= |todo|
    decreases |todo| - i
  {
    if i == |todo| then 0
    else if results(i).outcome == Published then ExitCode(todo, i + 1, results)
    else if results(i).outcome == Declined then 0
    else 1
  }

  /** What the file holds after these acts. */
  function FileAfter(file: Option<TicketState>, acts: seq<Act>): Option<TicketState>
    decreases |acts|
  {
    if acts == [] then file
    else FileAfter(if acts[0].Save? then Some(acts[0].state) else file, acts[1..])
  }

  // ---------------------------------------------------------------- the run as it is carried out

  class Store {
    var file: Option<TicketState>
    ghost var acts: seq<Act>

    /** The file is what the last save wrote. */
    ghost predicate Valid()
      reads this
    {
      file == FileAfter(None, acts)
    }

    constructor ()
      ensures Valid() && file == None && acts == []
    {
      file, acts := None, [];
    }

    method SaveState(s: TicketState)
      requires Valid()
      modifies this
      ensures Valid() && file == Some(s) && acts == old(acts) + [Save(s)]
    {
      FileAfterAppend(None, acts, [Save(s)]);
      file := Some(s);
      acts := acts + [Save(s)];
    }

    method SetRepoState(s: TicketState, repo: string, r: RepoResult) returns (s': TicketState)
      requires Valid()
      modifies this
      ensures Valid() && s' == WithRepo(s, repo, r) && acts == old(acts) + [Save(s')]
    {
      s' := s.(repos := s.repos[repo := r]);
      SaveState(s');
    }

    method MarkAll(s: TicketState, todo: seq<string>, r: RepoResult) returns (s': TicketState)
      requires Valid()
      modifies this
      ensures Valid() && s' == Marked(s, todo, r).0 && acts == old(acts) + Marked(s, todo, r).1
    {
      s' := s;
      for i := 0 to |todo|
        invariant Valid()
        invariant Marked(s, todo, r).0 == Marked(s', todo[i..], r).0
        invariant old(acts) + Marked(s, todo, r).1 == acts + Marked(s', todo[i..], r).1
      {
        assert todo[i..][0] == todo[i] && todo[i..][1..] == todo[i + 1..];
        MarkedStep(s', todo[i..], r, acts);
        s' := SetRepoState(s', todo[i], r);
      }
    }

    /** Loads or makes the ticket's state. */
    method Begin(args: Args) returns (state: TicketState)
      requires Valid()
      modifies this
      ensures Valid() && state == Begun(old(file), args).0 && acts == old(acts) + Begun(old(file), args).1
    {
      if file.None? {
        state := TicketState(args.ticket, args.instruction, args.branch, args.purpose, map[]);
        SaveState(state);
      } else {
        state := file.value;
        var (instruction, adopted) := ResolveResumedInstruction(state, args.instruction);
        if adopted {
          state := state.(instruction := instruction);
          SaveState(state);
        }
      }
    }

    method RunDriver(args: Args, all: seq<string>, approved: bool, results: Results) returns (code: int)
      requires Valid()
      modifies this
      ensures Valid()
      ensures var selected := SelectRepos(all, args.repos);
        if selected.None? then acts == old(acts)
        else acts == old(acts) + RunActs(old(file), args, selected.value, approved, results)
      ensures !Accepted(args) ==> code == 2
      ensures Accepted(args) && SelectRepos(all, args.repos).Some? ==>
        var todo := Todo(Begun(old(file), args).0, SelectRepos(all, args.repos).value);
        code == if todo == [] || !approved then 0 else ExitCode(todo, 0, results)
    {
      hide RunActs;
      hide Begun;
      hide Todo;
      hide Marked;
      hide Pipeline;
      hide FileAfter;
      hide SelectRepos;
      var selected := SelectRepos(all, args.repos);
      if selected.Some? {
        RunActsSpelledOut(old(file), args, selected.value, approved, results);
      }
      hide Accepted;
      if !Accepted(args) || selected.None? {
        return 2;
      }
      var state := Begin(args);
      var todo := Todo(state, selected.value);
      if todo == [] {
        return 0;
      }
      var planned := MarkAll(state, todo, PENDING_RESULT);
      if !approved {
        var _ := MarkAll(planned, todo, DECLINED_RESULT);
        return 0;
      }
      code := RunPipeline(planned, todo, results);
    }

    method RunPipeline(s: TicketState, todo: seq<string>, results: Results) returns (code: int)
      requires Valid()
      modifies this
      ensures Valid() && acts == old(acts) + Pipeline(s, todo, 0, results) && code == ExitCode(todo, 0, results)
    {
      var state := s;
      for i := 0 to |todo|
        invariant Valid()
        invariant old(acts) + Pipeline(s, todo, 0, results) == acts + Pipeline(state, todo, i, results)
        invariant ExitCode(todo, 0, results) == ExitCode(todo, i, results)
      {
        hide Pipeline;
        hide FileAfter;
        ghost var attempt := Attempt(todo[i], state.instruction, results(i));
        FileAfterAttempt(acts, attempt);
        PipelineStep(acts, state, todo, i, results);
        acts := acts + [attempt];
        state := SetRepoState(state, todo[i], results(i));
        if results(i).outcome != Published {
          return if results(i).outcome == Declined then 0 else 1;
        }
      }
      PipelineEnd(state, todo, results);
      code := 0;
    }
  }

  lemma RunActsSpelledOut(
    file: Option<TicketState>, args: Args, selected: seq<string>, approved: bool, results: Results)
    ensures var (s0, first) := Begun(file, args);
      var todo := Todo(s0, selected);
      var (s1, pending) := Marked(s0, todo, PENDING_RESULT);
      RunActs(file, args, selected, approved, results) ==
        if !Accepted(args) then []
        else if todo == [] then first
        else
          first + pending
          + (if approved then Pipeline(s1, todo, 0, results) else Marked(s1, todo, DECLINED_RESULT).1)
  {
    hide Begun;
    hide Todo;
    hide Marked;
    hide Pipeline;
  }

  lemma FileAfterAttempt(acts: seq<Act>, a: Act)
    requires a.Attempt?
    ensures FileAfter(None, acts + [a]) == FileAfter(None, acts)
  {
    FileAfterAppend(None, acts, [a]);
  }

  lemma PipelineStep(acts: seq<Act>, s: TicketState, todo: seq<string>, i: nat, results: Results)
    requires i < |todo|
    ensures var s1 := WithRepo(s, todo[i], results(i));
      acts + Pipeline(s, todo, i, results) ==
        acts + [Attempt(todo[i], s.instruction, results(i))] + [Save(s1)]
        + (if results(i).outcome == Published then Pipeline(s1, todo, i + 1, results) else [])
  {
  }

  lemma PipelineEnd(s: TicketState, todo: seq<string>, results: Results)
    ensures Pipeline(s, todo, |todo|, results) == []
  {
  }

  lemma MarkedStep(s: TicketState, todo: seq<string>, r: RepoResult, acts: seq<Act>)
    requires todo != []
    ensures var s1 := WithRepo(s, todo[0], r);
      && Marked(s, todo, r).0 == Marked(s1, todo[1..], r).0
      && acts + Marked(s, todo, r).1 == acts + [Save(s1)] + Marked(s1, todo[1..], r).1
  {
  }

  lemma {:induction false} FileAfterAppend(file: Option<TicketState>, xs: seq<Act>, ys: seq<Act>)
    ensures FileAfter(file, xs + ys) == FileAfter(FileAfter(file, xs), ys)
    decreases |xs|
  {
    if xs == [] {
      assert xs + ys == ys;
    } else {
      assert (xs + ys)[0] == xs[0] && (xs + ys)[1..] == xs[1..] + ys;
      FileAfterAppend(if xs[0].Save? then Some(xs[0].state) else file, xs[1..], ys);
    }
  }

  // ---------------------------------------------------------------- what the acts of a run must respect

  predicate PublishedIn(file: Option<TicketState>, repo: string) {
    file.Some? && IsPublished(file.value, repo)
  }

  /** A save keeps every published repository as it was, and the instruction once there is one. */
  predicate KeepsPublished(file: Option<TicketState>, s: TicketState) {
    file.Some? ==>
      forall repo <- file.value.repos | IsPublished(file.value, repo) ::
        repo in s.repos && s.repos[repo] == file.value.repos[repo] && s.instruction == file.value.instruction
  }

  /** Every published repository was last attempted under the stored instruction. */
  predicate UnderStored(s: TicketState, made: map<string, string>) {
    forall repo <- s.repos | IsPublished(s, repo) :: repo in made && made[repo] == s.instruction
  }

  /** No act attempts a published repository, un-publishes one, or publishes under another
      instruction than the stored one. `made` maps each repository to its last attempt's. */
  predicate Proper(file: Option<TicketState>, made: map<string, string>, acts: seq<Act>)
    decreases |acts|
  {
    acts == [] ||
    (match acts[0]
     case Save(s) => KeepsPublished(file, s) && UnderStored(s, made) && Proper(Some(s), made, acts[1..])
     case Attempt(repo, instruction, _) =>
       !PublishedIn(file, repo) && Proper(file, made[repo := instruction], acts[1..]))
  }

  function MadeAfter(made: map<string, string>, acts: seq<Act>): map<string, string>
    decreases |acts|
  {
    if acts == [] then made
    else MadeAfter(if acts[0].Attempt? then made[acts[0].repo := acts[0].instruction] else made, acts[1..])
  }

  lemma {:induction false} ProperAppend(
    file: Option<TicketState>, made: map<string, string>, xs: seq<Act>, ys: seq<Act>)
    ensures Proper(file, made, xs + ys) <==>
      Proper(file, made, xs) && Proper(FileAfter(file, xs), MadeAfter(made, xs), ys)
    ensures MadeAfter(made, xs + ys) == MadeAfter(MadeAfter(made, xs), ys)
    decreases |xs|
  {
    hide KeepsPublished;
    hide UnderStored;
    if xs == [] {
      assert xs + ys == ys;
    } else {
      assert (xs + ys)[0] == xs[0] && (xs + ys)[1..] == xs[1..] + ys;
      match xs[0]
      case Save(s) => ProperAppend(Some(s), made, xs[1..], ys);
      case Attempt(repo, instruction, _) => ProperAppend(file, made[repo := instruction], xs[1..], ys);
    }
  }

  predicate Consistent(file: Option<TicketState>, made: map<string, string>) {
    file.Some? ==> UnderStored(file.value, made)
  }

  lemma {:induction false} ProperStaysConsistent(file: Option<TicketState>, made: map<string, string>, acts: seq<Act>)
    requires Consistent(file, made) && Proper(file, made, acts)
    ensures Consistent(FileAfter(file, acts), MadeAfter(made, acts))
    decreases |acts|
  {
    if acts != [] {
      match acts[0]
      case Save(s) => ProperStaysConsistent(Some(s), made, acts[1..]);
      case Attempt(repo, instruction, _) =>
        if file.Some? {
          assert forall n <- file.value.repos | IsPublished(file.value, n) ::
            n != repo && made[n] == file.value.instruction;
        }
        ProperStaysConsistent(file, made[repo := instruction], acts[1..]);
    }
  }

  // ---------------------------------------------------------------- a run without duplicates is proper

  predicate Distinct(names: seq<string>) {
    forall i, j | 0 <= i < j < |names| :: names[i] != names[j]
  }

  /** None of the repositories on the list is published. */
  predicate NoneDone(s: TicketState, todo: seq<string>) {
    forall n <- todo :: !IsPublished(s, n)
  }

  lemma {:induction false} MarkedIsProper(s: TicketState, made: map<string, string>, todo: seq<string>, r: RepoResult)
    requires UnderStored(s, made) && NoneDone(s, todo) && r.outcome != Published
    ensures Proper(Some(s), made, Marked(s, todo, r).1)
    ensures FileAfter(Some(s), Marked(s, todo, r).1) == Some(Marked(s, todo, r).0)
      && MadeAfter(made, Marked(s, todo, r).1) == made
    ensures UnderStored(Marked(s, todo, r).0, made) && Marked(s, todo, r).0.instruction == s.instruction
    ensures forall n :: IsPublished(Marked(s, todo, r).0, n) <==> IsPublished(s, n)
    decreases |todo|
  {
    if todo != [] {
      var s1 := WithRepo(s, todo[0], r);
      assert forall n <- todo[1..] :: n in todo;
      MarkedIsProper(s1, made, todo[1..], r);
      var acts := Marked(s, todo, r).1;
      assert acts[0] == Save(s1) && acts[1..] == Marked(s1, todo[1..], r).1;
    }
  }

  lemma {:induction false} PipelineIsProper(
    s: TicketState, made: map<string, string>, todo: seq<string>, i: nat, results: Results)
    requires i <= |todo| && UnderStored(s, made) && Distinct(todo) && NoneDone(s, todo[i..])
    ensures Proper(Some(s), made, Pipeline(s, todo, i, results))
    decreases |todo| - i
  {
    if i < |todo| {
      var repo, r := todo[i], results(i);
      assert repo in todo[i..];
      var s1, made1 := WithRepo(s, repo, r), made[repo := s.instruction];
      var rest := if r.outcome == Published then Pipeline(s1, todo, i + 1, results) else [];
      var acts := Pipeline(s, todo, i, results);
      assert acts == [Attempt(repo, s.instruction, r), Save(s1)] + rest;
      assert acts[1..][1..] == rest;
      assert UnderStored(s1, made1);
      if r.outcome == Published {
        forall n <- todo[i + 1..] ensures !IsPublished(s1, n) {
          assert n in todo[i..] && n != repo;
        }
        PipelineIsProper(s1, made1, todo, i + 1, results);
      }
    }
  }

  lemma BegunIsProper(file: Option<TicketState>, made: map<string, string>, args: Args)
    requires Consistent(file, made)
    ensures var (s, acts) := Begun(file, args);
      Proper(file, made, acts) && FileAfter(file, acts) == Some(s) && MadeAfter(made, acts) == made
        && UnderStored(s, made)
  {
    var (s, acts) := Begun(file, args);
    if acts != [] {
      assert acts == [Save(s)] && acts[1..] == [];
    }
  }

  lemma {:induction false} TodoOfDistinct(s: TicketState, selected: seq<string>)
    requires Distinct(selected)
    ensures Distinct(Todo(s, selected))
  {
    if selected != [] {
      assert forall n <- selected[1..] :: n != selected[0];
      TodoOfDistinct(s, selected[1..]);
    }
  }

  lemma RunIsProper(
    file: Option<TicketState>, made: map<string, string>, args: Args, selected: seq<string>,
    approved: bool, results: Results)
    requires Consistent(file, made) && (!Accepted(args) || Distinct(Todo(Begun(file, args).0, selected)))
    ensures Proper(file, made, RunActs(file, args, selected, approved, results))
  {
    hide KeepsPublished;
    hide UnderStored;
    hide Begun;
    hide Marked;
    hide Pipeline;
    var (s0, first) := Begun(file, args);
    var todo := Todo(s0, selected);
    BegunIsProper(file, made, args);
    if Accepted(args) && todo != [] {
      MarkedIsProper(s0, made, todo, PENDING_RESULT);
      var (s1, pending) := Marked(s0, todo, PENDING_RESULT);
      ProperAppend(file, made, first, pending);
      FileAfterAppend(file, first, pending);
      var last := if approved then Pipeline(s1, todo, 0, results) else Marked(s1, todo, DECLINED_RESULT).1;
      if approved {
        assert todo[0..] == todo;
        PipelineIsProper(s1, made, todo, 0, results);
      } else {
        MarkedIsProper(s1, made, todo, DECLINED_RESULT);
      }
      ProperAppend(file, made, first + pending, last);
    }
  }

  // ---------------------------------------------------------------- and with one it need not be

  lemma {:induction false} AllPublished(
    s: TicketState, made: map<string, string>, todo: seq<string>, i: nat, j: nat, results: Results)
    requires i <= j < |todo| && IsPublished(s, todo[j]) && forall k :: results(k).outcome == Published
    ensures !Proper(Some(s), made, Pipeline(s, todo, i, results))
    decreases j - i
  {
    var s1 := WithRepo(s, todo[i], results(i));
    var acts := Pipeline(s, todo, i, results);
    var rest := Pipeline(s1, todo, i + 1, results);
    assert acts == [Attempt(todo[i], s.instruction, results(i)), Save(s1)] + rest;
    assert acts[1..][1..] == rest;
    if i < j {
      AllPublished(s1, made[todo[i] := s.instruction], todo, i + 1, j, results);
    }
  }

  lemma {:induction false} DuplicateIsAttemptedTwice(
    s: TicketState, made: map<string, string>, todo: seq<string>, i: nat, d: nat, j: nat, results: Results)
    requires i <= d < j < |todo| && todo[d] == todo[j] && forall k :: results(k).outcome == Published
    ensures !Proper(Some(s), made, Pipeline(s, todo, i, results))
    decreases d - i
  {
    var s1 := WithRepo(s, todo[i], results(i));
    var acts := Pipeline(s, todo, i, results);
    var rest := Pipeline(s1, todo, i + 1, results);
    assert acts == [Attempt(todo[i], s.instruction, results(i)), Save(s1)] + rest;
    assert acts[1..][1..] == rest;
    if i < d {
      DuplicateIsAttemptedTwice(s1, made[todo[i] := s.instruction], todo, i + 1, d, j, results);
    } else {
      AllPublished(s1, made[todo[i] := s.instruction], todo, i + 1, j, results);
    }
  }

  const ALWAYS_PUBLISHED: Results := i => RepoResult(Published, None, None, None)

  /** A run is proper whatever happens in it exactly when it is refused or no unpublished repository
      is listed twice. */
  lemma RunIsProperIff(file: Option<TicketState>, made: map<string, string>, args: Args, selected: seq<string>)
    requires Consistent(file, made)
    ensures (!Accepted(args) || Distinct(Todo(Begun(file, args).0, selected))) <==>
      forall approved: bool, results: Results :: Proper(file, made, RunActs(file, args, selected, approved, results))
  {
    hide Proper;
    hide RunActs;
    hide Begun;
    var todo := Todo(Begun(file, args).0, selected);
    if !Accepted(args) || Distinct(todo) {
      forall approved: bool, results: Results
        ensures Proper(file, made, RunActs(file, args, selected, approved, results))
      {
        RunIsProper(file, made, args, selected, approved, results);
      }
    } else {
      var d, j :| 0 <= d < j < |todo| && todo[d] == todo[j];
      DuplicateIsImproper(file, made, args, selected, d, j);
      assert !Proper(file, made, RunActs(file, args, selected, true, ALWAYS_PUBLISHED));
    }
  }

  lemma DuplicateIsImproper(
    file: Option<TicketState>, made: map<string, string>, args: Args, selected: seq<string>, d: nat, j: nat)
    requires Consistent(file, made) && Accepted(args)
    requires var todo := Todo(Begun(file, args).0, selected); d < j < |todo| && todo[d] == todo[j]
    ensures !Proper(file, made, RunActs(file, args, selected, true, ALWAYS_PUBLISHED))
  {
    hide KeepsPublished;
    hide UnderStored;
    hide Begun;
    hide Marked;
    hide Pipeline;
    var (s0, first) := Begun(file, args);
    var todo := Todo(s0, selected);
    var (s1, pending) := Marked(s0, todo, PENDING_RESULT);
    BegunIsProper(file, made, args);
    MarkedIsProper(s0, made, todo, PENDING_RESULT);
    ProperAppend(file, made, first, pending);
    FileAfterAppend(file, first, pending);
    DuplicateIsAttemptedTwice(s1, made, todo, 0, d, j, ALWAYS_PUBLISHED);
    ProperAppend(file, made, first + pending, Pipeline(s1, todo, 0, ALWAYS_PUBLISHED));
  }

  // ---------------------------------------------------------------- runs cut short, one after another

  /** A run of the driver, cut short after so many acts. */
  datatype Run = Run(args: Args, selected: seq<string>, approved: bool, results: Results, cut: nat)

  function Cut(acts: seq<Act>, n: nat): seq<Act> {
    if n < |acts| then acts[..n] else acts
  }

  /** All acts of a history of runs; each starts from the file its predecessors left. */
  function History(file: Option<TicketState>, runs: seq<Run>): seq<Act>
    decreases |runs|
  {
    if runs == [] then []
    else
      var r := runs[0];
      var acts := Cut(RunActs(file, r.args, r.selected, r.approved, r.results), r.cut);
      acts + History(FileAfter(file, acts), runs[1..])
  }

  predicate NoDuplicates(runs: seq<Run>) {
    forall i | 0 <= i < |runs| :: Distinct(runs[i].selected)
  }

  lemma {:induction false} HistoryIsProper(file: Option<TicketState>, made: map<string, string>, runs: seq<Run>)
    requires Consistent(file, made) && NoDuplicates(runs)
    ensures Proper(file, made, History(file, runs))
    decreases |runs|
  {
    hide Proper;
    hide RunActs;
    hide Consistent;
    hide Distinct;
    if runs == [] {
      NothingIsProper(file, made);
    } else {
      var r := runs[0];
      assert forall i | 0 <= i < |runs| - 1 :: runs[1..][i].selected == runs[i + 1].selected;
      var all := RunActs(file, r.args, r.selected, r.approved, r.results);
      var acts := Cut(all, r.cut);
      TodoOfDistinct(Begun(file, r.args).0, r.selected);
      RunIsProper(file, made, r.args, r.selected, r.approved, r.results);
      ProperAppend(file, made, acts, all[|acts|..]);
      assert acts + all[|acts|..] == all;
      ProperStaysConsistent(file, made, acts);
      HistoryIsProper(FileAfter(file, acts), MadeAfter(made, acts), runs[1..]);
      ProperAppend(file, made, acts, History(FileAfter(file, acts), runs[1..]));
    }
  }

  lemma NothingIsProper(file: Option<TicketState>, made: map<string, string>)
    ensures Proper(file, made, [])
  {
  }

  /** Proper acts after a state: its published repositories are neither attempted nor changed. */
  lemma {:induction false} ProperKeeps(
    file: Option<TicketState>, made: map<string, string>, acts: seq<Act>, repo: string, k: nat)
    requires PublishedIn(file, repo) && Proper(file, made, acts) && k < |acts|
    ensures match acts[k]
      case Save(t) => repo in t.repos && t.repos[repo] == file.value.repos[repo]
        && t.instruction == file.value.instruction
      case Attempt(r, _, _) => r != repo
    decreases k
  {
    var next := if acts[0].Save? then Some(acts[0].state) else file;
    if k > 0 {
      var made1 := if acts[0].Attempt? then made[acts[0].repo := acts[0].instruction] else made;
      ProperKeeps(next, made1, acts[1..], repo, k - 1);
    }
  }

  /** Through any history of runs and crashes, once a save shows a repository published, every
      later save shows it so, under the same instruction, and no later run attempts it. */
  lemma PublishedForGood(runs: seq<Run>, i: nat, k: nat, repo: string)
    requires NoDuplicates(runs)
    requires var acts := History(None, runs); i < k < |acts| && acts[i].Save? && IsPublished(acts[i].state, repo)
    ensures var acts := History(None, runs);
      match acts[k]
      case Save(t) =>
        repo in t.repos && t.repos[repo] == acts[i].state.repos[repo] && t.instruction == acts[i].state.instruction
      case Attempt(r, _, _) => r != repo
  {
    HistoryIsProper(None, map[], runs);
    hide History;
    hide NoDuplicates;
    ProperKeepsAt(History(None, runs), i, k, repo);
  }

  lemma ProperKeepsAt(acts: seq<Act>, i: nat, k: nat, repo: string)
    requires Proper(None, map[], acts) && i < k < |acts| && acts[i].Save? && IsPublished(acts[i].state, repo)
    ensures match acts[k]
      case Save(t) =>
        repo in t.repos && t.repos[repo] == acts[i].state.repos[repo] && t.instruction == acts[i].state.instruction
      case Attempt(r, _, _) => r != repo
  {
    hide Proper;
    hide MadeAfter;
    var before, after := acts[..i + 1], acts[i + 1..];
    assert acts == before + after;
    ProperAppend(None, map[], before, after);
    FileAfterSave(acts, i);
    hide FileAfter;
    ProperKeeps(Some(acts[i].state), MadeAfter(map[], before), after, repo, k - i - 1);
    assert after[k - i - 1] == acts[k];
  }

  lemma FileAfterSave(acts: seq<Act>, i: nat)
    requires i < |acts| && acts[i].Save?
    ensures FileAfter(None, acts[..i + 1]) == Some(acts[i].state)
  {
    assert acts[..i + 1] == acts[..i] + [acts[i]];
    FileAfterAppend(None, acts[..i], [acts[i]]);
  }

  /** Every repository a history leaves published was last attempted under the stored instruction. */
  lemma PublishedUnderStored(runs: seq<Run>)
    requires NoDuplicates(runs)
    ensures var acts := History(None, runs);
      FileAfter(None, acts).Some? ==> UnderStored(FileAfter(None, acts).value, MadeAfter(map[], acts))
  {
    HistoryIsProper(None, map[], runs);
    ProperStaysConsistent(None, map[], History(None, runs));
    hide History;
  }

  // ---------------------------------------------------------------- which repositories a run attempts

  /** The repositories attempted, in order, with their outcomes. */
  function Attempts(acts: seq<Act>): seq<(string, Outcome)> {
    if acts == [] then []
    else (if acts[0].Attempt? then [(acts[0].repo, acts[0].result.outcome)] else []) + Attempts(acts[1..])
  }

  lemma {:induction false} AttemptsAppend(xs: seq<Act>, ys: seq<Act>)
    ensures Attempts(xs + ys) == Attempts(xs) + Attempts(ys)
  {
    if xs == [] {
      assert xs + ys == ys;
    } else {
      assert (xs + ys)[0] == xs[0] && (xs + ys)[1..] == xs[1..] + ys;
      AttemptsAppend(xs[1..], ys);
    }
  }

  /** The attempted repositories are the first ones of the list from i on, and only the last one
      may not be published. */
  predicate StopsAtFirstFailure(attempts: seq<(string, Outcome)>, todo: seq<string>, i: nat)
    requires i <= |todo|
  {
    && |attempts| <= |todo| - i
    && (forall k | 0 <= k < |attempts| :: attempts[k].0 == todo[i + k])
    && (forall k | 0 <= k < |attempts| - 1 :: attempts[k].1 == Published)
    && (|attempts| < |todo| - i && attempts != [] ==> attempts[|attempts| - 1].1 != Published)
  }

  lemma AttemptsOfStep(s: TicketState, todo: seq<string>, i: nat, results: Results)
    requires i < |todo|
    ensures var s1 := WithRepo(s, todo[i], results(i));
      Attempts(Pipeline(s, todo, i, results)) == [(todo[i], results(i).outcome)]
        + (if results(i).outcome == Published then Attempts(Pipeline(s1, todo, i + 1, results)) else [])
  {
    var s1 := WithRepo(s, todo[i], results(i));
    var rest := if results(i).outcome == Published then Pipeline(s1, todo, i + 1, results) else [];
    var a := Attempt(todo[i], s.instruction, results(i));
    assert Pipeline(s, todo, i, results) == [a, Save(s1)] + rest;
    AttemptsAppend([a, Save(s1)], rest);
    assert [a, Save(s1)][1..] == [Save(s1)] && [Save(s1)][1..] == [];
    assert Attempts([a, Save(s1)]) == [(a.repo, a.result.outcome)];
  }

  lemma StopsCons(first: (string, Outcome), rest: seq<(string, Outcome)>, todo: seq<string>, i: nat)
    requires i < |todo| && first.0 == todo[i] && StopsAtFirstFailure(rest, todo, i + 1)
    requires first.1 == Published && i + 1 < |todo| ==> rest != []
    requires first.1 != Published ==> rest == []
    ensures StopsAtFirstFailure([first] + rest, todo, i)
    ensures EndsWell([first] + rest) <==>
      if rest == [] then first.1 == Published || first.1 == Declined else EndsWell(rest)
  {
    var all := [first] + rest;
    assert forall k | 0 <= k < |rest| :: all[k + 1] == rest[k];
    forall k | 0 <= k < |all| ensures all[k].0 == todo[i + k] {
      assert k > 0 ==> all[k] == rest[k - 1] && rest[k - 1].0 == todo[i + 1 + (k - 1)];
    }
    forall k | 0 <= k < |all| - 1 ensures all[k].1 == Published {
      assert k > 0 ==> all[k] == rest[k - 1];
    }
  }

  predicate EndsWell(attempts: seq<(string, Outcome)>) {
    attempts == [] || attempts[|attempts| - 1].1 == Published || attempts[|attempts| - 1].1 == Declined
  }

  lemma {:induction false} PipelineStops(s: TicketState, todo: seq<string>, i: nat, results: Results)
    requires i <= |todo|
    ensures StopsAtFirstFailure(Attempts(Pipeline(s, todo, i, results)), todo, i)
    ensures i < |todo| ==> Attempts(Pipeline(s, todo, i, results)) != []
    ensures ExitCode(todo, i, results) == 0 <==> EndsWell(Attempts(Pipeline(s, todo, i, results)))
    decreases |todo| - i
  {
    if i < |todo| {
      AttemptsOfStep(s, todo, i, results);
      hide StopsAtFirstFailure;
      var s1 := WithRepo(s, todo[i], results(i));
      PipelineStops(s1, todo, i + 1, results);
      var rest := if results(i).outcome == Published then Attempts(Pipeline(s1, todo, i + 1, results)) else [];
      NothingStops(todo, i + 1);
      StopsCons((todo[i], results(i).outcome), rest, todo, i);
    } else {
      PipelineEnd(s, todo, results);
    }
  }

  lemma NothingStops(todo: seq<string>, i: nat)
    requires i <= |todo|
    ensures StopsAtFirstFailure([], todo, i)
  {
  }

  predicate OnlySaves(acts: seq<Act>) {
    forall k | 0 <= k < |acts| :: acts[k].Save?
  }

  lemma {:induction false} SavesAttemptNothing(acts: seq<Act>)
    requires OnlySaves(acts)
    ensures Attempts(acts) == []
  {
    if acts != [] {
      SavesAttemptNothing(acts[1..]);
    }
  }

  lemma {:induction false} MarkedOnlySaves(s: TicketState, todo: seq<string>, r: RepoResult)
    ensures OnlySaves(Marked(s, todo, r).1)
    decreases |todo|
  {
    if todo != [] {
      var s1 := WithRepo(s, todo[0], r);
      MarkedOnlySaves(s1, todo[1..], r);
      assert Marked(s, todo, r).1 == [Save(s1)] + Marked(s1, todo[1..], r).1;
    }
  }

  lemma MarkingAttemptsNothing(s: TicketState, todo: seq<string>, r: RepoResult)
    ensures Attempts(Marked(s, todo, r).1) == []
  {
    MarkedOnlySaves(s, todo, r);
    SavesAttemptNothing(Marked(s, todo, r).1);
  }

  /** A run attempts a front part of its list, all published but perhaps the last. */
  lemma RunAttemptsAPrefix(
    file: Option<TicketState>, args: Args, selected: seq<string>, approved: bool, results: Results)
    ensures var todo := Todo(Begun(file, args).0, selected);
      var attempts := Attempts(RunActs(file, args, selected, approved, results));
      StopsAtFirstFailure(attempts, todo, 0) && (!approved ==> attempts == [])
        && (Accepted(args) && approved && todo != [] ==> attempts != [])
  {
    hide Pipeline;
    hide Marked;
    hide Todo;
    hide StopsAtFirstFailure;
    BegunAttemptsNothing(file, args);
    hide Begun;
    var (s0, first) := Begun(file, args);
    var todo := Todo(s0, selected);
    NothingStops(todo, 0);
    if Accepted(args) && todo != [] {
      var (s1, pending) := Marked(s0, todo, PENDING_RESULT);
      MarkingAttemptsNothing(s0, todo, PENDING_RESULT);
      MarkingAttemptsNothing(s1, todo, DECLINED_RESULT);
      PipelineStops(s1, todo, 0, results);
      var last := if approved then Pipeline(s1, todo, 0, results) else Marked(s1, todo, DECLINED_RESULT).1;
      AttemptsAppend(first, pending);
      AttemptsAppend(first + pending, last);
      assert [] + [] + Attempts(last) == Attempts(last);
    }
  }

  lemma BegunAttemptsNothing(file: Option<TicketState>, args: Args)
    ensures Attempts(Begun(file, args).1) == []
  {
    SavesAttemptNothing(Begun(file, args).1);
  }
}
