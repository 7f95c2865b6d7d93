/** The per-ticket lock file as a protocol between any number of processes. Every file-system
    call and every liveness test is one atomic step; between two steps of one process any
    other process may act or crash. */
module LockProtocol {

  /** Process ids are positive, and never reused. */
  type Pid = p: nat | 0 < p witness 1

  /** Every successful exclusive create makes a new file instance. */
  type Instance = nat

  /** What the path `spined.lock` names. The contents can be attributed once the creator has
      written its pid; until then a reader finds nothing it can parse. */
  datatype Entry = Absent | Present(inst: Instance, creator: Pid, written: bool)

  /** Where a process stands in `acquireLock` and `release`. */
  datatype Phase =
    | Idle                                                  // no attempt under way, nothing held
    | Writing(inst: Instance)                               // created the file, about to write the pid
    | Reading                                               // the create failed, about to read the pid
    | Probing(owner: Pid, seen: Instance, clock: Instance)  // about to test whether `owner` is alive
    | Renaming(owner: Pid, seen: Instance, clock: Instance) // judged it dead, about to rename
    | Discarding                                            // about to remove the renamed file
    | Recreating                                            // about to create again
    | Holding(inst: Instance)                               // the lock has been handed out
    | Releasing(inst: Instance)                             // `released` is set, about to read the pid
    | Unlinking(inst: Instance)                             // read its own pid, about to remove the file
    | Crashed

  datatype State = State(entry: Entry, next: Instance, procs: map<Pid, Phase>)

  datatype Act =
    | Spawn | Crash
    | TryCreate | WritePid | WriteFails
    | ReadPid | Probe | Rename | RenameFails | Discard | Recreate
    | StartRelease | CheckOwner | Unlink | UnlinkFails

  datatype Event = Event(pid: Pid, act: Act)

  const INITIAL := State(Absent, 0, map[])

  predicate Alive(s: State, p: Pid) {
    p in s.procs && s.procs[p] != Crashed
  }

  predicate Enabled(s: State, e: Event) {
    if e.act == Spawn then e.pid !in s.procs
    else
      && e.pid in s.procs
      && match s.procs[e.pid]
         case Idle => e.act in {Crash, TryCreate}
         case Writing(_) => e.act in {Crash, WritePid, WriteFails}
         case Reading => e.act in {Crash, ReadPid}
         case Probing(_, _, _) => e.act in {Crash, Probe}
         case Renaming(_, _, _) => e.act in {Crash, Rename, RenameFails}
         case Discarding => e.act in {Crash, Discard}
         case Recreating => e.act in {Crash, Recreate}
         case Holding(_) => e.act in {Crash, StartRelease}
         case Releasing(_) => e.act in {Crash, CheckOwner}
         case Unlinking(_) => e.act in {Crash, Unlink, UnlinkFails}
         case Crashed => false
  }

  function Goto(s: State, p: Pid, phase: Phase): State {
    s.(procs := s.procs[p := phase])
  }

  /** `open` with O_CREAT|O_EXCL: a fresh instance when the path is free. */
  function Create(s: State, p: Pid, otherwise: Phase): State {
    if s.entry == Absent
    then Goto(State(Present(s.next, p, false), s.next + 1, s.procs), p, Writing(s.next))
    else Goto(s, p, otherwise)
  }

  /** The effect of one step. */
  function Apply(s: State, e: Event): State
    requires Enabled(s, e)
  {
    var p := e.pid;
    match e.act
    case Spawn => Goto(s, p, Idle)
    case Crash => Goto(s, p, Crashed)
    case TryCreate => Create(s, p, Reading)
    case WritePid =>
      // the open descriptor writes to the instance it created, wherever that now is
      var i := s.procs[p].inst;
      var entry := if s.entry.Present? && s.entry.inst == i then s.entry.(written := true) else s.entry;
      Goto(s.(entry := entry), p, Holding(i))
    case WriteFails => Goto(s, p, Idle)
    case ReadPid =>
      if s.entry.Present? && s.entry.written
      then Goto(s, p, Probing(s.entry.creator, s.entry.inst, s.next))
      else Goto(s, p, Idle)
    case Probe =>
      var Probing(owner, seen, clock) := s.procs[p];
      Goto(s, p, if Alive(s, owner) then Idle else Renaming(owner, seen, clock))
    case Rename =>
      if s.entry == Absent then Goto(s, p, Idle) else Goto(s.(entry := Absent), p, Discarding)
    case RenameFails => Goto(s, p, Idle)
    case Discard => Goto(s, p, Recreating)
    case Recreate => Create(s, p, Idle)
    case StartRelease => Goto(s, p, Releasing(s.procs[p].inst))
    case CheckOwner =>
      if s.entry.Present? && s.entry.written && s.entry.creator == p
      then Goto(s, p, Unlinking(s.procs[p].inst))
      else Goto(s, p, Idle)
    case Unlink => Goto(s.(entry := Absent), p, Idle)
    case UnlinkFails => Goto(s, p, Idle)
  }

  // ----- runs -----

  ghost predicate ValidRun(s: State, es: seq<Event>)
    decreases |es|
  {
    es == [] || (Enabled(s, es[0]) && ValidRun(Apply(s, es[0]), es[1..]))
  }

  ghost function After(s: State, es: seq<Event>): State
    requires ValidRun(s, es)
    decreases |es|
  {
    if es == [] then s else After(Apply(s, es[0]), es[1..])
  }

  predicate Holds(s: State, p: Pid) {
    p in s.procs && s.procs[p].Holding?
  }

  ghost predicate AtMostOneHolder(s: State) {
    forall p, q | Holds(s, p) && Holds(s, q) :: p == q
  }

  ghost predicate TwoHolders(s: State) {
    exists p, q :: p != q && Holds(s, p) && Holds(s, q)
  }

  /** The process relies on this instance staying where it is: it is writing its pid, holds
      the lock, or is about to unlink what it has just checked to be its own. */
  predicate Relies(s: State, p: Pid, i: Instance) {
    p in s.procs && s.procs[p] in {Writing(i), Holding(i), Unlinking(i)}
  }

  /** The rename this process is about to make would move away a file that its creator still
      relies on. */
  predicate Evicts(s: State, p: Pid) {
    p in s.procs && s.procs[p].Renaming? && s.entry.Present? && Relies(s, s.entry.creator, s.entry.inst)
  }

  ghost predicate NoEviction(s: State, es: seq<Event>)
    requires ValidRun(s, es)
    decreases |es|
  {
    es == [] || ((es[0].act == Rename ==> !Evicts(s, es[0].pid)) && NoEviction(Apply(s, es[0]), es[1..]))
  }

  // ----- safety without eviction -----

  /** Whoever relies on an instance finds it at the path. */
  ghost predicate Anchored(s: State) {
    forall p, i | Relies(s, p, i) ::
      s.entry.Present? && s.entry.inst == i && s.entry.creator == p && (!s.procs[p].Writing? ==> s.entry.written)
  }

  lemma AnchoredMeansOneHolder(s: State)
    requires Anchored(s)
    ensures AtMostOneHolder(s)
  {
    forall p, q | Holds(s, p) && Holds(s, q) ensures p == q {
      assert Relies(s, p, s.procs[p].inst) && Relies(s, q, s.procs[q].inst);
    }
  }

  /** Facts about instance numbers that every run keeps. A process that has read a pid has
      read it from instance `seen` when `clock` instances existed: nothing older than the
      clock but `seen` itself can be at the path again, and the owner it judged dead stays
      dead. A process in its release only finds its own pid in the instance it released. */
  ghost predicate Consistent(s: State) {
    && (s.entry.Present? ==> s.entry.inst < s.next && s.entry.creator in s.procs)
    && forall p | p in s.procs :: PhaseConsistent(s, p)
  }

  ghost predicate PhaseConsistent(s: State, p: Pid)
    requires p in s.procs
  {
    match s.procs[p]
    case Probing(owner, seen, clock) => ReadConsistent(s, owner, seen, clock)
    case Renaming(owner, seen, clock) => ReadConsistent(s, owner, seen, clock) && s.procs[owner] == Crashed
    case Writing(i) => OwnConsistent(s, p, i)
    case Holding(i) => OwnConsistent(s, p, i)
    case Releasing(i) => OwnConsistent(s, p, i)
    case Unlinking(i) => OwnConsistent(s, p, i)
    case _ => true
  }

  ghost predicate OwnConsistent(s: State, p: Pid, i: Instance) {
    i < s.next && (s.entry.Present? && s.entry.creator == p ==> s.entry.inst == i)
  }

  ghost predicate ReadConsistent(s: State, owner: Pid, seen: Instance, clock: Instance) {
    && owner in s.procs && seen < clock <= s.next
    && (s.entry.Present? && s.entry.inst < clock ==> s.entry.inst == seen && s.entry.creator == owner)
  }

  /** A step empties the path, leaves the instance there, or puts a new one of its own. */
  lemma EntryMoves(s: State, e: Event)
    requires Enabled(s, e)
    ensures var s' := Apply(s, e);
      && s.next <= s'.next && s.procs.Keys <= s'.procs.Keys
      && (s'.entry == Absent
          || (s.entry.Present? && s'.entry.Present? && s'.entry.inst == s.entry.inst
            && s'.entry.creator == s.entry.creator && (s.entry.written ==> s'.entry.written))
          || (s'.entry == Present(s.next, e.pid, false) && s'.next == s.next + 1))
    ensures var s' := Apply(s, e);
      forall p | p in s.procs && p != e.pid :: s'.procs[p] == s.procs[p]
  {
  }

  lemma OthersStayConsistent(s: State, e: Event, p: Pid)
    requires Consistent(s) && Enabled(s, e) && p in s.procs && p != e.pid
    ensures PhaseConsistent(Apply(s, e), p)
  {
    EntryMoves(s, e);
    assert PhaseConsistent(s, p);
    var s' := Apply(s, e);
    if s.procs[p].Probing? || s.procs[p].Renaming? {
      var owner := s.procs[p].owner;
      assert s.procs[owner] == Crashed ==> owner != e.pid;
    }
  }

  lemma MoverIsConsistent(s: State, e: Event)
    requires Consistent(s) && Enabled(s, e)
    ensures PhaseConsistent(Apply(s, e), e.pid)
  {
    EntryMoves(s, e);
    assert e.act != Spawn ==> PhaseConsistent(s, e.pid);
  }

  lemma StepKeepsConsistent(s: State, e: Event)
    requires Consistent(s) && Enabled(s, e)
    ensures Consistent(Apply(s, e))
  {
    var s' := Apply(s, e);
    EntryMoves(s, e);
    forall p | p in s'.procs ensures PhaseConsistent(s', p) {
      if p == e.pid { MoverIsConsistent(s, e); } else { OthersStayConsistent(s, e, p); }
    }
  }

  lemma StepKeepsAnchored(s: State, e: Event)
    requires Anchored(s) && Consistent(s) && Enabled(s, e) && (e.act == Rename ==> !Evicts(s, e.pid))
    ensures Anchored(Apply(s, e))
  {
    var s' := Apply(s, e);
    EntryMoves(s, e);
    forall p, i | Relies(s', p, i)
      ensures s'.entry.Present? && s'.entry.inst == i && s'.entry.creator == p
        && (!s'.procs[p].Writing? ==> s'.entry.written)
    {
      if p != e.pid {
        OtherStaysAnchored(s, e, p, i);
      } else {
        MoverIsAnchored(s, e, i);
      }
    }
  }

  lemma OtherStaysAnchored(s: State, e: Event, p: Pid, i: Instance)
    requires Anchored(s) && Enabled(s, e) && (e.act == Rename ==> !Evicts(s, e.pid))
    requires p != e.pid && Relies(Apply(s, e), p, i)
    ensures var s' := Apply(s, e);
      s'.entry.Present? && s'.entry.inst == i && s'.entry.creator == p && (!s'.procs[p].Writing? ==> s'.entry.written)
  {
    EntryMoves(s, e);
    assert Relies(s, p, i);
    if e.act == Unlink {
      assert Relies(s, e.pid, s.procs[e.pid].inst);
    }
  }

  lemma MoverIsAnchored(s: State, e: Event, i: Instance)
    requires Anchored(s) && Consistent(s) && Enabled(s, e) && Relies(Apply(s, e), e.pid, i)
    ensures var s' := Apply(s, e);
      s'.entry.Present? && s'.entry.inst == i && s'.entry.creator == e.pid
        && (!s'.procs[e.pid].Writing? ==> s'.entry.written)
  {
    if e.act == WritePid {
      assert Relies(s, e.pid, i);
    } else if e.act == CheckOwner {
      assert PhaseConsistent(s, e.pid);
    }
  }

  /** Runs that never evict are exclusive at every point. */
  lemma {:induction false} NoEvictionKeepsExclusion(s: State, es: seq<Event>)
    requires Consistent(s) && Anchored(s) && ValidRun(s, es) && NoEviction(s, es)
    ensures Consistent(After(s, es)) && Anchored(After(s, es)) && AtMostOneHolder(After(s, es))
    decreases |es|
  {
    if es == [] {
      AnchoredMeansOneHolder(s);
    } else {
      StepKeepsConsistent(s, es[0]);
      StepKeepsAnchored(s, es[0]);
      NoEvictionKeepsExclusion(Apply(s, es[0]), es[1..]);
    }
  }

  // ----- the condition a process could check: rename only what was read -----

  /** Every rename lands on nothing, or on an instance that already existed when the renaming
      process read the dead pid. */
  ghost predicate RenamesOnlyOld(s: State, es: seq<Event>)
    requires ValidRun(s, es)
    decreases |es|
  {
    es == [] || ((es[0].act == Rename && s.entry.Present? ==> s.entry.inst < s.procs[es[0].pid].clock)
      && RenamesOnlyOld(Apply(s, es[0]), es[1..]))
  }

  /** An instance older than the read is the instance that was read, and its creator is dead. */
  lemma OldInstanceIsStale(s: State, p: Pid)
    requires Consistent(s) && p in s.procs && s.procs[p].Renaming?
    requires s.entry.Present? && s.entry.inst < s.procs[p].clock
    ensures s.entry.inst == s.procs[p].seen && !Alive(s, s.entry.creator) && !Evicts(s, p)
  {
    assert PhaseConsistent(s, p);
  }

  lemma {:induction false} RenamingOldNeverEvicts(s: State, es: seq<Event>)
    requires Consistent(s) && ValidRun(s, es) && RenamesOnlyOld(s, es)
    ensures NoEviction(s, es)
    decreases |es|
  {
    if es != [] {
      if es[0].act == Rename && s.entry.Present? {
        OldInstanceIsStale(s, es[0].pid);
      }
      StepKeepsConsistent(s, es[0]);
      RenamingOldNeverEvicts(Apply(s, es[0]), es[1..]);
    }
  }

  lemma InitialIsGood()
    ensures Consistent(INITIAL) && Anchored(INITIAL)
  {
  }

  /** Mutual exclusion over every interleaving of any number of processes, with crashes, as
      long as no rename lands on a file created after the renamer's read. */
  lemma MutualExclusion(es: seq<Event>)
    requires ValidRun(INITIAL, es) && RenamesOnlyOld(INITIAL, es)
    ensures AtMostOneHolder(After(INITIAL, es))
  {
    InitialIsGood();
    RenamingOldNeverEvicts(INITIAL, es);
    NoEvictionKeepsExclusion(INITIAL, es);
  }

  // ----- the condition is exact -----

  lemma {:induction false} RunAppend(s: State, a: seq<Event>, b: seq<Event>)
    requires ValidRun(s, a) && ValidRun(After(s, a), b)
    ensures ValidRun(s, a + b) && After(s, a + b) == After(After(s, a), b)
    ensures NoEviction(s, a) && NoEviction(After(s, a), b) <==> NoEviction(s, a + b)
    decreases |a|
  {
    if a == [] {
      assert a + b == b;
    } else {
      assert (a + b)[1..] == a[1..] + b;
      RunAppend(Apply(s, a[0]), a[1..], b);
    }
  }

  lemma OneStep(s: State, e: Event)
    requires Enabled(s, e) && e.act != Rename
    ensures ValidRun(s, [e]) && After(s, [e]) == Apply(s, e) && NoEviction(s, [e])
  {
    assert [e][1..] == [];
  }

  lemma TwoSteps(s: State, e: Event, f: Event)
    requires Enabled(s, e) && Enabled(Apply(s, e), f) && e.act != Rename && f.act != Rename
    ensures ValidRun(s, [e, f]) && After(s, [e, f]) == Apply(Apply(s, e), f) && NoEviction(s, [e, f])
  {
    OneStep(s, e);
    OneStep(Apply(s, e), f);
    assert [e] + [f] == [e, f];
    RunAppend(s, [e], [f]);
  }

  /** A process that has renamed the file and meets no one gets the lock. */
  lemma TakeOverCompletes(s: State, p: Pid) returns (es: seq<Event>)
    requires p in s.procs && s.procs[p] == Discarding && s.entry == Absent
    ensures es == [Event(p, Discard), Event(p, Recreate), Event(p, WritePid)]
    ensures ValidRun(s, es) && NoEviction(s, es)
    ensures After(s, es) == State(Present(s.next, p, true), s.next + 1, s.procs[p := Holding(s.next)])
  {
    OneStep(s, Event(p, Discard));
    var s1 := Apply(s, Event(p, Discard));
    TwoSteps(s1, Event(p, Recreate), Event(p, WritePid));
    es := [Event(p, Discard)] + [Event(p, Recreate), Event(p, WritePid)];
    RunAppend(s, [Event(p, Discard)], [Event(p, Recreate), Event(p, WritePid)]);
    assert s1.procs[p := Writing(s.next)][p := Holding(s.next)] == s.procs[p := Holding(s.next)];
    assert es == [Event(p, Discard), Event(p, Recreate), Event(p, WritePid)];
  }

  /** An evicted process that still relies on its file ends up holding beside the evictor. */
  lemma EvictedStillHolds(s: State, p: Pid, q: Pid, i: Instance) returns (es: seq<Event>)
    requires p != q && Holds(s, p) && s.entry.Present? && s.entry.inst != i && Relies(s, q, i)
    ensures ValidRun(s, es) && NoEviction(s, es) && TwoHolders(After(s, es))
  {
    match s.procs[q] {
      case Holding(_) =>
        es := [];
        assert p != q && Holds(s, p) && Holds(s, q);
      case Writing(_) =>
        var e := Event(q, WritePid);
        es := [e];
        OneStep(s, e);
        assert Holds(Apply(s, e), p) && Holds(Apply(s, e), q);
      case Unlinking(_) =>
        var e, f, g := Event(q, Unlink), Event(q, TryCreate), Event(q, WritePid);
        OneStep(s, e);
        var s1 := Apply(s, e);
        TwoSteps(s1, f, g);
        RunAppend(s, [e], [f, g]);
        es := [e] + [f, g];
        assert Holds(After(s, es), p) && Holds(After(s, es), q);
    }
  }

  /** One rename decides it: exclusion survives every eviction-free future of this rename if
      and only if the renamed file is not one its creator relies on. */
  lemma EvictionIsExactlyTheDanger(s: State, p: Pid)
    requires Consistent(s) && Anchored(s) && Enabled(s, Event(p, Rename))
    ensures var s' := Apply(s, Event(p, Rename));
      Evicts(s, p) <==> exists es :: ValidRun(s', es) && NoEviction(s', es) && TwoHolders(After(s', es))
  {
    var s' := Apply(s, Event(p, Rename));
    if Evicts(s, p) {
      var q, i := s.entry.creator, s.entry.inst;
      var takeOver := TakeOverCompletes(s', p);
      var s'' := After(s', takeOver);
      assert Relies(s'', q, i);
      var rest := EvictedStillHolds(s'', p, q, i);
      RunAppend(s', takeOver, rest);
      var es := takeOver + rest;
      assert ValidRun(s', es) && NoEviction(s', es) && TwoHolders(After(s', es));
    } else {
      StepKeepsConsistent(s, Event(p, Rename));
      StepKeepsAnchored(s, Event(p, Rename));
      forall es | ValidRun(s', es) && NoEviction(s', es) ensures !TwoHolders(After(s', es)) {
        NoEvictionKeepsExclusion(s', es);
      }
    }
  }

  /** From every state the run passes through, eviction-free futures are exclusive. */
  ghost predicate ReliablyExclusive(s: State, es: seq<Event>)
    requires ValidRun(s, es)
    decreases |es|
  {
    && (forall future | ValidRun(s, future) && NoEviction(s, future) :: AtMostOneHolder(After(s, future)))
    && (es == [] || ReliablyExclusive(Apply(s, es[0]), es[1..]))
  }

  /** For whole runs: exclusion can be relied on throughout exactly when nothing was evicted. */
  lemma {:induction false} ExclusionIffNoEviction(s: State, es: seq<Event>)
    requires Consistent(s) && Anchored(s) && ValidRun(s, es)
    ensures ReliablyExclusive(s, es) <==> NoEviction(s, es)
    decreases |es|
  {
    forall future | ValidRun(s, future) && NoEviction(s, future) ensures AtMostOneHolder(After(s, future)) {
      NoEvictionKeepsExclusion(s, future);
    }
    if es != [] {
      var s' := Apply(s, es[0]);
      if es[0].act == Rename && Evicts(s, es[0].pid) {
        EvictionIsExactlyTheDanger(s, es[0].pid);
        var bad :| ValidRun(s', bad) && NoEviction(s', bad) && TwoHolders(After(s', bad));
        assert !AtMostOneHolder(After(s', bad));
        assert !ReliablyExclusive(s', es[1..]);
      } else {
        StepKeepsConsistent(s, es[0]);
        StepKeepsAnchored(s, es[0]);
        ExclusionIffNoEviction(s', es[1..]);
      }
    }
  }

  // ----- a run that breaks exclusion -----

  lemma Cons(s: State, e: Event, es: seq<Event>)
    requires Enabled(s, e) && ValidRun(Apply(s, e), es)
    ensures ValidRun(s, [e] + es) && After(s, [e] + es) == After(Apply(s, e), es)
  {
    assert ([e] + es)[1..] == es;
  }

  /** A crashed owner, and two others that have both read its pid and found it dead. */
  const RACERS_READY :=
    State(Present(0, 1, true), 1, map[1 := Crashed, 2 := Renaming(1, 0, 1), 3 := Renaming(1, 0, 1)])

  lemma RacersReadyIsReachable() returns (es: seq<Event>)
    ensures ValidRun(INITIAL, es) && NoEviction(INITIAL, es) && After(INITIAL, es) == RACERS_READY
  {
    var a := OwnerCrashes();
    var s1 := State(Present(0, 1, true), 1, map[1 := Crashed]);
    var b := ReaderArrives(s1, 2);
    var s2 := After(s1, b);
    var c := ReaderArrives(s2, 3);
    RunAppend(s1, b, c);
    RunAppend(INITIAL, a, b + c);
    es := a + (b + c);
  }

  lemma OwnerCrashes() returns (es: seq<Event>)
    ensures ValidRun(INITIAL, es) && NoEviction(INITIAL, es)
    ensures After(INITIAL, es) == State(Present(0, 1, true), 1, map[1 := Crashed])
  {
    TwoSteps(INITIAL, Event(1, Spawn), Event(1, TryCreate));
    var s := After(INITIAL, [Event(1, Spawn), Event(1, TryCreate)]);
    TwoSteps(s, Event(1, WritePid), Event(1, Crash));
    RunAppend(INITIAL, [Event(1, Spawn), Event(1, TryCreate)], [Event(1, WritePid), Event(1, Crash)]);
    es := [Event(1, Spawn), Event(1, TryCreate)] + [Event(1, WritePid), Event(1, Crash)];
  }

  /** A fresh process tries to create, reads the recorded pid and finds it dead. */
  lemma ReaderArrives(s: State, p: Pid) returns (es: seq<Event>)
    requires p !in s.procs && s.entry.Present? && s.entry.written
    requires s.entry.creator in s.procs && s.procs[s.entry.creator] == Crashed
    ensures ValidRun(s, es) && NoEviction(s, es)
    ensures After(s, es) == s.(procs := s.procs[p := Renaming(s.entry.creator, s.entry.inst, s.next)])
  {
    TwoSteps(s, Event(p, Spawn), Event(p, TryCreate));
    var s1 := After(s, [Event(p, Spawn), Event(p, TryCreate)]);
    TwoSteps(s1, Event(p, ReadPid), Event(p, Probe));
    RunAppend(s, [Event(p, Spawn), Event(p, TryCreate)], [Event(p, ReadPid), Event(p, Probe)]);
    es := [Event(p, Spawn), Event(p, TryCreate)] + [Event(p, ReadPid), Event(p, Probe)];
  }

  /** The steps of a takeover, from the rename to the pid of the new file. */
  function TakeOver(p: Pid): seq<Event> {
    [Event(p, Rename), Event(p, Discard), Event(p, Recreate), Event(p, WritePid)]
  }

  lemma TakeOverRuns(s: State, p: Pid)
    requires p in s.procs && s.procs[p].Renaming? && s.entry.Present?
    ensures ValidRun(s, TakeOver(p))
    ensures After(s, TakeOver(p)) == State(Present(s.next, p, true), s.next + 1, s.procs[p := Holding(s.next)])
  {
    var s1 := Apply(s, Event(p, Rename));
    var rest := TakeOverCompletes(s1, p);
    Cons(s, Event(p, Rename), rest);
    assert [Event(p, Rename)] + rest == TakeOver(p);
    assert s1.procs[p := Holding(s.next)] == s.procs[p := Holding(s.next)];
  }

  /** The atomic rename does not close the race it is meant to close: both racers have read the
      same dead pid, the first renames, creates and holds, and the second then renames the
      first one's fresh file, creates its own and holds as well. */
  lemma TwoHoldersAreReachable() returns (ready: seq<Event>)
    ensures ValidRun(INITIAL, ready) && After(INITIAL, ready) == RACERS_READY
    ensures ValidRun(RACERS_READY, TakeOver(2) + TakeOver(3))
    ensures var s := After(RACERS_READY, TakeOver(2) + TakeOver(3)); Holds(s, 2) && Holds(s, 3)
    ensures ValidRun(INITIAL, ready + (TakeOver(2) + TakeOver(3)))
    ensures TwoHolders(After(INITIAL, ready + (TakeOver(2) + TakeOver(3))))
  {
    ready := RacersReadyIsReachable();
    TakeOverRuns(RACERS_READY, 2);
    TakeOverRuns(After(RACERS_READY, TakeOver(2)), 3);
    RunAppend(RACERS_READY, TakeOver(2), TakeOver(3));
    RunAppend(INITIAL, ready, TakeOver(2) + TakeOver(3));
    hide ValidRun;
    hide After;
    hide TakeOver;
    var s := After(INITIAL, ready + (TakeOver(2) + TakeOver(3)));
    assert Holds(s, 2) && Holds(s, 3);
  }

  // ----- the read-only peek -----

  /** What the peek answers when its existence test, its read and its liveness test see these
      three states. */
  predicate PotentiallyLive(atExists: State, atRead: State, atProbe: State) {
    atExists.entry.Present?
    && (atRead.entry.Present? && atRead.entry.written ==> Alive(atProbe, atRead.entry.creator))
  }

  /** A reseed is refused for as long as somebody holds the lock, whatever else happens
      between the peek's three looks. */
  lemma PeekSeesTheHolder(s1: State, s2: State, s3: State, p: Pid)
    requires Anchored(s1) && Anchored(s2) && Anchored(s3)
    requires Holds(s1, p) && Holds(s2, p) && Holds(s3, p)
    ensures PotentiallyLive(s1, s2, s3)
  {
    assert Relies(s1, p, s1.procs[p].inst) && Relies(s2, p, s2.procs[p].inst);
  }
}
