/** `acquireLock` and `release` as sequences of the protocol's atomic steps, with other
    processes acting between any two of them. */
module LockFile {
  import opened LockProtocol

  /** What the operating system does to this attempt's own calls. */
  datatype Faults = Faults(writeFails: bool, renameFails: bool, unlinkFails: bool) {
    predicate AllGood() { !writeFails && !renameFails && !unlinkFails }
  }

  ghost predicate Undisturbed(others: seq<seq<Event>>) {
    forall k | 0 <= k < |others| :: others[k] == []
  }

  /** The file records the pid of a process that is gone. */
  ghost predicate Stale(s: State) {
    s.entry.Present? && s.entry.written && !Alive(s, s.entry.creator)
  }

  /** The handle `acquireLock` returns. */
  class Handle {
    const pid: Pid
    var released: bool

    constructor (pid: Pid)
      ensures this.pid == pid && !released
    {
      this.pid, released := pid, false;
    }
  }

  class LockDir {
    var entry: Entry
    var next: Instance
    var procs: map<Pid, Phase>

    function View(): State
      reads this
    {
      State(entry, next, procs)
    }

    constructor ()
      ensures View() == INITIAL
    {
      entry, next, procs := Absent, 0, map[];
    }

    /** One atomic step of one process. */
    method Step(e: Event)
      requires Enabled(View(), e)
      modifies this
      ensures View() == Apply(old(View()), e)
    {
      var s := Apply(View(), e);
      entry, next, procs := s.entry, s.next, s.procs;
    }

    /** Whatever the other processes do here: the enabled ones of these events. */
    method Interfere(p: Pid, events: seq<Event>) returns (ghost run: seq<Event>)
      modifies this
      ensures ValidRun(old(View()), run) && View() == After(old(View()), run)
      ensures p in old(procs) ==> p in procs && procs[p] == old(procs[p])
      ensures events == [] ==> run == []
    {
      run := [];
      for k := 0 to |events|
        invariant ValidRun(old(View()), run) && View() == After(old(View()), run)
        invariant p in old(procs) ==> p in procs && procs[p] == old(procs[p])
        invariant events == [] ==> run == []
      {
        if events[k].pid != p && Enabled(View(), events[k]) {
          RunSnoc(old(View()), run, events[k]);
          run := run + [events[k]];
          Step(events[k]);
        }
      }
    }

    /** A step of this process followed by interference. */
    method Then(e: Event, events: seq<Event>) returns (ghost run: seq<Event>)
      requires Enabled(View(), e)
      modifies this
      ensures ValidRun(old(View()), run) && View() == After(old(View()), run)
      ensures e.pid in procs && procs[e.pid] == Apply(old(View()), e).procs[e.pid]
      ensures events == [] ==> View() == Apply(old(View()), e)
    {
      ghost var before := View();
      Step(e);
      ghost var rest := Interfere(e.pid, events);
      Cons(before, e, rest);
      run := [e] + rest;
    }

    /** The exclusive create and the write of the pid; `at` is where a failed create leads. */
    method TryCreate(p: Pid, act: Act, faults: Faults, others: seq<seq<Event>>) returns (ghost run: seq<Event>)
      requires p in procs && |others| == 2
      requires (act == Act.TryCreate && procs[p] == Idle) || (act == Recreate && procs[p] == Recreating)
      modifies this
      ensures ValidRun(old(View()), run) && View() == After(old(View()), run) && p in procs
      ensures procs[p] == if old(entry) != Absent then (if act == Act.TryCreate then Reading else Idle)
                          else if faults.writeFails then Idle else Holding(old(next))
      ensures others == [[], []] && old(entry) != Absent ==> entry == old(entry) && procs == old(procs)[p := procs[p]]
    {
      ghost var before := View();
      run := Then(Event(p, act), others[0]);
      if procs[p].Writing? {
        ghost var more := Then(Event(p, if faults.writeFails then WriteFails else WritePid), others[1]);
        RunAppend(before, run, more);
        run := run + more;
      }
    }

    /** Rename the stale file away and remove it. Losing the rename ends the attempt. */
    method TakeOverStaleLock(p: Pid, faults: Faults, others: seq<seq<Event>>) returns (ghost run: seq<Event>)
      requires p in procs && procs[p].Renaming? && |others| == 2
      modifies this
      ensures ValidRun(old(View()), run) && View() == After(old(View()), run) && p in procs
      ensures procs[p] == if faults.renameFails || old(entry) == Absent then Idle else Recreating
      ensures others == [[], []] && procs[p] == Recreating ==> entry == Absent
    {
      ghost var before := View();
      run := Then(Event(p, if faults.renameFails then RenameFails else Rename), others[0]);
      if procs[p] == Discarding {
        ghost var more := Then(Event(p, Discard), others[1]);
        RunAppend(before, run, more);
        run := run + more;
      }
    }

    /** The read of the recorded pid and the liveness test. */
    method JudgeOwner(p: Pid, others: seq<seq<Event>>) returns (ghost run: seq<Event>)
      requires p in procs && procs[p] == Reading && |others| == 2
      modifies this
      ensures ValidRun(old(View()), run) && View() == After(old(View()), run) && p in procs
      ensures procs[p] == Idle || procs[p].Renaming?
      ensures others == [[], []] ==>
        && entry == old(entry)
        && (procs[p].Renaming? <==> Stale(old(View())))
    {
      ghost var before := View();
      run := Then(Event(p, ReadPid), others[0]);
      if procs[p].Probing? {
        ghost var more := Then(Event(p, Probe), others[1]);
        RunAppend(before, run, more);
        run := run + more;
      }
    }

    /** What follows a failed first create. */
    method Contend(p: Pid, faults: Faults, others: seq<seq<Event>>) returns (ghost run: seq<Event>)
      requires p in procs && procs[p] == Reading && |others| == 6
      modifies this
      ensures ValidRun(old(View()), run) && View() == After(old(View()), run) && p in procs
      ensures procs[p] == Idle || procs[p].Holding?
      ensures Undisturbed(others) && faults.AllGood() ==> (procs[p].Holding? <==> Stale(old(View())))
    {
      ghost var before := View();
      run := JudgeOwner(p, others[0..2]);
      if procs[p].Renaming? {
        ghost var more := TakeOverStaleLock(p, faults, others[2..4]);
        RunAppend(before, run, more);
        run := run + more;
        if procs[p] == Recreating {
          more := TryCreate(p, Recreate, faults, others[4..6]);
          RunAppend(before, run, more);
          run := run + more;
        }
      }
    }

    /** Every attempt is a run of the protocol that ends either holding the lock or with
        nothing; undisturbed, it succeeds exactly on a free path or on a file whose recorded
        owner is dead. */
    method AcquireLock(p: Pid, faults: Faults, others: seq<seq<Event>>) returns (lock: Handle?, ghost run: seq<Event>)
      requires p in procs && procs[p] == Idle && |others| == 8
      modifies this
      ensures ValidRun(old(View()), run) && View() == After(old(View()), run) && p in procs
      ensures lock != null ==> Holds(View(), p) && fresh(lock) && lock.pid == p && !lock.released
      ensures lock == null ==> procs[p] == Idle
      ensures Undisturbed(others) && faults.AllGood() ==>
        (lock != null <==> old(entry) == Absent || Stale(old(View())))
    {
      ghost var before := View();
      run := TryCreate(p, Act.TryCreate, faults, others[0..2]);
      if procs[p] == Reading {
        ghost var middle := View();
        ghost var more := Contend(p, faults, others[2..8]);
        RunAppend(before, run, more);
        run := run + more;
        assert Undisturbed(others) ==> Undisturbed(others[2..8]) && others[0..2] == [[], []];
        assert Undisturbed(others) ==> Stale(middle) == Stale(before);
      }
      lock := null;
      if procs[p].Holding? {
        lock := new Handle(p);
      }
    }

    /** Removes the file only if it records this process's pid; a second call does nothing. */
    method Release(lock: Handle, faults: Faults, others: seq<seq<Event>>) returns (ghost run: seq<Event>)
      requires lock.pid in procs && (!lock.released ==> Holds(View(), lock.pid)) && |others| == 3
      modifies this, lock`released
      ensures ValidRun(old(View()), run) && View() == After(old(View()), run)
      ensures lock.released && (!old(lock.released) ==> lock.pid in procs && procs[lock.pid] == Idle)
      ensures old(lock.released) ==> run == []
      ensures Undisturbed(others) && faults.AllGood() && !old(lock.released) ==>
        entry == if old(entry).Present? && old(entry).written && old(entry).creator == lock.pid
                 then Absent else old(entry)
    {
      run := [];
      if lock.released { return; }
      lock.released := true;
      var p := lock.pid;
      ghost var before := View();
      run := Then(Event(p, StartRelease), others[0]);
      ghost var more := CheckAndUnlink(p, faults, others[1..]);
      RunAppend(before, run, more);
      run := run + more;
    }

    /** The read of the recorded pid and, if it is this process's, the unlink. */
    method CheckAndUnlink(p: Pid, faults: Faults, others: seq<seq<Event>>) returns (ghost run: seq<Event>)
      requires p in procs && procs[p].Releasing? && |others| == 2
      modifies this
      ensures ValidRun(old(View()), run) && View() == After(old(View()), run)
      ensures p in procs && procs[p] == Idle
      ensures others == [[], []] && faults.AllGood() ==>
        entry == if old(entry).Present? && old(entry).written && old(entry).creator == p then Absent else old(entry)
    {
      ghost var before := View();
      run := Then(Event(p, CheckOwner), others[0]);
      if procs[p].Unlinking? {
        ghost var more := Then(Event(p, if faults.unlinkFails then UnlinkFails else Unlink), others[1]);
        RunAppend(before, run, more);
        run := run + more;
      }
    }

    /** The read-only look: does the file exist, whom does it record, is that process alive. Other
        processes act between the looks. */
    method IsLockPotentiallyLive(p: Pid, others: seq<seq<Event>>)
      returns (live: bool, ghost run: seq<Event>, ghost atRead: State, ghost atProbe: State)
      requires p !in procs && |others| == 2
      modifies this
      ensures ValidRun(old(View()), run) && View() == After(old(View()), run)
      ensures live == PotentiallyLive(old(View()), atRead, atProbe)
      ensures !live ==> old(entry) == Absent || (Stale(atProbe.(entry := atRead.entry)) && atProbe == View())
      ensures others == [[], []] ==> View() == old(View()) && (live <==> entry != Absent && !Stale(View()))
    {
      ghost var before := View();
      run, atRead, atProbe := [], View(), View();
      if entry == Absent {
        return false, run, atRead, atProbe;
      }
      run := Interfere(p, others[0]);
      atRead := View();
      var seen := entry;
      ghost var more := Interfere(p, others[1]);
      RunAppend(before, run, more);
      run := run + more;
      atProbe := View();
      live := seen == Absent || !seen.written || Alive(View(), seen.creator);
    }
  }

  lemma RunSnoc(s: State, es: seq<Event>, e: Event)
    requires ValidRun(s, es) && Enabled(After(s, es), e)
    ensures ValidRun(s, es + [e]) && After(s, es + [e]) == Apply(After(s, es), e)
  {
    assert [e][1..] == [];
    RunAppend(s, es, [e]);
  }
}
