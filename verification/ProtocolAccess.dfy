/**
 Access to freed jobs: exactly which jobs the worker and the event loop touch after
 they were freed, when the unlocked admission check does, and when a wakeup is asked
 of a manager that is gone.
 */
module ProtocolAccess {
  import opened Basics
  import opened Protocol
  import opened ProtocolInvariant

  /** The worker read the orphan flag as set, and freed the job. */
  predicate FreedByWorker(b: Job) { b.orphaned && b.phase == Retired && !b.spared }

  /** What the records of accesses hold, job by job. */
  ghost predicate Recorded(s: State) {
    && (forall j :: j in s.jobs && s.jobs[j].early && s.jobs[j].phase == Retired ==> j in s.faults)
    && (forall j :: j in s.looks ==> j in s.jobs && Bygone(s.jobs[j]))
    && (s.e.ELook? && s.e.j in s.jobs && s.jobs[s.e.j].answers == 1 ==> s.jobs[s.e.j].early)
  }

  predicate Bygone(b: Job) { b.early || FreedByWorker(b) }

  /** A step that changes job j alone, and marks it if it retires after it was freed. */
  ghost predicate Notes(s: State, s': State, j: JobId) {
    && j in s.jobs && j in s'.jobs && s'.jobs == s.jobs[j := s'.jobs[j]]
    && s.faults <= s'.faults && s'.looks == s.looks
    && (Bygone(s.jobs[j]) ==> Bygone(s'.jobs[j]))
    && (s'.jobs[j].early && s'.jobs[j].phase == Retired ==>
         j in s'.faults || (s.jobs[j].early && s.jobs[j].phase == Retired))
    && (s'.e.ELook? ==> s'.e == s.e && s'.jobs[j].answers == s.jobs[j].answers
                        && (s.jobs[j].early ==> s'.jobs[j].early))
  }

  lemma NotesKeep(s: State, s': State, j: JobId)
    requires Recorded(s) && Notes(s, s', j)
    ensures Recorded(s')
  {
  }

  lemma WorkerNotes(s: State, s': State, j: JobId, ch: Choice)
    requires JobsInv(s) && WorkerChange(s, s', j, ch)
    ensures Notes(s, s', j)
  {
    assert JobInv(s, j);
    if s.w.WClear? {
      ClearKeeps(s.jobs[j], s.w, ch);
    }
  }

  /** The step that does not access the job leaves it alone. */
  lemma ClearKeeps(b: Job, w: WorkerPc, ch: Choice)
    requires w.WClear?
    ensures WorkerJob(w, b, ch) == b
  {
  }

  lemma TakeNotes(s: State)
    requires Inv(s) && s.w.WTop? && s.running && s.slot.Ptr?
    ensures Notes(s, WorkerStep(s, Go), s.slot.ptr)
  {
    SlotQueued(s);
  }

  lemma SlotQueued(s: State)
    requires Inv(s) && s.w.WTop? && s.slot.Ptr?
    ensures s.jobs[s.slot.ptr].phase == Queued && !s.jobs[s.slot.ptr].early
  {
    assert JobInv(s, s.slot.ptr);
  }

  lemma LoopNotes(s: State, s': State, j: JobId, c: ConnId)
    requires JobsInv(s) && LoopChange(s, s', j, c) && s'.looks == s.looks && s.faults <= s'.faults
    ensures Notes(s, s', j)
  {
    assert JobInv(s, j);
    StoredNotBygone(s, j);
    StoredMarks(s.jobs[j], s.e);
    assert s'.jobs[j] == LoopJob(s.e, s.jobs[j]);
  }

  lemma StoredMarks(b: Job, e: LoopPc)
    requires (EJob(e).Ptr? || EClosing(e).Ptr?) && !Bygone(b)
    ensures LoopJob(e, b).early ==> LoopJob(e, b).phase != Retired
    ensures !LoopNext(e, b).ELook?
  {
  }

  lemma LoopRecords(s: State)
    requires LoopEnabled(s, Go) && (EJob(s.e).Ptr? || EClosing(s.e).Ptr?)
    ensures LoopStep(s, Go).looks == s.looks && s.faults <= LoopStep(s, Go).faults
  {
  }

  lemma StoredNotBygone(s: State, j: JobId)
    requires j in s.jobs && JobInv(s, j) && (EJob(s.e) == Ptr(j) || EClosing(s.e) == Ptr(j))
    ensures !Bygone(s.jobs[j])
  {
  }

  lemma BareKeeps(s: State, s': State)
    requires Recorded(s) && Bare(s, s')
    requires s'.e.ELook? && s'.e.j in s'.jobs && s'.jobs[s'.e.j].answers == 1 ==> s'.jobs[s'.e.j].early
    ensures Recorded(s')
  {
  }

  lemma LookNotes(s: State)
    requires Inv(s) && Recorded(s) && s.e.ELook? && LoopEnabled(s, Go)
    ensures Recorded(LoopStep(s, Go))
  {
    FreedThen(s, s.e.j);
    LookStep(s);
  }

  lemma FreedThen(s: State, j: JobId)
    requires JobsInv(s) && Recorded(s) && s.e.ELook? && s.e.j == j && j in s.jobs
    ensures s.jobs[j].frees > 0 <==> Bygone(s.jobs[j])
    ensures FreedByWorker(s.jobs[j]) ==> s.slot != Ptr(j)
  {
    assert JobInv(s, j);
  }

  lemma MakeNotes(s: State, ch: Choice)
    requires Inv(s) && Recorded(s) && s.e.EMake? && LoopEnabled(s, ch)
    ensures Recorded(LoopStep(s, ch))
  {
    MakeBare(s, ch);
    BareKeeps(s, LoopStep(s, ch));
  }

  lemma IdleNotes(s: State, ch: Choice)
    requires Inv(s) && Recorded(s) && s.e.EIdle? && LoopEnabled(s, ch)
    ensures Recorded(LoopStep(s, ch))
  {
    if s.slot.Ptr? {
      SlotFreed(s);
    }
    IdleBare(s, ch);
    BareKeeps(s, LoopStep(s, ch));
  }

  /** The slot's job was freed only if it was finalised early. */
  lemma SlotFreed(s: State)
    requires Inv(s) && s.slot.Ptr?
    ensures s.jobs[s.slot.ptr].answers == 1 ==> s.jobs[s.slot.ptr].early
    ensures s.jobs[s.slot.ptr].frees > 0 <==> s.jobs[s.slot.ptr].early
  {
    assert JobInv(s, s.slot.ptr);
  }

  lemma StepNotes(s: State, a: Action)
    requires Inv(s) && Recorded(s) && Enabled(s, a)
    ensures Recorded(Step(s, a))
  {
    match a
    case Worker(ch) =>
      if !s.w.WTop? {
        WorkerChanges(s, ch);
        WorkerNotes(s, WorkerStep(s, ch), s.w.j, ch);
        NotesKeep(s, WorkerStep(s, ch), s.w.j);
      } else if s.running {
        TakeNotes(s);
        NotesKeep(s, WorkerStep(s, ch), s.slot.ptr);
      }
    case Loop(ch) => LoopStepNotes(s, ch);
    case Connect(_) =>
    case Signal =>
  }

  lemma LoopStepNotes(s: State, ch: Choice)
    requires Inv(s) && Recorded(s) && LoopEnabled(s, ch)
    ensures Recorded(LoopStep(s, ch))
  {
    if s.e.EIdle? {
      IdleNotes(s, ch);
    } else if s.e.ELook? {
      LookNotes(s);
    } else if s.e.EMake? {
      MakeNotes(s, ch);
    } else if !s.e.EStop? {
      LoopChanges(s);
      LoopRecords(s);
      LoopNotes(s, LoopStep(s, ch), s.e.j, s.e.c);
      NotesKeep(s, LoopStep(s, ch), s.e.j);
    }
  }

  lemma InitNotes()
    ensures Recorded(Init())
  {
  }

  lemma {:induction false} RunNotes(run: seq<State>, i: nat)
    requires IsRun(run) && i < |run|
    ensures Recorded(run[i])
  {
    if i > 0 {
      RunNotes(run, i - 1);
      NextNotes(run, i - 1);
    } else {
      InitNotes();
    }
  }

  lemma NextNotes(run: seq<State>, i: nat)
    requires IsRun(run) && i + 1 < |run| && Recorded(run[i])
    ensures Recorded(run[i + 1])
  {
    RunInv(run, i);
    assert Follows(run, i);
    var a :| Enabled(run[i], a) && run[i + 1] == Step(run[i], a);
    StepNotes(run[i], a);
  }

  lemma ReachableNotes(s: State)
    requires Reachable(s)
    ensures Inv(s) && Recorded(s)
  {
    ReachableInv(s);
    var run :| IsRun(run) && run[|run| - 1] == s;
    RunNotes(run, |run| - 1);
  }

  // ----- the results -----

  /** Once the worker is done with a job, the job was accessed after it was freed if
      and only if the event loop finalised it while the worker still held it; this
      happens to streaming jobs alone, after their ring was marked as done. */
  lemma FaultExactly(s: State, j: JobId)
    requires Reachable(s) && j in s.jobs && s.jobs[j].phase == Retired
    ensures j in s.faults <==> s.jobs[j].early
    ensures s.jobs[j].early ==> s.jobs[j].stream && s.jobs[j].done && s.jobs[j].answers == 1
  {
    ReachableNotes(s);
    assert JobInv(s, j);
  }

  /** Before that, no access to a freed job happens but to one finalised early, and the
      worker's next step on such a job is one, unless it only clears the slot. */
  lemma FaultNext(s: State, j: JobId, ch: Choice)
    requires Reachable(s) && j in s.jobs
    ensures j in s.faults ==> s.jobs[j].early
    ensures s.jobs[j].phase == Picked ==> (s.jobs[j].frees > 0 <==> s.jobs[j].early)
    ensures s.jobs[j].phase == Picked && s.jobs[j].early && !s.w.WClear? && WorkerEnabled(s, ch)
            ==> j in WorkerStep(s, ch).faults
  {
    ReachableInv(s);
    assert JobInv(s, j);
    if s.jobs[j].phase == Picked && WorkerEnabled(s, ch) {
      WorkerChanges(s, ch);
    }
  }

  /** Finalisation marks a job as early exactly if the worker holds it at that moment. */
  lemma EarlyWhen(s: State)
    requires Reachable(s) && s.e.EFin? && LoopEnabled(s, Go)
    ensures !s.jobs[s.e.j].early
    ensures LoopStep(s, Go).jobs[s.e.j].early <==> WJob(s.w) == Ptr(s.e.j)
  {
    ReachableInv(s);
    assert JobInv(s, s.e.j);
    LoopChanges(s);
  }

  /** The unlocked admission check loads the state of a freed job if and only if that
      job was finalised early, or the worker freed it since the slot was read. */
  lemma LookExactly(s: State)
    requires Reachable(s) && s.e.ELook? && LoopEnabled(s, Go)
    ensures var b := s.jobs[s.e.j];
            && (b.frees > 0 <==> b.early || FreedByWorker(b))
            && (FreedByWorker(b) ==> s.slot != Ptr(s.e.j))
    ensures var b := s.jobs[s.e.j];
            && LoopStep(s, Go).looks == s.looks + (if b.frees > 0 then {s.e.j} else {})
            && LoopStep(s, Go).faults == s.faults
  {
    ReachableNotes(s);
    FreedThen(s, s.e.j);
    LookStep(s);
  }

  /** When the slot was read, its job was freed only if it was finalised early. */
  lemma LookBegins(s: State, ch: Choice)
    requires Reachable(s) && s.e.EIdle? && ch.Request? && LoopEnabled(s, ch) && s.slot.Ptr?
    ensures LoopStep(s, ch).e == ELook(ch.c, ch.stream, ch.limit, s.slot.ptr)
    ensures s.slot.ptr in s.jobs
    ensures s.jobs[s.slot.ptr].frees > 0 <==> s.jobs[s.slot.ptr].early
  {
    ReachableInv(s);
    SlotFreed(s);
  }

  /** Over a whole run: a job that the check touched after it was freed was finalised
      early or freed by the worker. */
  lemma LookedAt(s: State, j: JobId)
    requires Reachable(s) && j in s.looks
    ensures j in s.jobs && (s.jobs[j].early || FreedByWorker(s.jobs[j]))
  {
    ReachableNotes(s);
  }

  /** The worker loads the manager twice. It asks a null manager for a wakeup if and
      only if the connection's close got between the loads. */
  lemma NullManager(s: State, ch: Choice)
    requires Reachable(s) && (s.w.WPost? || s.w.WLast?) && WorkerEnabled(s, ch)
    ensures !s.jobs[s.w.j].unposted && s.w.j in WorkerStep(s, ch).jobs
    ensures WorkerStep(s, ch).jobs[s.w.j].unposted
            <==> s.jobs[s.w.j].orphaned || (s.e.EClose3? && s.e.j == s.w.j)
  {
    ReachableInv(s);
    WorkerChanges(s, ch);
    WakeupPosted(s, WorkerStep(s, ch), s.w.j, ch);
  }

  /** Then the connection is closed and nothing is posted; else one more wakeup is pending
      for it. This is about the change that a step of the worker makes. */
  lemma WakeupPosted(s: State, s': State, j: JobId, ch: Choice)
    requires JobsInv(s) && (s.w.WPost? || s.w.WLast?) && WorkerChange(s, s', j, ch)
    ensures !s.jobs[j].unposted && j in s'.jobs
    ensures s'.jobs[j].unposted <==> s.jobs[j].orphaned || (s.e.EClose3? && s.e.j == j)
    ensures var c := s.jobs[j].conn;
            if s'.jobs[j].unposted then s'.conns == s.conns && !s.conns[c].open
            else s'.conns == s.conns[c := s.conns[c].(pending := s.conns[c].pending + 1)]
  {
    ManagerGone(s, j);
    PostChange(s, s', j, ch);
  }

  lemma PostChange(s: State, s': State, j: JobId, ch: Choice)
    requires (s.w.WPost? || s.w.WLast?) && WorkerChange(s, s', j, ch) && !s.jobs[j].unposted
    ensures j in s'.jobs && (s'.jobs[j].unposted <==> !s.jobs[j].mgr)
    ensures var c := s.jobs[j].conn;
            s'.conns == if s.jobs[j].mgr then s.conns[c := s.conns[c].(pending := s.conns[c].pending + 1)]
                        else s.conns
  {
    Asks(s.w, s.jobs[j], ch);
    assert s'.jobs[j] == WorkerJob(s.w, s.jobs[j], ch);
  }

  lemma Asks(w: WorkerPc, b: Job, ch: Choice)
    requires (w.WPost? || w.WLast?) && !b.unposted
    ensures WorkerJob(w, b, ch).unposted <==> !b.mgr
  {
  }

  lemma ManagerGone(s: State, j: JobId)
    requires JobsInv(s) && (s.w.WPost? || s.w.WLast?) && s.w.j == j && j in s.jobs
    ensures var b := s.jobs[j];
            && b.conn in s.conns && !b.unposted
            && (b.mgr <==> !b.orphaned && !(s.e.EClose3? && s.e.j == j))
            && (!b.mgr ==> !s.conns[b.conn].open)
  {
    assert JobInv(s, j);
  }
}
