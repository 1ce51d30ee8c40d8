/**
 Progress under any schedule: without new requests, connections, closes or signals the
 two threads take finitely many steps, and when neither can take another, every job
 that was accepted into an empty slot has been answered, unless its client left.
 */
module ProtocolProgress {
  import opened Basics
  import opened Protocol
  import opened ProtocolInvariant
  import opened ProtocolTheorems

  /** A step that one of the threads takes on its own. */
  predicate Internal(a: Action) {
    a.Worker? || (a.Loop? && !a.choice.Request? && !a.choice.Close?)
  }

  // ----- nobody waits for nothing -----

  /** How far a shutdown has got: the event loop first stops, then tells the worker. */
  ghost predicate InOrder(s: State) {
    && (s.e.EStop? || s.e.EHalt? ==> s.shutdown)
    && (s.e.EHalt? <==> !s.running)
    && (s.w.WExit? ==> !s.running)
  }

  lemma OrderStep(s: State, a: Action)
    requires InOrder(s) && Enabled(s, a)
    ensures InOrder(Step(s, a))
  {
    match a
    case Worker(ch) =>
      if !s.w.WTop? {
        WorkerChanges(s, ch);
        NextFacts(s.w, s.jobs[s.w.j], s.shutdown, ch);
      }
    case Loop(ch) => OrderLoop(s, ch);
    case Connect(_) =>
    case Signal =>
  }

  lemma OrderLoop(s: State, ch: Choice)
    requires InOrder(s) && LoopEnabled(s, ch)
    ensures InOrder(LoopStep(s, ch))
  {
    if EJob(s.e).Ptr? || EClosing(s.e).Ptr? {
      OrderStored(s, ch);
    } else if s.e.EIdle? {
      OrderIdle(s, ch);
    }
  }

  lemma OrderStored(s: State, ch: Choice)
    requires LoopEnabled(s, ch) && (EJob(s.e).Ptr? || EClosing(s.e).Ptr?)
    ensures var s' := LoopStep(s, ch);
            s'.running == s.running && s'.shutdown == s.shutdown && s'.w == s.w && !s'.e.EStop? && !s'.e.EHalt?
  {
  }

  lemma OrderIdle(s: State, ch: Choice)
    requires s.e.EIdle? && LoopEnabled(s, ch)
    ensures var s' := LoopStep(s, ch);
            && s'.running == s.running && s'.shutdown == s.shutdown && s'.w == s.w && !s'.e.EHalt?
            && (s'.e.EStop? ==> s.shutdown)
  {
  }

  lemma {:induction false} RunOrder(run: seq<State>, i: nat)
    requires IsRun(run) && i < |run|
    ensures InOrder(run[i])
  {
    if i > 0 {
      RunOrder(run, i - 1);
      FollowsOrder(run, i - 1);
    }
  }

  lemma FollowsOrder(run: seq<State>, i: nat)
    requires IsRun(run) && i + 1 < |run| && InOrder(run[i])
    ensures InOrder(run[i + 1])
  {
    assert Follows(run, i);
    var a :| Enabled(run[i], a) && run[i + 1] == Step(run[i], a);
    OrderStep(run[i], a);
  }

  lemma ReachableOrder(s: State)
    requires Reachable(s)
    ensures InOrder(s)
  {
    var run :| IsRun(run) && run[|run| - 1] == s;
    RunOrder(run, |run| - 1);
  }

  /** If neither thread can take a step, all is quiet, or both have ended: there is no
      deadlock, and after a shutdown the worker can be joined. */
  lemma StuckIsQuiet(s: State)
    requires Reachable(s)
    requires forall a :: Internal(a) ==> !Enabled(s, a)
    ensures if s.shutdown then s.e.EHalt? && s.w.WExit? else Quiescent(s)
  {
    ReachableInv(s);
    ReachableOrder(s);
    assert !Enabled(s, Worker(Go)) && !Enabled(s, Worker(Stop(true)));
    if !s.e.EHalt? {
      LoopStuck(s);
    }
    if WJob(s.w).Ptr? {
      WorkerStuck(s);
    }
  }

  lemma LoopStuck(s: State)
    requires Inv(s) && !s.e.EHalt?
    requires forall a :: Internal(a) ==> !Enabled(s, a)
    ensures s.e.EIdle? && !s.shutdown
    ensures forall c :: c in s.conns ==> s.conns[c].pending == 0
  {
    assert !Enabled(s, Loop(Go)) && !Enabled(s, Loop(Refuse));
    forall c | c in s.conns ensures s.e.EIdle? ==> s.conns[c].pending == 0 {
      assert ConnInv(s, c);
      assert !Enabled(s, Loop(Wakeup(c)));
    }
  }

  /** Only a full ring can hold up the worker; then a wakeup is pending, or the shutdown
      lets it give up. */
  lemma WorkerStuck(s: State)
    requires Inv(s) && WJob(s.w).Ptr?
    requires s.shutdown || (s.e.EIdle? && forall c :: c in s.conns ==> s.conns[c].pending == 0)
    ensures WorkerEnabled(s, Go) || WorkerEnabled(s, Stop(true))
  {
    assert JobInv(s, s.w.j);
  }

  // ----- every step brings the end nearer -----

  /** What the event loop has before it: a request, its poll, or the way out. */
  function Stage(e: LoopPc): nat {
    if e.ELook? || e.EMake? then 2 else if e.EStop? || e.EHalt? then 0 else 1
  }

  /** The worker's steps for a job that may still generate `left` tokens. */
  function PcWork(w: WorkerPc, left: nat): nat {
    match w
    case WExit => 0
    case WTop => 1
    case WLast(_) => 2
    case WFree(_) => 2
    case WMgr(_) => 3
    case WTest(_) => 4
    case WClear(_) => 5
    case WLog(_) => 6
    case WPub(_, _) => 7
    case WEnd(_, _) => 8
    case WAcc(_) => 8 + 4 * left
    case WChk(_, _, _, _) => 8 + 4 * left
    case WTok(_, _) => 9 + 4 * left
    case WPost(_, _) => 10 + 4 * left
    case WWrote(_, _, _) => 11 + 4 * left
    case WStart(_) => 10 + 4 * left
  }

  function Left(b: Job): nat { if |b.given| <= b.limit then b.limit - |b.given| else 0 }

  function JobWork(s: State): nat {
    PcWork(s.w, if WJob(s.w).Ptr? && s.w.j in s.jobs then Left(s.jobs[s.w.j]) else 0)
  }

  /** The same for the job that waits in the slot. */
  function SlotWork(s: State): nat {
    if s.slot.Ptr? && s.slot.ptr in s.jobs && s.jobs[s.slot.ptr].phase == Queued
    then 10 + 4 * s.jobs[s.slot.ptr].limit else 0
  }

  function Work(s: State): nat { JobWork(s) + SlotWork(s) }

  /** All pending wakeups. */
  ghost function Wakeups(conns: map<ConnId, Conn>): nat
    decreases |conns|
  {
    if conns == map[] then 0
    else
      var c :| c in conns;
      conns[c].pending + Wakeups(conns - {c})
  }

  lemma {:induction false} WakeupsWithout(conns: map<ConnId, Conn>, c: ConnId)
    requires c in conns
    ensures Wakeups(conns) == conns[c].pending + Wakeups(conns - {c})
    decreases |conns|
  {
    var d :| d in conns && Wakeups(conns) == conns[d].pending + Wakeups(conns - {d});
    if d != c {
      WakeupsWithout(conns - {d}, c);
      WakeupsWithout(conns - {c}, d);
      assert conns - {d} - {c} == conns - {c} - {d};
    }
  }

  lemma WakeupsUpdate(conns: map<ConnId, Conn>, c: ConnId, n: Conn)
    requires c in conns
    ensures Wakeups(conns[c := n]) == Wakeups(conns) - conns[c].pending + n.pending
  {
    WakeupsWithout(conns, c);
    WakeupsWithout(conns[c := n], c);
    assert conns[c := n] - {c} == conns - {c};
  }

  /** Later states come first in this order: stage, work, wakeups, rest of the handler. */
  ghost predicate Nearer(s': State, s: State) {
    || Stage(s'.e) < Stage(s.e)
    || (Stage(s'.e) == Stage(s.e)
        && (|| Work(s') < Work(s)
            || (Work(s') == Work(s)
                && (|| Wakeups(s'.conns) < Wakeups(s.conns)
                    || (Wakeups(s'.conns) == Wakeups(s.conns) && Remaining(s') < Remaining(s))))))
  }

  /** Every step that a thread takes on its own is such a descent. */
  lemma EveryStepCounts(s: State, a: Action)
    requires Reachable(s) && Internal(a) && Enabled(s, a)
    ensures Nearer(Step(s, a), s)
  {
    ReachableInv(s);
    if a.Worker? {
      WorkerCounts(s, a.choice);
    } else if s.e.EIdle? {
      IdleCounts(s, a.choice);
    } else {
      HandlerEnds(s, a);
      LoopCounts(s, a.choice);
    }
  }

  lemma WorkerCounts(s: State, ch: Choice)
    requires Inv(s) && WorkerEnabled(s, ch)
    ensures Work(WorkerStep(s, ch)) < Work(s) && WorkerStep(s, ch).e == s.e
  {
    if s.w.WTop? {
      TopCounts(s, ch);
    } else {
      WorkerChanges(s, ch);
      ChangeCounts(s, WorkerStep(s, ch), s.w.j, ch);
    }
  }

  lemma ChangeCounts(s: State, s': State, j: JobId, ch: Choice)
    requires JobsInv(s) && WorkerChange(s, s', j, ch)
    ensures Work(s') < Work(s)
  {
    var b := s.jobs[j];
    PickedJob(s, j);
    PcCounts(s.w, b, s.shutdown, ch);
    SlotCounts(s, s', j);
    JobCounts(s, s', j);
  }

  lemma PickedJob(s: State, j: JobId)
    requires JobsInv(s) && j in s.jobs && WJob(s.w) == Ptr(j)
    ensures s.jobs[j].phase == Picked && (s.w.WChk? ==> |s.jobs[j].given| < s.jobs[j].limit)
  {
    assert JobInv(s, j);
  }

  lemma JobCounts(s: State, s': State, j: JobId)
    requires WJob(s.w) == Ptr(j) && (WJob(s'.w) == Ptr(j) || s'.w.WTop?) && j in s.jobs && j in s'.jobs
    requires PcWork(s'.w, Left(s'.jobs[j])) < PcWork(s.w, Left(s.jobs[j]))
    ensures JobWork(s') < JobWork(s)
  {
  }

  lemma TopCounts(s: State, ch: Choice)
    requires Inv(s) && s.w.WTop? && WorkerEnabled(s, ch)
    ensures Work(WorkerStep(s, ch)) < Work(s) && WorkerStep(s, ch).e == s.e
  {
    if s.running {
      assert JobInv(s, s.slot.ptr);
    }
  }

  lemma PcCounts(w: WorkerPc, b: Job, shutdown: bool, ch: Choice)
    requires WJob(w).Ptr? && Choosable(w, b, shutdown, ch)
    requires w.WChk? ==> |b.given| < b.limit
    ensures PcWork(WorkerNext(w, b, ch), Left(WorkerJob(w, b, ch))) < PcWork(w, Left(b))
  {
  }

  lemma SlotCounts(s: State, s': State, j: JobId)
    requires j in s.jobs && j in s'.jobs && s'.jobs == s.jobs[j := s'.jobs[j]]
    requires s.jobs[j].phase == Picked && s'.jobs[j].phase != Queued
    requires s'.slot == s.slot || s'.slot == Null
    ensures SlotWork(s') <= SlotWork(s)
  {
  }

  lemma IdleCounts(s: State, ch: Choice)
    requires Inv(s) && s.e.EIdle? && LoopEnabled(s, ch) && !ch.Request? && !ch.Close?
    ensures Nearer(LoopStep(s, ch), s)
  {
    if ch.Wakeup? {
      WakeupCounts(s, LoopStep(s, ch), ch.c);
    } else {
      CancelBare(s);
    }
  }

  lemma WakeupCounts(s: State, s': State, c: ConnId)
    requires s.e.EIdle? && LoopEnabled(s, Wakeup(c)) && s' == LoopStep(s, Wakeup(c))
    ensures Nearer(s', s)
  {
    IdleSameJobs(s, Wakeup(c));
    WakeupsUpdate(s.conns, c, s.conns[c].(pending := s.conns[c].pending - 1));
    assert Work(s') == Work(s) && Stage(s'.e) == Stage(s.e);
  }

  lemma LoopCounts(s: State, ch: Choice)
    requires Inv(s) && !s.e.EIdle? && LoopEnabled(s, ch)
    requires Remaining(LoopStep(s, ch)) < Remaining(s)
    ensures Nearer(LoopStep(s, ch), s)
  {
    if EJob(s.e).Ptr? || EClosing(s.e).Ptr? {
      LoopChanges(s);
      var c := s.e.c;
      WakeupsUpdate(s.conns, c, LoopConn(s.e, s.conns[c]));
      SameWork(s, LoopStep(s, ch), s.e.j, c);
    }
  }

  lemma SameWork(s: State, s': State, j: JobId, c: ConnId)
    requires LoopChange(s, s', j, c)
    ensures Work(s') == Work(s) && Stage(s'.e) == Stage(s.e)
  {
  }

  // ----- all runs -----

  /** Step i of an endless run is one that a thread takes on its own. */
  ghost predicate Moves(run: nat -> State, acts: nat -> Action, i: nat) {
    Internal(acts(i)) && Enabled(run(i), acts(i)) && run(i + 1) == Step(run(i), acts(i))
  }

  /** There is no endless run of such steps from step i on. */
  lemma {:induction false} EndsAfter(run: nat -> State, acts: nat -> Action, i: nat)
    requires Reachable(run(i))
    ensures exists k :: k >= i && !Moves(run, acts, k)
    decreases Stage(run(i).e), Work(run(i)), Wakeups(run(i).conns), Remaining(run(i))
  {
    if Moves(run, acts, i) {
      EveryStepCounts(run(i), acts(i));
      ReachableStep(run(i), acts(i));
      EndsAfter(run, acts, i + 1);
    }
  }

  /** Where such a run ends, the worker holds no job; and if there was no shutdown, each
      job has its one answer, or its client left, or it was accepted over a finished one. */
  lemma EverybodyAnswered(s: State, j: JobId)
    requires Reachable(s) && j in s.jobs
    requires forall a :: Internal(a) ==> !Enabled(s, a)
    ensures s.jobs[j].phase != Picked
    ensures !s.shutdown ==> s.jobs[j].answers == (if s.jobs[j].lost || s.jobs[j].orphaned then 0 else 1)
  {
    StuckIsQuiet(s);
    JobAtRest(s, j);
    if !s.shutdown && !s.jobs[j].lost {
      QuietMeansAnswered(s, j);
    }
  }

  lemma JobAtRest(s: State, j: JobId)
    requires Reachable(s) && j in s.jobs && WJob(s.w).Null?
    ensures s.jobs[j].phase != Picked
    ensures s.jobs[j].lost ==> s.jobs[j].answers == 0
  {
    ReachableInv(s);
    assert JobInv(s, j);
  }
}
