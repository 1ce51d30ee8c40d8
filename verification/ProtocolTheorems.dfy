/** What the invariant means for every reachable state, hence for every run. */
module ProtocolTheorems {
  import opened Basics
  import opened Protocol
  import opened ProtocolInvariant
  import opened ProtocolAccess

  // ----- wakeups and backpressure -----

  /** With no wakeup pending and no drain to come, the ring of an open streaming
      job that is still being generated holds at most the tokens written since
      the last wakeup, and never more than 8. */
  lemma NoLostWakeup(s: State, j: JobId)
    requires Reachable(s) && j in s.jobs
    ensures var b := s.jobs[j];
            b.conn in s.conns &&
            var n := s.conns[b.conn];
            b.stream && b.phase == Picked && Attached(j, n) && n.open && n.pending == 0 && !WillDrain(s.e, j)
            ==> |b.ring| <= 8
                && (s.w.WTok? || s.w.WChk? || s.w.WWrote? || s.w.WPost? ==> |b.ring| <= s.w.since <= 8)
  {
    ReachableInv(s);
    assert JobInv(s, j);
  }

  /** A worker that waits for room in the ring, and is not told to give up, is
      never forgotten: a wakeup is pending, or the event loop will drain the ring,
      or it is about to cancel the job. */
  lemma NoBackpressureDeadlock(s: State)
    requires Reachable(s) && s.w.WChk? && !s.shutdown
    ensures s.w.j in s.jobs && s.jobs[s.w.j].conn in s.conns
    ensures var (j, b) := (s.w.j, s.jobs[s.w.j]);
            Full(b) && !b.cancel ==>
              || (s.conns[b.conn].open && s.conns[b.conn].pending > 0 && s.conns[b.conn].fn == Ptr(j))
              || WillDrain(s.e, j)
              || s.e == EClose1(b.conn, j)
  {
    ReachableInv(s);
    assert JobInv(s, s.w.j);
  }

  /** Such a pending wakeup frees the worker: once the event loop is idle it can
      handle it, and two steps later there is room in the ring. */
  lemma WakeupUnblocks(s: State, c: ConnId)
    requires Reachable(s) && s.e.EIdle? && s.w.WChk? && s.w.j in s.jobs && Full(s.jobs[s.w.j])
    requires c in s.conns && s.conns[c].open && s.conns[c].pending > 0 && s.conns[c].fn == Ptr(s.w.j)
    ensures LoopEnabled(s, Wakeup(c))
    ensures var s1 := LoopStep(s, Wakeup(c));
            LoopEnabled(s1, Go) &&
            var s2 := LoopStep(s1, Go);
            s2.w == s.w && s.w.j in s2.jobs && |s2.jobs[s.w.j].ring| == RING_SIZE - 1 - 32
  {
    ReachableInv(s);
    BlockedStream(s, s.w.j);
    WakeupVisits(s, s.w.j, c);
    DrainMakesRoom(LoopStep(s, Wakeup(c)));
  }

  lemma BlockedStream(s: State, j: JobId)
    requires JobsInv(s) && s.w.WChk? && s.w.j == j && j in s.jobs
    ensures s.jobs[j].stream
  {
    assert JobInv(s, j);
  }

  lemma DrainMakesRoom(s: State)
    requires s.e.EDrain? && LoopEnabled(s, Go) && Full(s.jobs[s.e.j])
    ensures var s' := LoopStep(s, Go);
            s'.w == s.w && s.e.j in s'.jobs && |s'.jobs[s.e.j].ring| == RING_SIZE - 1 - 32
  {
    LoopChanges(s);
  }

  /** How many more steps the event loop takes before it returns to its poll. */
  function Remaining(s: State): nat {
    match s.e
    case EIdle => 0
    case EHalt => 0
    case EStop => 1
    case ELook(_, _, _, _) => 2
    case EMake(_, _, _) => 1
    case EPeek(_, _) => 2
    case EReply(_, _) => 1
    case EDrain(_, j, full) => 5 + Batches(s, j, full)
    case EFrame(_, j, full, batch) => 4 + (if |batch| == 32 then Batches(s, j, full) else 0)
    case EDone(_, _) => 3
    case EState(_, _, _) => 2
    case EFin(_, _, _) => 1
    case EClose1(_, _) => 3
    case EClose2(_, _) => 2
    case EClose3(_, _) => 1
  }

  /** A bound on the full batches still to come: two steps for each. */
  function Batches(s: State, j: JobId, full: nat): nat {
    if j in s.jobs && full <= s.jobs[j].limit / 32 then 2 * (s.jobs[j].limit / 32 - full) else 0
  }

  /** Every handler of the event loop ends, even while the worker keeps writing:
      each of its steps uses up one of a number of steps that no other thread can
      increase, and a drain reads at most limit / 32 full batches. */
  lemma HandlerEnds(s: State, a: Action)
    requires Reachable(s) && Enabled(s, a) && !s.e.EIdle?
    ensures if a.Loop? then Remaining(Step(s, a)) < Remaining(s) else Remaining(Step(s, a)) == Remaining(s)
    ensures s.e.EDrain? && s.e.j in s.jobs ==> s.e.full <= s.jobs[s.e.j].limit / 32
  {
    ReachableInv(s);
    DrainBounded(s);
    if a.Worker? {
      HandlerWorker(s, a.choice);
    } else if a.Loop? {
      HandlerAny(s, a.choice);
    } else {
      HandlerElse(s, a);
    }
  }

  lemma HandlerElse(s: State, a: Action)
    requires Enabled(s, a) && (a.Connect? || a.Signal?)
    ensures Remaining(Step(s, a)) == Remaining(s)
  {
  }

  lemma HandlerAny(s: State, ch: Choice)
    requires LoopEnabled(s, ch) && !s.e.EIdle?
    requires s.e.EFrame? && |s.e.batch| == 32 && s.e.j in s.jobs ==> s.e.full < s.jobs[s.e.j].limit / 32
    requires s.e.EFrame? ==> |s.e.batch| <= 32
    ensures Remaining(LoopStep(s, ch)) < Remaining(s)
  {
    if EJob(s.e).Ptr? || EClosing(s.e).Ptr? {
      LoopChanges(s);
      HandlerLoop(s, LoopStep(s, ch), s.e.j, s.e.c);
    }
  }

  lemma DrainBounded(s: State)
    requires Inv(s)
    ensures (s.e.EDrain? || s.e.EFrame?) && s.e.j in s.jobs ==> s.e.full <= s.jobs[s.e.j].limit / 32
    ensures s.e.EFrame? && |s.e.batch| == 32 && s.e.j in s.jobs ==> s.e.full < s.jobs[s.e.j].limit / 32
    ensures s.e.EFrame? ==> |s.e.batch| <= 32
  {
    if s.e.EDrain? || s.e.EFrame? {
      assert JobInv(s, s.e.j);
      assert |CutAll(s.jobs[s.e.j].given)| == |s.jobs[s.e.j].given|;
    }
  }

  lemma HandlerWorker(s: State, ch: Choice)
    requires WorkerEnabled(s, ch)
    ensures Remaining(WorkerStep(s, ch)) == Remaining(s)
  {
    if WJob(s.w).Ptr? {
      WorkerChanges(s, ch);
    }
  }

  lemma HandlerLoop(s: State, s': State, j: JobId, c: ConnId)
    requires LoopChange(s, s', j, c)
    requires s.e.EFrame? && |s.e.batch| == 32 ==> s.e.full < s.jobs[j].limit / 32
    requires s.e.EFrame? ==> |s.e.batch| <= 32
    ensures Remaining(s') < Remaining(s)
  {
  }

  // ----- the stream -----

  /** Conservation and order: what was sent, then what waits between the ring and
      the socket, then the ring, is what the generation loop gave, cut to 127
      bytes each; and the ending comes at most once, after all the chunks. */
  lemma StreamConserved(s: State, j: JobId)
    requires Reachable(s) && j in s.jobs && s.jobs[j].stream
    ensures var b := s.jobs[j];
            && CutAll(b.given) == b.framed + (if s.e.EFrame? && s.e.j == j then s.e.batch else []) + b.ring
            && b.out == [Headers] + Deltas(b.framed)
                        + (if b.answers == 1 then [FinalChunk, DoneMark] else [])
            && b.answers <= 1 && |b.ring| <= RING_SIZE - 1
  {
    ReachableInv(s);
    assert JobInv(s, j);
  }

  /** Finalised through the test under the ring's lock, a stream is complete;
      finalised through the job state it lacks exactly the tokens given after the
      ring was last seen empty. */
  lemma StreamEnding(s: State, j: JobId)
    requires Reachable(s) && j in s.jobs && s.jobs[j].stream && s.jobs[j].answers > 0
    ensures var b := s.jobs[j];
            && b.seen <= |b.given|
            && b.framed == CutAll(b.given[..b.seen])
            && b.ring == CutAll(b.given[b.seen..])
            && (b.viaDone ==> b.seen == |b.given|)
            && (b.seen == |b.given| <==>
                 b.out == [Headers] + Deltas(CutAll(b.given)) + [FinalChunk, DoneMark])
  {
    EndedStream(s, j);
    var b := s.jobs[j];
    TornAt(b.given, b.framed, b.ring);
    if b.seen == |b.given| {
      assert b.given[..b.seen] == b.given;
    } else {
      assert |b.out| == 1 + b.seen + 2;
    }
  }

  lemma EndedStream(s: State, j: JobId)
    requires Reachable(s) && j in s.jobs && s.jobs[j].stream && s.jobs[j].answers > 0
    ensures var b := s.jobs[j];
            && CutAll(b.given) == b.framed + b.ring && b.seen == |b.framed|
            && (b.viaDone ==> b.ring == [])
            && b.out == [Headers] + Deltas(b.framed) + [FinalChunk, DoneMark]
  {
    ReachableInv(s);
    assert JobInv(s, j);
    assert !Attached(j, s.conns[s.jobs[j].conn]);
  }

  lemma TornAt(given: seq<Text>, framed: seq<Text>, ring: seq<Text>)
    requires CutAll(given) == framed + ring
    ensures var n := |framed|;
            n <= |given| && framed == CutAll(given[..n]) && ring == CutAll(given[n..]) && |ring| == |given| - n
  {
    var n := |framed|;
    assert framed == CutAll(given)[..n] && ring == CutAll(given)[n..];
    assert CutAll(given[..n]) == CutAll(given)[..n] && CutAll(given[n..]) == CutAll(given)[n..];
  }

  /** A non-streaming reply, if any, is one reply with all the text the job collected. */
  lemma ReplyComplete(s: State, j: JobId)
    requires Reachable(s) && j in s.jobs && !s.jobs[j].stream
    ensures var b := s.jobs[j];
            b.out == if b.answers == 0 then []
                     else if b.state == Done then [Reply(b.given)] else [Failure]
  {
    ReachableInv(s);
    assert JobInv(s, j);
  }

  // ----- ownership -----

  /** Every job is freed at most once. The worker frees it only if it read the
      orphan flag as set, the event loop only when it finalises it. */
  lemma FreedOnce(s: State, j: JobId)
    requires Reachable(s) && j in s.jobs
    ensures var b := s.jobs[j];
            && b.frees == b.answers + (if b.orphaned && b.phase == Retired && !b.spared then 1 else 0)
            && b.frees <= 1
  {
    ReachableInv(s);
    assert JobInv(s, j);
  }

  /** Jobs that do not stream are never accessed after they were freed, except that the
      unlocked admission check may look at one that the worker freed; and the slot never
      points to a freed one. The event loop frees them only after the worker let go. */
  lemma NonStreamingSafe(s: State, j: JobId)
    requires Reachable(s) && j in s.jobs && !s.jobs[j].stream
    ensures j !in s.faults
    ensures j in s.looks ==> FreedByWorker(s.jobs[j])
    ensures s.slot == Ptr(j) || s.jobs[j].phase != Retired ==> s.jobs[j].frees == 0
  {
    ReachableNotes(s);
    assert JobInv(s, j);
  }

  /** A job that the worker holds was freed if and only if the event loop finalised it
      meanwhile: a streaming job, after the worker marked its ring as done. */
  lemma StreamingFreedAfterDone(s: State, j: JobId)
    requires Reachable(s) && j in s.jobs && s.jobs[j].phase == Picked
    ensures WJob(s.w) == Ptr(j)
    ensures s.jobs[j].frees > 0 <==> s.jobs[j].answers == 1
    ensures s.jobs[j].frees > 0 <==> s.jobs[j].early
    ensures s.jobs[j].frees > 0 ==> s.jobs[j].stream && s.jobs[j].done && !InTokens(s.w) && !s.w.WFree?
  {
    ReachableInv(s);
    assert JobInv(s, j);
  }

  /** Nobody holds the job, and it was not freed. */
  predicate Leaked(j: JobId, b: Job, n: Conn) { !Attached(j, n) && b.frees == 0 }

  /** A job that no worker will touch again, because the worker is done with it or because
      it was lost, is leaked if and only if its connection closed too late for the worker's
      orphan test: after the test, or at any time if the job was lost and is never tested. */
  lemma LeakExactly(s: State, j: JobId)
    requires Reachable(s) && j in s.jobs && (s.jobs[j].phase == Retired || s.jobs[j].lost)
    ensures s.jobs[j].conn in s.conns
    ensures Leaked(j, s.jobs[j], s.conns[s.jobs[j].conn])
            <==> s.jobs[j].orphaned && (s.jobs[j].spared || s.jobs[j].lost)
  {
    ReachableInv(s);
    assert JobInv(s, j);
  }

  // ----- admission -----

  /** From taking a job to publishing its outcome the slot holds the job, and no
      submission succeeds. */
  lemma OneInferenceAtATime(s: State)
    requires Reachable(s) && Generating(s.w)
    ensures s.slot == Ptr(s.w.j) && s.w.j in s.jobs
    ensures !s.w.WStart? ==> s.jobs[s.w.j].state == Running
    ensures !Admits(s)
  {
    ReachableInv(s);
    assert JobInv(s, s.w.j);
  }

  /** A job accepted into an empty slot waits there, keeping others out, until the
      worker takes it; a job accepted over a finished one was accepted between the
      worker publishing that outcome and clearing the slot. */
  lemma WaitingJob(s: State, j: JobId)
    requires Reachable(s) && j in s.jobs && s.jobs[j].phase == Queued
    ensures !s.jobs[j].lost ==> s.slot == Ptr(j) && !WillClear(s.w) && !Admits(s)
    ensures s.jobs[j].lost ==> s.slot != Ptr(j) || s.w.WLog? || s.w.WClear?
  {
    ReachableInv(s);
    assert JobInv(s, j);
  }

  /** What an accepted submission does: the job is lost exactly when the slot was
      not empty. */
  lemma SubmitOutcome(s: State, j: JobId)
    requires Reachable(s) && s.e.EMake? && j !in s.jobs
    ensures LoopEnabled(s, Accept(j))
    ensures var s' := LoopStep(s, Accept(j));
            if Admits(s) then
              && j in s'.jobs && s'.slot == Ptr(j) && s'.conns[s.e.c].fn == Ptr(j)
              && (s'.jobs[j].lost <==> s.slot.Ptr?)
              && (s.slot.Ptr? ==> s.w.WLog? || s.w.WClear?)
            else s'.jobs == s.jobs && s'.conns[s.e.c].rejected == s.conns[s.e.c].rejected + 1
  {
    ReachableInv(s);
    SlotDone(s);
    if Admits(s) {
      SubmitBare(s, Accept(j));
    } else {
      SubmitRefused(s, j);
    }
  }

  lemma SubmitRefused(s: State, j: JobId)
    requires s.e.EMake? && LoopEnabled(s, Accept(j)) && !Admits(s)
    ensures var (s', c) := (LoopStep(s, Accept(j)), s.e.c);
            s'.jobs == s.jobs && s'.conns == s.conns[c := s.conns[c].(rejected := s.conns[c].rejected + 1)]
  {
  }

  /** A finished job in the slot is one that the worker is about to clear. */
  lemma SlotDone(s: State)
    requires Inv(s)
    ensures s.slot.Ptr? ==> s.slot.ptr in s.jobs
    ensures Admits(s) && s.slot.Ptr? ==> s.w.WLog? || s.w.WClear?
  {
    if s.slot.Ptr? {
      assert JobInv(s, s.slot.ptr);
    }
  }

  /** A job can be lost or finished, but never both: lost jobs stay as accepted. */
  lemma LostForever(s: State, a: Action, j: JobId)
    requires Reachable(s) && Enabled(s, a) && j in s.jobs && s.jobs[j].lost
    ensures j in Step(s, a).jobs
    ensures var b := Step(s, a).jobs[j]; b.lost && b.phase == Queued && b.answers == 0 && b.given == []
  {
    ReachableInv(s);
    StepKeeps(s, a);
    LostKept(s, a, j);
    assert JobInv(Step(s, a), j);
  }

  lemma LostKept(s: State, a: Action, j: JobId)
    requires Enabled(s, a) && j in s.jobs && s.jobs[j].lost
    ensures j in Step(s, a).jobs && Step(s, a).jobs[j].lost
  {
    match a
    case Worker(ch) => LostWorker(s, ch, j);
    case Loop(ch) =>
      if EJob(s.e).Ptr? || EClosing(s.e).Ptr? {
        LoopChanges(s);
      } else {
        LostIdle(s, ch, j);
      }
    case Connect(_) =>
    case Signal =>
  }

  lemma LostWorker(s: State, ch: Choice, j: JobId)
    requires WorkerEnabled(s, ch) && j in s.jobs && s.jobs[j].lost
    ensures j in WorkerStep(s, ch).jobs && WorkerStep(s, ch).jobs[j].lost
  {
    if WJob(s.w).Ptr? {
      WorkerChanges(s, ch);
    }
  }

  lemma LostIdle(s: State, ch: Choice, j: JobId)
    requires LoopEnabled(s, ch) && EJob(s.e).Null? && EClosing(s.e).Null? && j in s.jobs && s.jobs[j].lost
    ensures j in LoopStep(s, ch).jobs && LoopStep(s, ch).jobs[j].lost
  {
    ElseStep(s, ch);
  }

  // ----- answers -----

  /** Every request is accounted for: refused at once, answered, dropped by a
      close, or outstanding, of which there is at most one. */
  lemma RequestsAccounted(s: State, c: ConnId)
    requires Reachable(s) && c in s.conns
    ensures var n := s.conns[c];
            && n.requests == n.rejected + n.finished + n.dropped
                             + (if n.fn.Ptr? then 1 else 0) + (if Asking(s.e, c) then 1 else 0)
            && !(n.fn.Ptr? && Asking(s.e, c))
  {
    ReachableInv(s);
    assert ConnInv(s, c);
  }

  /** Nothing is left to do: no wakeup is pending and both threads are waiting. */
  ghost predicate Quiescent(s: State) {
    && s.e.EIdle? && s.w.WTop? && s.slot.Null?
    && forall c :: c in s.conns ==> s.conns[c].pending == 0
  }

  /** No answer is lost: when everything is quiet, every job that was accepted
      into an empty slot has been answered once or its connection was closed, and
      it has been freed, or is leaked by a close after the orphan test. */
  lemma QuietMeansAnswered(s: State, j: JobId)
    requires Reachable(s) && Quiescent(s) && j in s.jobs && !s.jobs[j].lost
    ensures var b := s.jobs[j];
            && b.phase == Retired
            && b.answers == (if b.orphaned then 0 else 1)
            && (b.frees == 1 <==> !(b.orphaned && b.spared))
  {
    ReachableInv(s);
    assert JobInv(s, j);
  }

  /** At rest, this decides for every job whether it is leaked. */
  lemma LeakAtRest(s: State, j: JobId)
    requires Reachable(s) && Quiescent(s) && j in s.jobs
    ensures s.jobs[j].conn in s.conns
    ensures Leaked(j, s.jobs[j], s.conns[s.jobs[j].conn])
            <==> s.jobs[j].orphaned && (s.jobs[j].spared || s.jobs[j].lost)
  {
    ReachableInv(s);
    assert JobInv(s, j);
  }

  /** The only job that can stay stored on an open connection forever is a lost one. */
  lemma StuckMeansLost(s: State, c: ConnId)
    requires Reachable(s) && Quiescent(s) && c in s.conns && s.conns[c].fn.Ptr?
    ensures s.conns[c].fn.ptr in s.jobs && s.jobs[s.conns[c].fn.ptr].lost
  {
    ReachableInv(s);
    assert ConnInv(s, c) && JobInv(s, s.conns[c].fn.ptr);
    if !s.jobs[s.conns[c].fn.ptr].lost {
      QuietMeansAnswered(s, s.conns[c].fn.ptr);
    }
  }
}
