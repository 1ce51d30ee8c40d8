/**
 The inductive invariant of the protocol. Everything it says about one job
 is a statement about that job, its connection, the slot and the two
 program counters, so a step on one job leaves the others alone.
 */
module ProtocolInvariant {
  import opened Basics
  import opened Protocol

  /** The job is stored on its connection. */
  predicate Attached(j: JobId, n: Conn) { n.fn == Ptr(j) }

  /** Progress through the worker, and what the slot holds. */
  ghost predicate LifeOk(j: JobId, b: Job, slot: JobRef, w: WorkerPc) {
    && (WJob(w) == Ptr(j) <==> b.phase == Picked)
    && (b.lost ==> b.phase == Queued && (slot == Ptr(j) ==> w.WLog? || w.WClear?))
    && (b.phase == Queued && !b.lost ==> slot == Ptr(j) && !WillClear(w))
    && (b.phase == Queued ==> b.state == Idle && !b.done && b.given == [])
    && (b.phase == Picked ==>
         && (Generating(w) <==> Busy(b.state))
         && (Generating(w) ==> slot == Ptr(j))
         && (w.WStart? <==> b.state == Idle)
         && (w.WAcc? ==> !b.stream)
         && (b.stream ==> (b.done <==> !InTokens(w)))
         && (InTokens(w) && !w.WStart? ==> b.stream)
         && (w.WChk? ==> |b.given| < b.limit)
         && (slot == Ptr(j) ==> WillClear(w)))
    && (b.phase == Retired ==> !Busy(b.state) && (b.stream ==> b.done) && slot != Ptr(j))
    && (!b.stream ==> !b.done)
  }

  /** The worker has not yet marked the ring of its streaming job as done. */
  predicate InTokens(w: WorkerPc) {
    w.WStart? || w.WTok? || w.WChk? || w.WWrote? || w.WPost? || w.WEnd?
  }

  /** Who may free the job, and how often. */
  ghost predicate OwnOk(j: JobId, b: Job, n: Conn, w: WorkerPc, e: LoopPc) {
    && b.frees <= 1 && b.answers <= 1
    && (Attached(j, n) ==> b.frees == 0 && b.answers == 0 && !b.orphaned && !n.draining)
    && (!Attached(j, n) ==> b.answers == 1 || b.orphaned)
    && (b.answers == 1 ==>
         && b.frees == 1 && !b.orphaned
         && (if b.stream then b.done && n.draining else b.phase == Retired))
    && (b.orphaned ==> !n.open && n.fn == Null && b.cancel)
    && (b.frees == 1 ==> b.answers == 1 || (b.orphaned && b.phase == Retired && !b.spared))
    && (b.phase == Retired && !b.spared ==> b.orphaned && b.frees == 1)
    && (b.phase == Queued ==> !b.spared && b.frees == 0)
    && (b.phase == Picked ==>
         && (b.spared <==> w.WMgr? || w.WLast?)
         && (w.WFree? ==> b.orphaned))
    // the event loop's program counter
    && (EJob(e) == Ptr(j) || EClosing(e) == Ptr(j) ==> Attached(j, n) && e.c == b.conn)
    && (EJob(e) == Ptr(j) ==> n.open)
    && (Attached(j, n) ==> (n.open <==> EClosing(e) != Ptr(j)))
    && (Attached(j, n) ==> (b.mgr <==> !(e.EClose3? && e.j == j)))
    && ((e.EClose2? || e.EClose3?) && e.j == j ==> b.cancel)
    && ((e.EPeek? || e.EReply?) && e.j == j ==> !b.stream)
    && (e.EReply? && e.j == j ==> b.phase == Retired)
    && (EJob(e) == Ptr(j) && !e.EPeek? && !e.EReply? ==> b.stream)
  }

  /** What has been sent for a job: the frames so far and, once it is answered, the ending. */
  function Output(b: Job): seq<Frame> {
    if b.stream then
      if b.answers == 1 then [Headers] + Deltas(b.framed) + [FinalChunk, DoneMark]
      else [Headers] + Deltas(b.framed)
    else if b.answers == 0 then []
    else [if b.state == Error then Failure else Reply(b.given)]
  }

  /** Tokens are conserved and stay in order from the generation loop to the frames. */
  ghost predicate FlowOk(j: JobId, b: Job, e: LoopPc) {
    && |b.given| <= b.limit
    && |b.ring| <= RING_SIZE - 1
    && (b.stream ==> CutAll(b.given) == b.drained + b.ring)
    && (!b.stream ==> b.ring == [] && b.drained == [] && b.framed == [])
    && (e.EFrame? && e.j == j ==> b.drained == b.framed + e.batch && |e.batch| <= 32)
    && (!(e.EFrame? && e.j == j) ==> b.drained == b.framed)
    && (e.EFrame? && e.j == j && |e.batch| < 32 ==> b.seen == |b.drained|)
    && ((e.EDone? || e.EState? || e.EFin?) && e.j == j ==> b.seen == |b.drained|)
    && ((e.EState? || e.EFin?) && e.j == j && e.viaDone ==> b.done && b.ring == [])
    && (e.EFin? && e.j == j && !e.viaDone ==> !Busy(b.state))
    && (e.EDrain? && e.j == j ==> 32 * e.full <= |b.drained|)
    && (e.EFrame? && e.j == j ==> 32 * e.full + |e.batch| <= |b.drained|)
    && (b.answers == 1 && b.stream ==>
         b.seen == |b.drained| && (b.viaDone ==> b.ring == []))
  }

  /** Exactly the drained tokens were sent, and the ending exactly once, last. */
  ghost predicate OutOk(b: Job) { b.out == Output(b) }

  /** No wakeup is lost while the connection is open. */
  ghost predicate WakeOk(j: JobId, b: Job, n: Conn, w: WorkerPc, e: LoopPc) {
    && (b.phase == Picked ==>
         && (w.WChk? && w.empty ==> b.ring == [])
         && (w.WWrote? && w.empty ==> |b.ring| <= 1))
    && (Attached(j, n) && n.open ==>
         if b.stream then
           && (b.phase == Queued ==> b.ring == [])
           && (b.phase == Picked ==>
                && (w.WTok? || w.WChk? ==> w.since <= 7)
                && (w.WWrote? || w.WPost? ==> w.since <= 8)
                && (n.pending == 0 && !WillDrain(e, j) ==>
                     && |b.ring| <= 8
                     && (w.WStart? ==> b.ring == [])
                     && (w.WTok? || w.WChk? || w.WWrote? || w.WPost? ==> |b.ring| <= w.since)))
           && (b.phase == Retired ==> n.pending > 0 || EJob(e) == Ptr(j))
         else if b.phase == Retired then
           n.pending + (if EJob(e) == Ptr(j) then 1 else 0) == 1
         else
           n.pending == 0 && EJob(e) != Ptr(j))
  }

  /** What the history says about access to a freed job and about a lost manager. */
  ghost predicate MarkOk(j: JobId, b: Job, w: WorkerPc, e: LoopPc) {
    && (b.early ==> b.answers == 1 && b.stream && b.done)
    && (b.phase == Picked && b.answers == 1 ==> b.early)
    && (b.mgr <==> !b.orphaned && !(e.EClose3? && e.j == j))
    && (b.unposted ==> !b.mgr)
    && (b.phase == Picked && (w.WPost? || w.WLast?) ==> !b.unposted)
  }

  ghost predicate JobOk(j: JobId, b: Job, n: Conn, slot: JobRef, w: WorkerPc, e: LoopPc) {
    && LifeOk(j, b, slot, w) && OwnOk(j, b, n, w, e)
    && FlowOk(j, b, e) && OutOk(b) && WakeOk(j, b, n, w, e) && MarkOk(j, b, w, e)
  }

  /** The event loop is handling a request of connection c. */
  predicate Asking(e: LoopPc, c: ConnId) { (e.ELook? || e.EMake?) && e.c == c }

  ghost predicate ConnOk(c: ConnId, n: Conn, jobs: map<JobId, Job>, e: LoopPc) {
    && (n.fn.Ptr? ==> n.fn.ptr in jobs && jobs[n.fn.ptr].conn == c)
    && (Ready(n) ==> n.pending == 0)
    && (Asking(e, c) ==> Ready(n))
    && n.requests == n.rejected + n.finished + n.dropped
                     + (if n.fn.Ptr? then 1 else 0) + (if Asking(e, c) then 1 else 0)
  }

  ghost predicate JobInv(s: State, j: JobId)
    requires j in s.jobs
  {
    var b := s.jobs[j];
    b.conn in s.conns && JobOk(j, b, s.conns[b.conn], s.slot, s.w, s.e)
  }

  ghost predicate ConnInv(s: State, c: ConnId)
    requires c in s.conns
  {
    ConnOk(c, s.conns[c], s.jobs, s.e)
  }

  ghost predicate GlobalInv(s: State) {
    && (s.slot.Ptr? ==> s.slot.ptr in s.jobs)
    && (WJob(s.w).Ptr? ==> s.w.j in s.jobs)
    && (WillClear(s.w) ==> s.slot.Ptr?)
    && (EJob(s.e).Ptr? || EClosing(s.e).Ptr? ==> s.e.j in s.jobs && s.e.c in s.conns)
    && (s.e.ELook? ==> s.e.j in s.jobs)
    && (s.e.ELook? || s.e.EMake? ==> s.e.c in s.conns)
    && (forall j :: j in s.faults ==> j in s.jobs && s.jobs[j].early)
  }

  ghost predicate JobsInv(s: State) { forall j :: j in s.jobs ==> JobInv(s, j) }

  ghost predicate ConnsInv(s: State) { forall c :: c in s.conns ==> ConnInv(s, c) }

  ghost predicate Inv(s: State) {
    && GlobalInv(s)
    && JobsInv(s)
    && ConnsInv(s)
  }

  // ----- from one job to the whole state -----

  /** Changes of the slot and of the worker that job k does not notice. */
  ghost predicate UnseenW(k: JobId, b: Job, slot: JobRef, slot': JobRef, w: WorkerPc, w': WorkerPc) {
    && (w != w' ==>
         && WJob(w) != Ptr(k) && WJob(w') != Ptr(k)
         && (b.phase == Queued && !b.lost ==> !WillClear(w'))
         && (b.lost && slot' == Ptr(k) ==> w'.WLog? || w'.WClear?))
    && (slot != slot' ==>
         slot' != Ptr(k) && (b.phase == Queued ==> b.lost) && (b.phase == Picked ==> !Busy(b.state)))
  }

  /** The same for the event loop. */
  ghost predicate UnseenE(k: JobId, e: LoopPc, e': LoopPc) {
    e != e' ==>
      && EJob(e) != Ptr(k) && EJob(e') != Ptr(k)
      && EClosing(e) != Ptr(k) && EClosing(e') != Ptr(k)
  }

  /** The same for the connection. */
  ghost predicate UnseenN(k: JobId, n: Conn, n': Conn) {
    n != n' ==>
      && n.fn != Ptr(k) && n'.fn != Ptr(k) && (n'.open ==> n.open)
      && (n.draining ==> n'.draining) && (n.fn == Null ==> n'.fn == Null || n.open)
  }

  lemma UnseenWKeeps(k: JobId, b: Job, n: Conn, slot: JobRef, slot': JobRef,
                     w: WorkerPc, w': WorkerPc, e: LoopPc)
    requires LifeOk(k, b, slot, w) && OwnOk(k, b, n, w, e) && WakeOk(k, b, n, w, e)
    requires UnseenW(k, b, slot, slot', w, w')
    ensures LifeOk(k, b, slot', w') && OwnOk(k, b, n, w', e) && WakeOk(k, b, n, w', e)
  {
  }

  lemma UnseenEKeeps(k: JobId, b: Job, n: Conn, w: WorkerPc, e: LoopPc, e': LoopPc)
    requires OwnOk(k, b, n, w, e) && FlowOk(k, b, e) && WakeOk(k, b, n, w, e)
    requires UnseenE(k, e, e')
    ensures OwnOk(k, b, n, w, e') && FlowOk(k, b, e') && WakeOk(k, b, n, w, e')
  {
    assert OwnOk(k, b, n, w, e');
    assert FlowOk(k, b, e');
  }

  lemma UnseenNKeeps(k: JobId, b: Job, n: Conn, n': Conn, w: WorkerPc, e: LoopPc)
    requires OwnOk(k, b, n, w, e) && WakeOk(k, b, n, w, e)
    requires UnseenN(k, n, n')
    ensures OwnOk(k, b, n', w, e) && WakeOk(k, b, n', w, e)
  {
    if n != n' {
      assert !Attached(k, n) && !Attached(k, n');
    }
  }

  lemma UnseenKeeps(k: JobId, b: Job, n: Conn, n': Conn, slot: JobRef, slot': JobRef,
                    w: WorkerPc, w': WorkerPc, e: LoopPc, e': LoopPc)
    requires JobOk(k, b, n, slot, w, e)
    requires UnseenW(k, b, slot, slot', w, w') && UnseenE(k, e, e') && UnseenN(k, n, n')
    ensures JobOk(k, b, n', slot', w', e')
  {
    UnseenWKeeps(k, b, n, slot, slot', w, w', e);
    UnseenEKeeps(k, b, n, w', e, e');
    UnseenNKeeps(k, b, n, n', w', e');
    UnseenMark(k, b, slot, slot', w, w', e, e');
  }

  lemma UnseenMark(k: JobId, b: Job, slot: JobRef, slot': JobRef, w: WorkerPc, w': WorkerPc,
                   e: LoopPc, e': LoopPc)
    requires LifeOk(k, b, slot, w) && MarkOk(k, b, w, e)
    requires UnseenW(k, b, slot, slot', w, w') && UnseenE(k, e, e')
    ensures MarkOk(k, b, w', e')
  {
  }

  /** A step that changes at most the jobs js and the connections cs. */
  ghost predicate StepOn(s: State, s': State, js: set<JobId>, cs: set<ConnId>) {
    && s'.jobs.Keys == s.jobs.Keys + js
    && s'.conns.Keys == s.conns.Keys + cs
    && (forall j :: j in js && j in s.jobs ==> s.jobs[j].conn == s'.jobs[j].conn)
    && (forall k :: k in s.jobs && k !in js ==> s'.jobs[k] == s.jobs[k])
    && (forall d :: d in s.conns && d !in cs ==> s'.conns[d] == s.conns[d])
    && (forall d :: d !in cs ==> (Asking(s.e, d) <==> Asking(s'.e, d)))
  }

  /** Job k does not notice the step from s to s'. */
  ghost predicate JobUnseen(s: State, s': State, k: JobId)
    requires k in s.jobs
  {
    var c := s.jobs[k].conn;
    && c in s.conns && c in s'.conns
    && UnseenW(k, s.jobs[k], s.slot, s'.slot, s.w, s'.w)
    && UnseenE(k, s.e, s'.e)
    && UnseenN(k, s.conns[c], s'.conns[c])
  }

  lemma Lift(s: State, s': State, js: set<JobId>, cs: set<ConnId>)
    requires Inv(s) && StepOn(s, s', js, cs) && GlobalInv(s')
    requires forall k :: k in s.jobs && k !in js ==> JobUnseen(s, s', k)
    requires forall j :: j in js ==> JobInv(s', j)
    requires forall c :: c in cs ==> ConnInv(s', c)
    ensures Inv(s')
  {
    LiftJobs(s, s', js, cs);
    LiftConns(s, s', js, cs);
  }

  /** The same for one job and one connection. */
  lemma LiftOne(s: State, s': State, j: JobId, c: ConnId)
    requires Inv(s) && StepOn(s, s', {j}, {c}) && GlobalInv(s')
    requires forall k :: k in s.jobs && k !in {j} ==> JobUnseen(s, s', k)
    requires j in s'.jobs && JobInv(s', j) && c in s'.conns && ConnInv(s', c)
    ensures Inv(s')
  {
    Lift(s, s', {j}, {c});
  }

  lemma LiftJobs(s: State, s': State, js: set<JobId>, cs: set<ConnId>)
    requires JobsInv(s) && StepOn(s, s', js, cs)
    requires forall k :: k in s.jobs && k !in js ==> JobUnseen(s, s', k)
    requires forall j :: j in js ==> JobInv(s', j)
    ensures JobsInv(s')
  {
    forall k | k in s'.jobs ensures JobInv(s', k) {
      if k !in js { LiftJob(s, s', k); }
    }
  }

  lemma LiftJob(s: State, s': State, k: JobId)
    requires k in s.jobs && k in s'.jobs && s'.jobs[k] == s.jobs[k]
    requires JobInv(s, k) && JobUnseen(s, s', k)
    ensures JobInv(s', k)
  {
    var d := s.jobs[k].conn;
    UnseenKeeps(k, s.jobs[k], s.conns[d], s'.conns[d], s.slot, s'.slot, s.w, s'.w, s.e, s'.e);
  }

  lemma LiftConns(s: State, s': State, js: set<JobId>, cs: set<ConnId>)
    requires ConnsInv(s) && StepOn(s, s', js, cs)
    requires forall c :: c in cs ==> ConnInv(s', c)
    ensures ConnsInv(s')
  {
    forall d | d in s'.conns ensures ConnInv(s', d) {
      if d !in cs { assert ConnInv(s, d); }
    }
  }

  // ----- the worker's steps, as its own job sees them -----

  lemma WorkerLife(j: JobId, b: Job, slot: JobRef, w: WorkerPc, shutdown: bool, ch: Choice)
    requires WJob(w) == Ptr(j) && Choosable(w, b, shutdown, ch)
    requires LifeOk(j, b, slot, w)
    ensures LifeOk(j, WorkerJob(w, b, ch), if w.WClear? then Null else slot, WorkerNext(w, b, ch))
  {
    if w.WStart? || w.WTok? || w.WChk? || w.WWrote? || w.WPost? {
      TokenLife(j, b, slot, w, shutdown, ch);
    } else if w.WEnd? || w.WAcc? || w.WPub? {
      PublishLife(j, b, slot, w, shutdown, ch);
    }
  }

  lemma TokenLife(j: JobId, b: Job, slot: JobRef, w: WorkerPc, shutdown: bool, ch: Choice)
    requires WJob(w) == Ptr(j) && Choosable(w, b, shutdown, ch) && LifeOk(j, b, slot, w)
    requires w.WStart? || w.WTok? || w.WChk? || w.WWrote? || w.WPost?
    ensures LifeOk(j, WorkerJob(w, b, ch), slot, WorkerNext(w, b, ch))
  {
  }

  lemma PublishLife(j: JobId, b: Job, slot: JobRef, w: WorkerPc, shutdown: bool, ch: Choice)
    requires WJob(w) == Ptr(j) && Choosable(w, b, shutdown, ch) && LifeOk(j, b, slot, w)
    requires w.WEnd? || w.WAcc? || w.WPub?
    ensures LifeOk(j, WorkerJob(w, b, ch), slot, WorkerNext(w, b, ch))
  {
  }

  lemma WorkerOwn(j: JobId, b: Job, n: Conn, slot: JobRef, w: WorkerPc, e: LoopPc,
                  shutdown: bool, ch: Choice)
    requires WJob(w) == Ptr(j) && Choosable(w, b, shutdown, ch)
    requires LifeOk(j, b, slot, w) && OwnOk(j, b, n, w, e)
    ensures OwnOk(j, WorkerJob(w, b, ch), n, WorkerNext(w, b, ch), e)
  {
    PickedFacts(j, b, slot, w);
    if w.WTest? || w.WFree? || w.WMgr? || w.WLast? {
      LastOwn(j, b, n, w, e, ch);
    } else {
      Forward(w, b, ch);
      NotYetLast(w, b, ch);
      SameOwn(j, b, WorkerJob(w, b, ch), n, w, WorkerNext(w, b, ch), e);
    }
  }

  /** Before the orphan test the worker does nothing that matters to ownership. */
  lemma NotYetLast(w: WorkerPc, b: Job, ch: Choice)
    requires WJob(w).Ptr? && !w.WTest? && !w.WFree? && !w.WMgr? && !w.WLast?
    requires (w.WTok? || w.WAcc? ==> ch.Token? || ch.Stop?) && (w.WChk? ==> ch.Go? || ch.Stop?)
    ensures var w' := WorkerNext(w, b, ch); !w'.WFree? && !w'.WMgr? && !w'.WLast?
  {
  }

  lemma SameOwn(j: JobId, b: Job, b': Job, n: Conn, w: WorkerPc, w': WorkerPc, e: LoopPc)
    requires OwnOk(j, b, n, w, e) && b.phase == Picked && b'.phase == Picked
    requires b'.conn == b.conn && b'.stream == b.stream && b'.cancel == b.cancel
    requires b'.orphaned == b.orphaned && b'.mgr == b.mgr && b'.answers == b.answers
    requires b'.frees == b.frees && b'.spared == b.spared && (b.done ==> b'.done)
    requires !w.WFree? && !w.WMgr? && !w.WLast? && !w'.WFree? && !w'.WMgr? && !w'.WLast?
    ensures OwnOk(j, b', n, w', e)
  {
  }

  lemma LastOwn(j: JobId, b: Job, n: Conn, w: WorkerPc, e: LoopPc, ch: Choice)
    requires w.WTest? || w.WFree? || w.WMgr? || w.WLast?
    requires w.j == j && b.phase == Picked && OwnOk(j, b, n, w, e)
    requires b.stream ==> b.done
    ensures OwnOk(j, WorkerJob(w, b, ch), n, WorkerNext(w, b, ch), e)
  {
  }

  /** The flow of tokens does not depend on the rest of the job. */
  lemma SameFlow(j: JobId, b: Job, b': Job, e: LoopPc)
    requires FlowOk(j, b, e)
    requires b'.stream == b.stream && b'.limit == b.limit && b'.ring == b.ring && b'.drained == b.drained
    requires b'.framed == b.framed && b'.seen == b.seen && b'.viaDone == b.viaDone && b'.answers == b.answers
    requires if b.stream then b'.given == b.given else |b'.given| <= b'.limit
    requires (b.done ==> b'.done) && (!Busy(b.state) ==> !Busy(b'.state))
    ensures FlowOk(j, b', e)
  {
  }

  lemma WorkerFlow(j: JobId, b: Job, slot: JobRef, w: WorkerPc, e: LoopPc, shutdown: bool, ch: Choice)
    requires WJob(w) == Ptr(j) && Choosable(w, b, shutdown, ch)
    requires LifeOk(j, b, slot, w) && FlowOk(j, b, e)
    requires b.stream && b.answers == 1 ==> b.done
    ensures FlowOk(j, WorkerJob(w, b, ch), e)
  {
    if w.WChk? && ch.Go? {
      RingWriteFlow(j, b, slot, w, e);
    } else {
      var b' := WorkerJob(w, b, ch);
      PickedFacts(j, b, slot, w);
      Forward(w, b, ch);
      CollectedFlow(w, b, shutdown, ch);
      SameFlow(j, b, b', e);
    }
  }

  lemma PickedFacts(j: JobId, b: Job, slot: JobRef, w: WorkerPc)
    requires WJob(w) == Ptr(j) && LifeOk(j, b, slot, w)
    ensures b.phase == Picked && (w.WStart? ==> b.state == Idle) && (w.WAcc? ==> !b.stream)
  {
  }

  /** Done stays done, and finished stays finished. */
  lemma Forward(w: WorkerPc, b: Job, ch: Choice)
    requires w.WStart? ==> b.state == Idle
    ensures var b' := WorkerJob(w, b, ch); (b.done ==> b'.done) && (!Busy(b.state) ==> !Busy(b'.state))
  {
    if w.WPub? {
      assert WorkerJob(w, b, ch) == b.(state := if w.ok then Done else Error);
    } else if w.WEnd? {
      assert WorkerJob(w, b, ch) == b.(done := true);
    }
  }

  lemma CollectedFlow(w: WorkerPc, b: Job, shutdown: bool, ch: Choice)
    requires !(w.WChk? && ch.Go?) && Choosable(w, b, shutdown, ch) && |b.given| <= b.limit
    requires w.WAcc? ==> !b.stream
    ensures var b' := WorkerJob(w, b, ch);
            b'.ring == b.ring && if b.stream then b'.given == b.given else |b'.given| <= b'.limit
  {
    if w.WAcc? && ch.Token? {
      assert WorkerJob(w, b, ch).given == b.given + [ch.text];
    }
  }

  lemma RingWriteFlow(j: JobId, b: Job, slot: JobRef, w: WorkerPc, e: LoopPc)
    requires w.WChk? && w.j == j && LifeOk(j, b, slot, w) && FlowOk(j, b, e) && !Full(b)
    requires b.stream && b.answers == 1 ==> b.done
    ensures FlowOk(j, b.(ring := b.ring + [Cut(w.text)], given := b.given + [w.text]), e)
  {
    assert b.phase == Picked;
    assert CutAll(b.given + [w.text]) == CutAll(b.given) + [Cut(w.text)];
    assert b.drained + (b.ring + [Cut(w.text)]) == (b.drained + b.ring) + [Cut(w.text)];
  }

  lemma WorkerOut(j: JobId, b: Job, n: Conn, slot: JobRef, w: WorkerPc, e: LoopPc, shutdown: bool, ch: Choice)
    requires WJob(w) == Ptr(j) && Choosable(w, b, shutdown, ch)
    requires LifeOk(j, b, slot, w) && OwnOk(j, b, n, w, e) && OutOk(b)
    ensures OutOk(WorkerJob(w, b, ch))
  {
    var b' := WorkerJob(w, b, ch);
    assert b'.framed == b.framed && b'.answers == b.answers && b'.out == b.out;
    assert b'.stream == b.stream;
    assert !b.stream ==> b.answers == 0;
    assert Output(b') == Output(b);
  }

  lemma WorkerWake(j: JobId, b: Job, n: Conn, slot: JobRef, w: WorkerPc, e: LoopPc,
                   shutdown: bool, ch: Choice)
    requires WJob(w) == Ptr(j) && Choosable(w, b, shutdown, ch)
    requires JobOk(j, b, n, slot, w, e)
    ensures WakeOk(j, WorkerJob(w, b, ch),
                   WorkerConn(w, b, n), WorkerNext(w, b, ch), e)
  {
  }

  // ----- the event loop's steps, as the stored job sees them -----

  lemma LoopLife(j: JobId, b: Job, slot: JobRef, w: WorkerPc, e: LoopPc)
    requires LifeOk(j, b, slot, w)
    ensures LifeOk(j, LoopJob(e, b), slot, w)
  {
  }

  lemma LoopOwn(j: JobId, b: Job, n: Conn, slot: JobRef, w: WorkerPc, e: LoopPc)
    requires EJob(e) == Ptr(j)
    requires JobOk(j, b, n, slot, w, e)
    ensures OwnOk(j, LoopJob(e, b), LoopConn(e, n), w, LoopNext(e, b))
  {
    if e.EFin? || e.EReply? {
      assert b.phase != Queued;
    }
  }

  lemma CloseOwn(j: JobId, b: Job, n: Conn, w: WorkerPc, e: LoopPc)
    requires EClosing(e) == Ptr(j) && OwnOk(j, b, n, w, e)
    ensures OwnOk(j, LoopJob(e, b), LoopConn(e, n), w, LoopNext(e, b))
  {
    if e.EClose3? {
      assert LoopNext(e, b) == EIdle && LoopConn(e, n).fn == Null;
    } else {
      assert LoopConn(e, n) == n && EClosing(LoopNext(e, b)) == Ptr(j);
    }
  }

  lemma LoopFlow(j: JobId, b: Job, n: Conn, w: WorkerPc, e: LoopPc)
    requires EJob(e) == Ptr(j) || EClosing(e) == Ptr(j)
    requires OwnOk(j, b, n, w, e) && FlowOk(j, b, e)
    ensures FlowOk(j, LoopJob(e, b), LoopNext(e, b))
  {
    if e.EDrain? {
      DrainFlow(j, b, e);
    }
  }

  lemma DrainFlow(j: JobId, b: Job, e: LoopPc)
    requires e.EDrain? && e.j == j && FlowOk(j, b, e) && b.stream && b.answers == 0
    ensures FlowOk(j, LoopJob(e, b), LoopNext(e, b))
  {
    var k := BatchSize(b.ring);
    assert b.ring == b.ring[..k] + b.ring[k..];
    assert b.drained + b.ring == (b.drained + b.ring[..k]) + b.ring[k..];
  }

  lemma LoopOut(j: JobId, b: Job, n: Conn, w: WorkerPc, e: LoopPc)
    requires EJob(e) == Ptr(j) || EClosing(e) == Ptr(j)
    requires OwnOk(j, b, n, w, e) && OutOk(b)
    ensures OutOk(LoopJob(e, b))
  {
    assert b.answers == 0;
    if e.EFrame? || e.EFin? {
      assert b.stream;
      StreamOut(b, e);
    } else if e.EReply? {
      assert !b.stream;
    } else {
      var b' := LoopJob(e, b);
      assert b'.framed == b.framed && b'.out == b.out && b'.answers == b.answers;
    }
  }

  lemma StreamOut(b: Job, e: LoopPc)
    requires (e.EFrame? || e.EFin?) && b.stream && b.answers == 0 && OutOk(b)
    ensures OutOk(LoopJob(e, b))
  {
    var b' := LoopJob(e, b);
    assert b.out == [Headers] + Deltas(b.framed);
    if e.EFrame? {
      assert Deltas(b.framed + e.batch) == Deltas(b.framed) + Deltas(e.batch);
      assert b'.out == b.out + Deltas(e.batch);
      assert b'.out == [Headers] + Deltas(b'.framed);
    } else {
      assert b'.framed == b.framed && b'.out == b.out + [FinalChunk, DoneMark];
    }
  }

  lemma LoopWake(j: JobId, b: Job, n: Conn, slot: JobRef, w: WorkerPc, e: LoopPc)
    requires EJob(e) == Ptr(j) || EClosing(e) == Ptr(j)
    requires JobOk(j, b, n, slot, w, e)
    ensures WakeOk(j, LoopJob(e, b), LoopConn(e, n), w, LoopNext(e, b))
  {
    if e.EDrain? || e.EFrame? {
      DrainWake(j, b, n, w, e);
    } else if EClosing(e).Ptr? {
      assert !n.open && !LoopConn(e, n).open;
    } else if e.EReply? || e.EFin? {
      assert !Attached(j, LoopConn(e, n));
    } else {
      assert LoopJob(e, b) == b && LoopConn(e, n) == n;
    }
  }

  lemma DrainWake(j: JobId, b: Job, n: Conn, w: WorkerPc, e: LoopPc)
    requires (e.EDrain? || e.EFrame?) && e.j == j && OwnOk(j, b, n, w, e) && WakeOk(j, b, n, w, e)
    ensures WakeOk(j, LoopJob(e, b), LoopConn(e, n), w, LoopNext(e, b))
  {
    if e.EFrame? {
      assert LoopJob(e, b).ring == b.ring;
    } else {
      assert LoopJob(e, b).ring == b.ring[BatchSize(b.ring)..];
    }
  }

  // ----- the worker's steps -----

  /** The connection after a step of the worker: two kinds of step post a wakeup. */
  function WorkerConn(w: WorkerPc, b: Job, n: Conn): Conn {
    if (w.WPost? || w.WLast?) && b.mgr then n.(pending := n.pending + 1) else n
  }

  lemma WorkerSelf(j: JobId, b: Job, n: Conn, slot: JobRef, w: WorkerPc, e: LoopPc,
                   shutdown: bool, ch: Choice)
    requires WJob(w) == Ptr(j) && Choosable(w, b, shutdown, ch)
    requires JobOk(j, b, n, slot, w, e)
    ensures JobOk(j, WorkerJob(w, b, ch), WorkerConn(w, b, n), if w.WClear? then Null else slot,
                  WorkerNext(w, b, ch), e)
  {
    WorkerLife(j, b, slot, w, shutdown, ch);
    WorkerOwn(j, b, n, slot, w, e, shutdown, ch);
    WorkerFlow(j, b, slot, w, e, shutdown, ch);
    WorkerOut(j, b, n, slot, w, e, shutdown, ch);
    WorkerWake(j, b, n, slot, w, e, shutdown, ch);
    WorkerMark(j, b, slot, w, e, shutdown, ch);
  }

  lemma WorkerMark(j: JobId, b: Job, slot: JobRef, w: WorkerPc, e: LoopPc, shutdown: bool, ch: Choice)
    requires WJob(w) == Ptr(j) && Choosable(w, b, shutdown, ch)
    requires LifeOk(j, b, slot, w) && MarkOk(j, b, w, e)
    ensures MarkOk(j, WorkerJob(w, b, ch), WorkerNext(w, b, ch), e)
  {
    if w.WPost? || w.WLast? {
      assert WorkerJob(w, b, ch).unposted == !b.mgr;
    } else {
      assert WorkerJob(w, b, ch).unposted == b.unposted;
    }
  }

  /** A wakeup goes to the job's own connection, which no other job occupies. */
  lemma PostTarget(j: JobId, b: Job, n: Conn, slot: JobRef, w: WorkerPc, e: LoopPc)
    requires w.WPost? || w.WLast?
    requires w.j == j && LifeOk(j, b, slot, w) && OwnOk(j, b, n, w, e)
    ensures n.fn == Ptr(j) || n.draining || (!n.open && n.fn == Null)
  {
    assert b.phase == Picked;
  }

  lemma WorkerOther(k: JobId, b: Job, n: Conn, slot: JobRef, w: WorkerPc, e: LoopPc,
                    w': WorkerPc, n': Conn)
    requires LifeOk(k, b, slot, w) && OwnOk(k, b, n, w, e)
    requires WJob(w).Ptr? && w.j != k && (WJob(w') == WJob(w) || w'.WTop?)
    requires w.WClear? || WillClear(w) == WillClear(w')
    requires w.WLog? ==> w'.WClear?
    requires n' == n || (n' == n.(pending := n.pending + 1) && (n.fn == Ptr(w.j) || n.draining || n.fn == Null))
    ensures UnseenW(k, b, slot, if w.WClear? then Null else slot, w, w') && UnseenN(k, n, n')
  {
  }

  /** What a step on the worker's current job changes. */
  ghost predicate WorkerChange(s: State, s': State, j: JobId, ch: Choice) {
    && WJob(s.w) == Ptr(j) && j in s.jobs && s.jobs[j].conn in s.conns
    && Choosable(s.w, s.jobs[j], s.shutdown, ch)
    && var b := s.jobs[j];
       && s'.jobs == s.jobs[j := WorkerJob(s.w, b, ch)]
       && s'.conns == s.conns[b.conn := WorkerConn(s.w, b, s.conns[b.conn])]
       && s'.slot == (if s.w.WClear? then Null else s.slot)
       && s'.w == WorkerNext(s.w, b, ch) && s'.e == s.e
       && s'.faults == (if b.frees > 0 && !s.w.WClear? then s.faults + {j} else s.faults)
       && s'.looks == s.looks && s'.running == s.running && s'.shutdown == s.shutdown
  }

  lemma WorkerChanges(s: State, ch: Choice)
    requires WorkerEnabled(s, ch) && WJob(s.w).Ptr?
    ensures WorkerChange(s, WorkerStep(s, ch), s.w.j, ch)
  {
    var s' := WorkerStep(s, ch);
    var b := s.jobs[s.w.j];
    if s.w.WClear? {
      assert WorkerJob(s.w, b, ch) == b && s.jobs[s.w.j := b] == s.jobs;
      assert s.conns[b.conn := s.conns[b.conn]] == s.conns;
    } else {
      assert s'.conns == s.conns[b.conn := WorkerConn(s.w, b, s.conns[b.conn])];
    }
  }

  lemma WorkerKeepsSelf(s: State, s': State, j: JobId, ch: Choice)
    requires WorkerChange(s, s', j, ch) && JobInv(s, j)
    ensures JobInv(s', j)
  {
    var b := s.jobs[j];
    WorkerSelf(j, b, s.conns[b.conn], s.slot, s.w, s.e, s.shutdown, ch);
  }

  lemma WorkerKeepsOther(s: State, s': State, j: JobId, ch: Choice, k: JobId)
    requires WorkerChange(s, s', j, ch) && JobInv(s, j)
    requires k in s.jobs && k != j && JobInv(s, k)
    ensures JobUnseen(s, s', k)
  {
    var b := s.jobs[j];
    var c := s.jobs[k].conn;
    if s.w.WPost? || s.w.WLast? {
      PostTarget(j, b, s.conns[b.conn], s.slot, s.w, s.e);
    }
    NextFacts(s.w, b, s.shutdown, ch);
    WorkerOther(k, s.jobs[k], s.conns[c], s.slot, s.w, s.e, s'.w, s'.conns[c]);
  }

  lemma NextFacts(w: WorkerPc, b: Job, shutdown: bool, ch: Choice)
    requires WJob(w).Ptr? && Choosable(w, b, shutdown, ch)
    ensures var w' := WorkerNext(w, b, ch);
            && (WJob(w') == WJob(w) || w'.WTop?)
            && (w.WClear? || WillClear(w) == WillClear(w'))
            && (w.WLog? ==> w'.WClear?)
  {
  }

  lemma WorkerKeepsRest(s: State, s': State, j: JobId, ch: Choice)
    requires WorkerChange(s, s', j, ch) && JobInv(s, j)
    requires GlobalInv(s) && ConnInv(s, s.jobs[j].conn)
    ensures GlobalInv(s') && ConnInv(s', s.jobs[j].conn)
  {
    WorkerKeepsGlobal(s, s', j, ch);
    WorkerKeepsConn(s, s', j, ch);
  }

  lemma WorkerKeepsGlobal(s: State, s': State, j: JobId, ch: Choice)
    requires WorkerChange(s, s', j, ch) && JobInv(s, j) && GlobalInv(s)
    ensures GlobalInv(s')
  {
    NextFacts(s.w, s.jobs[j], s.shutdown, ch);
    assert s.jobs[j].frees > 0 && !s.w.WClear? ==> s.jobs[j].early;
    assert s'.jobs[j].early == s.jobs[j].early;
  }

  lemma WorkerKeepsConn(s: State, s': State, j: JobId, ch: Choice)
    requires WorkerChange(s, s', j, ch) && JobInv(s, j) && ConnInv(s, s.jobs[j].conn)
    ensures s.jobs[j].conn in s'.conns && ConnInv(s', s.jobs[j].conn)
  {
    var b := s.jobs[j];
    if s.w.WPost? || s.w.WLast? {
      PostTarget(j, b, s.conns[b.conn], s.slot, s.w, s.e);
    }
    assert s'.jobs[j].conn == b.conn;
  }

  lemma WorkerKeeps(s: State, s': State, j: JobId, ch: Choice)
    requires Inv(s) && WorkerChange(s, s', j, ch)
    ensures Inv(s')
  {
    var c := s.jobs[j].conn;
    assert JobInv(s, j);
    assert ConnInv(s, c);
    WorkerKeepsSelf(s, s', j, ch);
    WorkerKeepsOthers(s, s', j, ch);
    WorkerKeepsRest(s, s', j, ch);
    WorkerStepOn(s, s', j, ch);
    LiftOne(s, s', j, c);
  }

  lemma WorkerKeepsOthers(s: State, s': State, j: JobId, ch: Choice)
    requires JobsInv(s) && WorkerChange(s, s', j, ch)
    ensures forall k :: k in s.jobs && k !in {j} ==> JobUnseen(s, s', k)
  {
    assert JobInv(s, j);
    forall k | k in s.jobs && k !in {j} ensures JobUnseen(s, s', k) {
      WorkerKeepsOther(s, s', j, ch, k);
    }
  }

  lemma WorkerStepOn(s: State, s': State, j: JobId, ch: Choice)
    requires WorkerChange(s, s', j, ch)
    ensures StepOn(s, s', {j}, {s.jobs[j].conn})
  {
  }

  /** The worker takes the job in the slot. */
  lemma TakeKeeps(s: State)
    requires Inv(s) && s.w.WTop? && s.running && s.slot.Ptr?
    ensures Inv(WorkerStep(s, Go))
  {
    var s' := WorkerStep(s, Go);
    var j := s.slot.ptr;
    TakeKeepsSelf(s, s');
    TakeKeepsOthers(s, s');
    Lift(s, s', {j}, {});
  }

  lemma TakeKeepsSelf(s: State, s': State)
    requires JobsInv(s) && s.w.WTop? && s.slot.Ptr? && s.slot.ptr in s.jobs
    requires s' == s.(jobs := s.jobs[s.slot.ptr := s.jobs[s.slot.ptr].(phase := Picked)], w := WStart(s.slot.ptr))
    ensures JobInv(s', s.slot.ptr)
  {
    var j := s.slot.ptr;
    var b := s.jobs[j];
    assert JobInv(s, j);
    TakeSelf(j, b, s.conns[b.conn], s.slot, s.w, s.e);
  }

  lemma TakeKeepsOthers(s: State, s': State)
    requires JobsInv(s) && s.w.WTop? && s.slot.Ptr? && s.slot.ptr in s.jobs
    requires s' == s.(jobs := s.jobs[s.slot.ptr := s.jobs[s.slot.ptr].(phase := Picked)], w := WStart(s.slot.ptr))
    ensures forall k :: k in s.jobs && k !in {s.slot.ptr} ==> JobUnseen(s, s', k)
  {
    forall k | k in s.jobs && k !in {s.slot.ptr} ensures JobUnseen(s, s', k) {
      assert JobInv(s, k);
    }
  }

  lemma TakeSelf(j: JobId, b: Job, n: Conn, slot: JobRef, w: WorkerPc, e: LoopPc)
    requires w.WTop? && slot == Ptr(j) && JobOk(j, b, n, slot, w, e)
    ensures JobOk(j, b.(phase := Picked), n, slot, WStart(j), e)
  {
    var b' := b.(phase := Picked);
    assert LifeOk(j, b', slot, WStart(j));
    assert OwnOk(j, b', n, WStart(j), e);
    SameFlow(j, b, b', e);
    assert OutOk(b');
  }

  lemma QuitKeeps(s: State)
    requires Inv(s) && s.w.WTop? && !s.running
    ensures Inv(WorkerStep(s, Go))
  {
    var s' := WorkerStep(s, Go);
    forall k | k in s.jobs && k !in {} ensures JobUnseen(s, s', k) {
      assert JobInv(s, k);
    }
    Lift(s, s', {}, {});
  }

  // ----- the event loop's steps -----

  lemma LoopSelf(j: JobId, b: Job, n: Conn, slot: JobRef, w: WorkerPc, e: LoopPc)
    requires EJob(e) == Ptr(j) || EClosing(e) == Ptr(j)
    requires JobOk(j, b, n, slot, w, e)
    ensures JobOk(j, LoopJob(e, b), LoopConn(e, n), slot, w, LoopNext(e, b))
  {
    LoopLife(j, b, slot, w, e);
    if EJob(e) == Ptr(j) {
      LoopOwn(j, b, n, slot, w, e);
    } else {
      CloseOwn(j, b, n, w, e);
    }
    LoopFlow(j, b, n, w, e);
    LoopOut(j, b, n, w, e);
    LoopWake(j, b, n, slot, w, e);
    LoopMark(j, b, n, slot, w, e);
  }

  lemma LoopMark(j: JobId, b: Job, n: Conn, slot: JobRef, w: WorkerPc, e: LoopPc)
    requires EJob(e) == Ptr(j) || EClosing(e) == Ptr(j)
    requires LifeOk(j, b, slot, w) && OwnOk(j, b, n, w, e) && MarkOk(j, b, w, e) && FlowOk(j, b, e)
    ensures MarkOk(j, LoopJob(e, b), w, LoopNext(e, b))
  {
    if e.EFin? {
      assert b.stream && b.answers == 0;
      assert b.phase == Picked ==> b.done;
    }
  }

  /** What a step on a stored job changes. */
  ghost predicate LoopChange(s: State, s': State, j: JobId, c: ConnId) {
    && (EJob(s.e) == Ptr(j) || EClosing(s.e) == Ptr(j)) && s.e.c == c
    && j in s.jobs && c in s.conns
    && s'.jobs == s.jobs[j := LoopJob(s.e, s.jobs[j])]
    && s'.conns == s.conns[c := LoopConn(s.e, s.conns[c])]
    && s'.slot == s.slot && s'.w == s.w && s'.e == LoopNext(s.e, s.jobs[j])
    && s'.faults <= s.faults + (if s.jobs[j].frees > 0 then {j} else {})
  }

  lemma LoopChanges(s: State)
    requires LoopEnabled(s, Go) && (EJob(s.e).Ptr? || EClosing(s.e).Ptr?)
    ensures LoopChange(s, LoopStep(s, Go), s.e.j, s.e.c)
  {
  }

  lemma LoopKeepsSelf(s: State, s': State, j: JobId, c: ConnId)
    requires LoopChange(s, s', j, c) && JobInv(s, j)
    ensures JobInv(s', j)
  {
    var b := s.jobs[j];
    assert b.conn == c;
    LoopSelf(j, b, s.conns[c], s.slot, s.w, s.e);
  }

  lemma LoopKeepsOther(s: State, s': State, j: JobId, c: ConnId, k: JobId)
    requires LoopChange(s, s', j, c) && JobInv(s, j)
    requires k in s.jobs && k != j && JobInv(s, k)
    ensures JobUnseen(s, s', k)
  {
    assert Attached(j, s.conns[c]);
  }

  lemma LoopKeepsRest(s: State, s': State, j: JobId, c: ConnId)
    requires LoopChange(s, s', j, c) && JobInv(s, j)
    requires GlobalInv(s) && ConnInv(s, c)
    ensures GlobalInv(s') && ConnInv(s', c)
  {
    assert Attached(j, s.conns[c]) && s.jobs[j].frees == 0;
  }

  lemma LoopStepOn(s: State, s': State, j: JobId, c: ConnId)
    requires LoopChange(s, s', j, c) && JobInv(s, j)
    ensures StepOn(s, s', {j}, {c})
  {
  }

  lemma LoopKeepsOthers(s: State, s': State, j: JobId, c: ConnId)
    requires JobsInv(s) && LoopChange(s, s', j, c)
    ensures forall k :: k in s.jobs && k !in {j} ==> JobUnseen(s, s', k)
  {
    assert JobInv(s, j);
    forall k | k in s.jobs && k !in {j} ensures JobUnseen(s, s', k) {
      LoopKeepsOther(s, s', j, c, k);
    }
  }

  lemma LoopKeeps(s: State, s': State, j: JobId, c: ConnId)
    requires Inv(s) && LoopChange(s, s', j, c)
    ensures Inv(s')
  {
    LoopKeepsSelf(s, s', j, c);
    LoopKeepsOthers(s, s', j, c);
    LoopKeepsRest(s, s', j, c);
    LoopStepOn(s, s', j, c);
    LiftOne(s, s', j, c);
  }

  /** A step that no job can notice: it changes one connection without a job. */
  ghost predicate QuietChange(s: State, s': State, c: ConnId) {
    && s'.jobs == s.jobs && s'.slot == s.slot && s'.w == s.w && s'.faults <= s.faults
    && EJob(s.e).Null? && EClosing(s.e).Null? && EJob(s'.e).Null? && EClosing(s'.e).Null?
    && c in s'.conns && s'.conns == s.conns[c := s'.conns[c]]
    && (forall d :: d != c ==> !Asking(s.e, d) && !Asking(s'.e, d))
    && s'.conns[c].fn.Null?
    && (c in s.conns ==>
         && s.conns[c].fn.Null? && s'.conns[c].draining == s.conns[c].draining
         && (s'.conns[c].open ==> s.conns[c].open))
  }

  lemma QuietKeeps(s: State, s': State, c: ConnId)
    requires Inv(s) && QuietChange(s, s', c) && GlobalInv(s') && ConnInv(s', c)
    ensures Inv(s')
  {
    forall k | k in s.jobs && k !in {} ensures JobUnseen(s, s', k) {
      assert JobInv(s, k);
    }
    assert StepOn(s, s', {}, {c});
    Lift(s, s', {}, {c});
  }

  /** A wakeup or a close that finds a job stored on its connection. */
  ghost predicate VisitChange(s: State, s': State, j: JobId, c: ConnId) {
    && s.e.EIdle? && s' == s.(conns := s'.conns, e := s'.e)
    && j in s.jobs && c in s.conns && s.conns[c].fn == Ptr(j)
    && c in s'.conns && s'.conns == s.conns[c := s'.conns[c]]
    && var (n, n') := (s.conns[c], s'.conns[c]);
       if EClosing(s'.e).Ptr? then
         n.open && n' == n.(open := false) && s'.e == EClose1(c, j)
       else
         && n.open && n.pending > 0 && n' == n.(pending := n.pending - 1)
         && s'.e == (if s.jobs[j].stream then EDrain(c, j, 0) else EPeek(c, j))
  }

  lemma VisitSelf(j: JobId, b: Job, n: Conn, slot: JobRef, w: WorkerPc, e: LoopPc, n': Conn, e': LoopPc)
    requires e.EIdle? && n.fn == Ptr(j) && n.open && JobOk(j, b, n, slot, w, e)
    requires (n' == n.(open := false) && e' == EClose1(b.conn, j))
          || (n.pending > 0 && n' == n.(pending := n.pending - 1)
              && e' == if b.stream then EDrain(b.conn, j, 0) else EPeek(b.conn, j))
    ensures JobOk(j, b, n', slot, w, e')
  {
    assert OwnOk(j, b, n', w, e');
    assert FlowOk(j, b, e');
    assert WakeOk(j, b, n', w, e');
  }

  lemma VisitOther(s: State, s': State, j: JobId, c: ConnId, k: JobId)
    requires VisitChange(s, s', j, c)
    requires k in s.jobs && k != j && JobInv(s, k)
    ensures JobUnseen(s, s', k)
  {
  }

  lemma VisitRest(s: State, s': State, j: JobId, c: ConnId)
    requires VisitChange(s, s', j, c) && GlobalInv(s) && ConnInv(s, c)
    ensures GlobalInv(s') && ConnInv(s', c) && StepOn(s, s', {j}, {c})
  {
  }

  lemma VisitKeeps(s: State, s': State, j: JobId, c: ConnId)
    requires Inv(s) && VisitChange(s, s', j, c)
    ensures Inv(s')
  {
    assert ConnInv(s, c) && JobInv(s, j);
    VisitSelf(j, s.jobs[j], s.conns[c], s.slot, s.w, s.e, s'.conns[c], s'.e);
    forall k | k in s.jobs && k !in {j} ensures JobUnseen(s, s', k) {
      VisitOther(s, s', j, c, k);
    }
    VisitRest(s, s', j, c);
    LiftOne(s, s', j, c);
  }

  lemma WakeupKeeps(s: State, c: ConnId)
    requires Inv(s) && s.e.EIdle? && LoopEnabled(s, Wakeup(c))
    ensures Inv(LoopStep(s, Wakeup(c)))
  {
    var s' := LoopStep(s, Wakeup(c));
    var n := s.conns[c];
    assert ConnInv(s, c);
    if n.fn.Ptr? {
      StoredOpen(s, n.fn.ptr, c);
      WakeupVisits(s, n.fn.ptr, c);
      VisitKeeps(s, s', n.fn.ptr, c);
    } else {
      StaleWakeup(s, s', c);
    }
  }

  lemma WakeupVisits(s: State, j: JobId, c: ConnId)
    requires s.e.EIdle? && LoopEnabled(s, Wakeup(c)) && s.conns[c].fn == Ptr(j) && s.conns[c].open
    ensures VisitChange(s, LoopStep(s, Wakeup(c)), j, c)
  {
  }

  /** A wakeup for a connection without a job does nothing. */
  lemma StaleWakeup(s: State, s': State, c: ConnId)
    requires Inv(s) && s.e.EIdle? && c in s.conns && s.conns[c].fn.Null? && s.conns[c].pending > 0
    requires s' == s.(conns := s.conns[c := s.conns[c].(pending := s.conns[c].pending - 1)])
    ensures Inv(s')
  {
    assert ConnInv(s, c);
    QuietKeeps(s, s', c);
  }

  /** Only a connection being closed holds a job while no longer open. */
  lemma StoredOpen(s: State, j: JobId, c: ConnId)
    requires s.e.EIdle? && j in s.jobs && JobInv(s, j) && s.jobs[j].conn == c
    requires c in s.conns && s.conns[c].fn == Ptr(j)
    ensures s.conns[c].open
  {
  }

  lemma CloseKeeps(s: State, c: ConnId)
    requires Inv(s) && s.e.EIdle? && LoopEnabled(s, Close(c))
    ensures Inv(LoopStep(s, Close(c)))
  {
    var s' := LoopStep(s, Close(c));
    var n := s.conns[c];
    assert ConnInv(s, c);
    if n.fn.Ptr? {
      VisitKeeps(s, s', n.fn.ptr, c);
    } else {
      QuietKeeps(s, s', c);
    }
  }

  lemma RequestKeeps(s: State, ch: Choice)
    requires Inv(s) && s.e.EIdle? && ch.Request? && LoopEnabled(s, ch)
    ensures Inv(LoopStep(s, ch))
  {
    assert ConnInv(s, ch.c);
    QuietKeeps(s, LoopStep(s, ch), ch.c);
  }

  /** The unlocked look at the slot's job finds it finished. */
  lemma LookKeeps(s: State, s': State)
    requires Inv(s) && s.e.ELook?
    requires s' == s.(looks := s'.looks, e := EMake(s.e.c, s.e.stream, s.e.limit))
    ensures Inv(s')
  {
    var c := s.e.c;
    assert ConnInv(s, c);
    assert GlobalInv(s') && ConnInv(s', c);
    assert s.conns == s.conns[c := s.conns[c]];
    QuietKeeps(s, s', c);
  }

  lemma RejectKeeps(s: State, s': State, c: ConnId)
    requires Inv(s) && (s.e.ELook? || s.e.EMake?) && s.e.c == c
    requires s' == RejectStep(s.(faults := s'.faults, looks := s'.looks), c)
    requires s'.faults <= s.faults + (if s.slot.Ptr? && s.jobs[s.slot.ptr].frees > 0 then {s.slot.ptr} else {})
    ensures Inv(s')
  {
    if s.slot.Ptr? {
      SlotTouch(s);
    }
    var s1 := s.(faults := s'.faults);
    FaultsKeep(s, s1);
    assert ConnInv(s1, c);
    RejectRest(s1, s', c);
    QuietKeeps(s1, s', c);
  }

  lemma RejectRest(s: State, s': State, c: ConnId)
    requires GlobalInv(s) && c in s.conns && ConnInv(s, c) && (s.e.ELook? || s.e.EMake?) && s.e.c == c
    requires s' == RejectStep(s.(looks := s'.looks), c)
    ensures GlobalInv(s') && ConnInv(s', c) && QuietChange(s, s', c)
  {
  }

  /** The record of faults does not matter to anyone. */
  lemma FaultsKeep(s: State, s': State)
    requires Inv(s) && s' == s.(faults := s'.faults)
    requires forall j :: j in s'.faults ==> j in s.jobs && s.jobs[j].early
    ensures Inv(s')
  {
    forall k | k in s'.jobs ensures JobInv(s', k) {
      assert JobInv(s, k);
    }
    forall c | c in s'.conns ensures ConnInv(s', c) {
      assert ConnInv(s, c);
    }
  }

  /** The slot's job, if it was freed, was finalised while the worker held it. */
  lemma SlotTouch(s: State)
    requires Inv(s) && s.slot.Ptr?
    ensures s.jobs[s.slot.ptr].frees > 0 ==> s.jobs[s.slot.ptr].early
  {
    assert JobInv(s, s.slot.ptr);
  }

  // ----- a job is accepted -----

  ghost predicate AdmitChange(s: State, s': State, j: JobId, c: ConnId) {
    && s.e.EMake? && s.e.c == c && c in s.conns && j !in s.jobs
    && (s.slot.Ptr? ==> s.slot.ptr in s.jobs) && Admits(s)
    && s'.jobs == s.jobs[j := NewJob(c, s.e.stream, s.e.limit, s.slot.Ptr?)]
    && s'.conns == s.conns[c := s.conns[c].(fn := Ptr(j))]
    && s'.slot == Ptr(j) && s'.w == s.w && s'.e == EIdle
    && s'.faults <= s.faults + (if s.slot.Ptr? && s.jobs[s.slot.ptr].frees > 0 then {s.slot.ptr} else {})
  }

  lemma NewSelf(j: JobId, b: Job, n: Conn, lost: bool, w: WorkerPc)
    requires b == NewJob(b.conn, b.stream, b.limit, lost)
    requires n.fn == Ptr(j) && n.open && !n.draining && n.pending == 0
    requires WJob(w) != Ptr(j) && (if lost then w.WLog? || w.WClear? else !WillClear(w))
    ensures JobOk(j, b, n, Ptr(j), w, EIdle)
  {
  }

  lemma AdmitSelf(s: State, s': State, j: JobId, c: ConnId)
    requires AdmitChange(s, s', j, c) && GlobalInv(s) && ConnInv(s, c)
    requires s.slot.Ptr? ==> JobInv(s, s.slot.ptr)
    ensures JobInv(s', j)
  {
    NewSelf(j, s'.jobs[j], s'.conns[c], s.slot.Ptr?, s'.w);
  }

  lemma AdmitOther(s: State, s': State, j: JobId, c: ConnId, k: JobId)
    requires AdmitChange(s, s', j, c) && GlobalInv(s) && ConnInv(s, c)
    requires k in s.jobs && JobInv(s, k)
    ensures JobUnseen(s, s', k)
  {
  }

  lemma AdmitRest(s: State, s': State, j: JobId, c: ConnId)
    requires AdmitChange(s, s', j, c) && GlobalInv(s) && ConnInv(s, c)
    requires s.slot.Ptr? ==> JobInv(s, s.slot.ptr)
    ensures GlobalInv(s') && ConnInv(s', c) && StepOn(s, s', {j}, {c})
  {
  }

  lemma AdmitKeeps(s: State, s': State, j: JobId, c: ConnId)
    requires Inv(s) && AdmitChange(s, s', j, c)
    ensures Inv(s')
  {
    assert ConnInv(s, c);
    AdmitSelf(s, s', j, c);
    AdmitOthers(s, s', j, c);
    AdmitRest(s, s', j, c);
    LiftOne(s, s', j, c);
  }

  lemma AdmitOthers(s: State, s': State, j: JobId, c: ConnId)
    requires AdmitChange(s, s', j, c) && GlobalInv(s) && ConnInv(s, c) && JobsInv(s)
    ensures forall k :: k in s.jobs && k !in {j} ==> JobUnseen(s, s', k)
  {
    forall k | k in s.jobs && k !in {j} ensures JobUnseen(s, s', k) {
      AdmitOther(s, s', j, c, k);
    }
  }

  // ----- steps of the event loop that concern no stored job -----

  /** Such a step changes at most the cancel flag of a job, or adds a job. */
  ghost predicate Bare(s: State, s': State) {
    && s'.looks == s.looks && s.faults <= s'.faults && s.jobs.Keys <= s'.jobs.Keys && s'.w == s.w
    && (forall j :: j in s.jobs ==> j in s'.jobs && s'.jobs[j] == s.jobs[j].(cancel := s'.jobs[j].cancel))
    && (forall j :: j in s'.jobs && j !in s.jobs ==> Fresh(s'.jobs[j]))
  }

  predicate Fresh(b: Job) { b.phase == Queued && b.given == [] && !b.early && b.answers == 0 && b.frees == 0 }

  lemma IdleBare(s: State, ch: Choice)
    requires s.e.EIdle? && LoopEnabled(s, ch)
    ensures var s' := LoopStep(s, ch);
            Bare(s, s') && (s'.e.ELook? ==> s.slot == Ptr(s'.e.j) && s'.jobs == s.jobs)
  {
    if ch.Request? || ch.Wakeup? || ch.Close? {
      IdleSameJobs(s, ch);
    } else {
      CancelBare(s);
    }
  }

  lemma IdleSameJobs(s: State, ch: Choice)
    requires s.e.EIdle? && LoopEnabled(s, ch) && (ch.Request? || ch.Wakeup? || ch.Close?)
    ensures var s' := LoopStep(s, ch);
            && s'.jobs == s.jobs && s'.looks == s.looks && s'.faults == s.faults && s'.w == s.w
            && (s'.e.ELook? ==> s.slot == Ptr(s'.e.j))
  {
  }

  lemma CancelBare(s: State)
    requires s.e.EIdle? && LoopEnabled(s, Go)
    ensures Bare(s, LoopStep(s, Go)) && LoopStep(s, Go).e.EStop?
  {
    var s' := IdleStep(s, Go);
    assert LoopStep(s, Go) == s';
    if s.slot.Ptr? {
      CancelIs(s, s');
    }
  }

  lemma CancelIs(s: State, s': State)
    requires s.e.EIdle? && LoopEnabled(s, Go) && s.slot.Ptr? && s' == IdleStep(s, Go)
    ensures var k := s.slot.ptr;
            && s'.jobs == s.jobs[k := s.jobs[k].(cancel := true)]
            && s'.looks == s.looks && s.faults <= s'.faults && s'.w == s.w && s'.e.EStop?
  {
  }

  lemma MakeBare(s: State, ch: Choice)
    requires s.e.EMake? && LoopEnabled(s, ch)
    ensures Bare(s, LoopStep(s, ch)) && LoopStep(s, ch).e.EIdle?
  {
    if ch.Refuse? || !Admits(s) {
      assert LoopStep(s, ch).jobs == s.jobs;
    } else {
      SubmitBare(s, ch);
    }
  }

  lemma SubmitBare(s: State, ch: Choice)
    requires s.e.EMake? && LoopEnabled(s, ch) && ch.Accept? && Admits(s)
    ensures Bare(s, LoopStep(s, ch))
    ensures var s' := LoopStep(s, ch);
            && s'.slot == Ptr(ch.job) && s'.e.EIdle?
            && s'.jobs == s.jobs[ch.job := NewJob(s.e.c, s.e.stream, s.e.limit, s.slot.Ptr?)]
            && s'.conns == s.conns[s.e.c := s.conns[s.e.c].(fn := Ptr(ch.job))]
  {
    var s' := LoopStep(s, ch);
    assert s'.jobs == s.jobs[ch.job := NewJob(s.e.c, s.e.stream, s.e.limit, s.slot.Ptr?)];
  }

  /** The unlocked look changes no job. */
  lemma LookStep(s: State)
    requires s.e.ELook? && LoopEnabled(s, Go)
    ensures var s' := LoopStep(s, Go);
            && s'.jobs == s.jobs && s'.faults == s.faults && s'.w == s.w && !s'.e.ELook?
            && s'.looks == s.looks + (if s.jobs[s.e.j].frees > 0 then {s.e.j} else {})
  {
  }

  /** The same, without the record of looks. */
  lemma ElseStep(s: State, ch: Choice)
    requires LoopEnabled(s, ch) && EJob(s.e).Null? && EClosing(s.e).Null?
    ensures Bare(s, LoopStep(s, ch).(looks := s.looks))
  {
    if s.e.EIdle? {
      IdleBare(s, ch);
    } else if s.e.EMake? {
      MakeBare(s, ch);
    } else if s.e.ELook? {
      LookStep(s);
    }
  }

  // ----- every step -----

  /** worker_cancel marks the slot's job. */
  ghost predicate CancelChange(s: State, s': State, j: JobId) {
    && s.e.EIdle? && s.slot == Ptr(j) && j in s.jobs
    && s' == s.(jobs := s.jobs[j := s.jobs[j].(cancel := true)], e := EStop, faults := s'.faults)
    && s'.faults <= s.faults + (if s.jobs[j].frees > 0 then {j} else {})
  }

  lemma CancelKeeps(s: State, s': State, j: JobId)
    requires Inv(s) && CancelChange(s, s', j)
    ensures Inv(s')
  {
    CancelKeepsSelf(s, s', j);
    forall k | k in s.jobs && k !in {j} ensures JobUnseen(s, s', k) {
      CancelOther(s, s', j, k);
    }
    CancelRest(s, s', j);
    Lift(s, s', {j}, {});
  }

  lemma CancelKeepsSelf(s: State, s': State, j: JobId)
    requires CancelChange(s, s', j) && JobInv(s, j)
    ensures JobInv(s', j)
  {
    var b := s.jobs[j];
    CancelSelf(j, b, s.conns[b.conn], s.slot, s.w, s.e);
  }

  lemma CancelOther(s: State, s': State, j: JobId, k: JobId)
    requires CancelChange(s, s', j) && k in s.jobs && JobInv(s, k)
    ensures JobUnseen(s, s', k)
  {
  }

  lemma CancelRest(s: State, s': State, j: JobId)
    requires CancelChange(s, s', j) && GlobalInv(s) && JobInv(s, j)
    ensures GlobalInv(s') && StepOn(s, s', {j}, {})
  {
  }

  lemma CancelSelf(j: JobId, b: Job, n: Conn, slot: JobRef, w: WorkerPc, e: LoopPc)
    requires e.EIdle? && JobOk(j, b, n, slot, w, e)
    ensures JobOk(j, b.(cancel := true), n, slot, w, EStop)
  {
    var b' := b.(cancel := true);
    SameFlow(j, b, b', e);
    assert OutOk(b');
    assert OwnOk(j, b', n, w, EStop);
    assert FlowOk(j, b', EStop);
  }

  /** On its way out the event loop touches nothing but its program counter and `running`. */
  lemma HaltKeeps(s: State, s': State)
    requires Inv(s) && (s.e.EIdle? || s.e.EStop?) && (s'.e.EStop? || s'.e.EHalt?)
    requires s' == s.(e := s'.e, running := s'.running)
    ensures Inv(s')
  {
    HaltOthers(s, s');
    HaltRest(s, s');
    Lift(s, s', {}, {});
  }

  lemma HaltOthers(s: State, s': State)
    requires EJob(s.e).Null? && EClosing(s.e).Null? && EJob(s'.e).Null? && EClosing(s'.e).Null?
    requires s' == s.(e := s'.e, running := s'.running) && JobsInv(s)
    ensures forall k :: k in s.jobs && k !in {} ==> JobUnseen(s, s', k)
  {
    forall k | k in s.jobs && k !in {} ensures JobUnseen(s, s', k) {
      HaltOther(s, s', k);
    }
  }

  lemma HaltRest(s: State, s': State)
    requires GlobalInv(s) && (s.e.EIdle? || s.e.EStop?) && (s'.e.EStop? || s'.e.EHalt?)
    requires s' == s.(e := s'.e, running := s'.running)
    ensures GlobalInv(s') && StepOn(s, s', {}, {})
  {
  }

  lemma HaltOther(s: State, s': State, k: JobId)
    requires EJob(s.e).Null? && EClosing(s.e).Null? && EJob(s'.e).Null? && EClosing(s'.e).Null?
    requires s' == s.(e := s'.e, running := s'.running)
    requires k in s.jobs && JobInv(s, k)
    ensures JobUnseen(s, s', k)
  {
  }

  lemma LoopStepKeeps(s: State, ch: Choice)
    requires Inv(s) && LoopEnabled(s, ch)
    ensures Inv(LoopStep(s, ch))
  {
    var s' := LoopStep(s, ch);
    if s.e.EIdle? {
      if ch.Request? {
        RequestKeeps(s, ch);
      } else if ch.Wakeup? {
        WakeupKeeps(s, ch.c);
      } else if ch.Close? {
        CloseKeeps(s, ch.c);
      } else if s.slot.Ptr? {
        CancelKeeps(s, s', s.slot.ptr);
      } else {
        HaltKeeps(s, s');
      }
    } else if s.e.EStop? {
      HaltKeeps(s, s');
    } else if s.e.ELook? {
      LookStepKeeps(s);
    } else if s.e.EMake? {
      MakeStepKeeps(s, ch);
    } else {
      LoopChanges(s);
      LoopKeeps(s, s', s.e.j, s.e.c);
    }
  }

  lemma LookStepKeeps(s: State)
    requires Inv(s) && s.e.ELook? && LoopEnabled(s, Go)
    ensures Inv(LoopStep(s, Go))
  {
    var s' := LoopStep(s, Go);
    if Busy(s.jobs[s.e.j].state) {
      RejectKeeps(s, s', s.e.c);
    } else {
      LookKeeps(s, s');
    }
  }

  lemma MakeStepKeeps(s: State, ch: Choice)
    requires Inv(s) && s.e.EMake? && LoopEnabled(s, ch)
    ensures Inv(LoopStep(s, ch))
  {
    var s' := LoopStep(s, ch);
    if ch.Refuse? || !Admits(s) {
      RejectKeeps(s, s', s.e.c);
    } else {
      AdmitKeeps(s, s', ch.job, s.e.c);
    }
  }

  lemma WorkerStepKeeps(s: State, ch: Choice)
    requires Inv(s) && WorkerEnabled(s, ch)
    ensures Inv(WorkerStep(s, ch))
  {
    if s.w.WTop? {
      if s.running {
        TakeKeeps(s);
      } else {
        QuitKeeps(s);
      }
    } else {
      WorkerChanges(s, ch);
      WorkerKeeps(s, WorkerStep(s, ch), s.w.j, ch);
    }
  }

  lemma ConnectKeeps(s: State, c: ConnId)
    requires Inv(s) && c !in s.conns
    ensures Inv(Step(s, Connect(c)))
  {
    var s' := Step(s, Connect(c));
    ConnectUnseen(s, s', c);
    Lift(s, s', {}, {c});
  }

  lemma ConnectUnseen(s: State, s': State, c: ConnId)
    requires JobsInv(s) && c !in s.conns && c in s'.conns && s' == s.(conns := s.conns[c := s'.conns[c]])
    ensures forall k :: k in s.jobs && k !in {} ==> JobUnseen(s, s', k)
  {
    forall k | k in s.jobs && k !in {} ensures JobUnseen(s, s', k) {
      assert JobInv(s, k);
    }
  }

  lemma SignalKeeps(s: State)
    requires Inv(s)
    ensures Inv(s.(shutdown := true))
  {
    var s' := s.(shutdown := true);
    forall k | k in s'.jobs ensures JobInv(s', k) {
      assert JobInv(s, k);
    }
    forall c | c in s'.conns ensures ConnInv(s', c) {
      assert ConnInv(s, c);
    }
  }

  /** Every step of every thread keeps the invariant. */
  lemma StepKeeps(s: State, a: Action)
    requires Inv(s) && Enabled(s, a)
    ensures Inv(Step(s, a))
  {
    match a
    case Worker(ch) => WorkerStepKeeps(s, ch);
    case Loop(ch) => LoopStepKeeps(s, ch);
    case Connect(c) => ConnectKeeps(s, c);
    case Signal => SignalKeeps(s);
  }

  lemma InitInv()
    ensures Inv(Init())
  {
  }

  lemma {:induction false} RunInv(run: seq<State>, i: nat)
    requires IsRun(run) && i < |run|
    ensures Inv(run[i])
  {
    if i > 0 {
      RunInv(run, i - 1);
      FollowsKeeps(run, i - 1);
    } else {
      InitInv();
    }
  }

  lemma FollowsKeeps(run: seq<State>, i: nat)
    requires IsRun(run) && i + 1 < |run| && Inv(run[i])
    ensures Inv(run[i + 1])
  {
    assert Follows(run, i);
    var a :| Enabled(run[i], a) && run[i + 1] == Step(run[i], a);
    StepKeeps(run[i], a);
  }

  /** The invariant holds in every reachable state, whatever the interleaving. */
  lemma ReachableInv(s: State)
    requires Reachable(s)
    ensures Inv(s)
  {
    var run :| IsRun(run) && run[|run| - 1] == s;
    RunInv(run, |run| - 1);
  }

  /** One more step of a run. */
  lemma LongerRun(run: seq<State>, a: Action)
    requires IsRun(run) && Enabled(run[|run| - 1], a)
    ensures IsRun(run + [Step(run[|run| - 1], a)])
  {
    var s := run[|run| - 1];
    var longer := run + [Step(s, a)];
    forall i | 0 <= i < |longer| - 1 ensures Follows(longer, i) {
      if i < |run| - 1 {
        assert Follows(run, i);
        var b :| Enabled(run[i], b) && run[i + 1] == Step(run[i], b);
        assert Enabled(longer[i], b) && longer[i + 1] == Step(longer[i], b);
      } else {
        assert Enabled(longer[i], a) && longer[i + 1] == Step(longer[i], a);
      }
    }
  }

  lemma ReachableStep(s: State, a: Action)
    requires Reachable(s) && Enabled(s, a)
    ensures Reachable(Step(s, a))
  {
    var run :| IsRun(run) && run[|run| - 1] == s;
    LongerRun(run, a);
    var longer := run + [Step(s, a)];
    assert longer[|longer| - 1] == Step(s, a);
  }
}
