/**
 The protocol between the event loop and the inference worker, as a
 step relation. Each thread has one program counter; every step is one
 critical section, one atomic access or one access to a shared flag.
 A job that was freed keeps its last contents: a later access is a step
 like any other, but it is recorded in `faults`.
 */
module Protocol {
  import opened Basics

  type JobId = nat
  type ConnId = nat

  /** A pointer to a job. */
  datatype JobRef = Null | Ptr(ptr: JobId)

  datatype JobState = Idle | Running | Done | Error

  /** History of a job: accepted, taken by the worker, given up by the worker. */
  datatype Phase = Queued | Picked | Retired

  /** What the event loop writes to a connection on behalf of a job. */
  datatype Frame =
    | Headers
    | Delta(text: Text)
    | FinalChunk
    | DoneMark
    | Reply(texts: seq<Text>)
    | Failure

  datatype Job = Job(
    // set before submission
    conn: ConnId, stream: bool, limit: nat,
    // shared between the threads
    state: JobState, cancel: bool, orphaned: bool, mgr: bool,
    ring: seq<Text>, done: bool,
    // history
    phase: Phase,        // progress through the worker
    lost: bool,          // accepted while the slot still held a finished job
    spared: bool,        // the worker's orphan test read 0
    early: bool,         // finalised while the worker still held the job
    unposted: bool,      // the worker asked a null manager for a wakeup
    frees: nat,          // how often the job was freed
    given: seq<Text>,    // tokens accepted from the generation loop
    drained: seq<Text>,  // tokens taken out of the ring
    framed: seq<Text>,   // tokens sent as chunks
    seen: nat,           // tokens given when the ring was last seen empty
    viaDone: bool,       // finalised by the test made under the ring's lock
    answers: nat,        // how often the job was finalised
    out: seq<Frame>)     // everything sent for the job

  datatype Conn = Conn(
    open: bool, draining: bool, fn: JobRef, pending: nat,
    // history
    requests: nat, rejected: nat, finished: nat, dropped: nat)

  datatype WorkerPc =
    | WTop
    | WStart(j: JobId)
    | WTok(j: JobId, since: nat)
    | WChk(j: JobId, since: nat, text: Text, empty: bool)
    | WWrote(j: JobId, since: nat, empty: bool)
    | WPost(j: JobId, since: nat)
    | WEnd(j: JobId, ok: bool)
    | WAcc(j: JobId)
    | WPub(j: JobId, ok: bool)
    | WLog(j: JobId)
    | WClear(j: JobId)
    | WTest(j: JobId)
    | WFree(j: JobId)
    | WMgr(j: JobId)
    | WLast(j: JobId)
    | WExit

  datatype LoopPc =
    | EIdle
    | ELook(c: ConnId, stream: bool, limit: nat, j: JobId)
    | EMake(c: ConnId, stream: bool, limit: nat)
    | EPeek(c: ConnId, j: JobId)
    | EReply(c: ConnId, j: JobId)
    | EDrain(c: ConnId, j: JobId, full: nat)
    | EFrame(c: ConnId, j: JobId, full: nat, batch: seq<Text>)
    | EDone(c: ConnId, j: JobId)
    | EState(c: ConnId, j: JobId, viaDone: bool)
    | EFin(c: ConnId, j: JobId, viaDone: bool)
    | EClose1(c: ConnId, j: JobId)
    | EClose2(c: ConnId, j: JobId)
    | EClose3(c: ConnId, j: JobId)
    | EStop
    | EHalt

  datatype State = State(
    slot: JobRef, running: bool, shutdown: bool,
    jobs: map<JobId, Job>, conns: map<ConnId, Conn>,
    w: WorkerPc, e: LoopPc,
    faults: set<JobId>,   // jobs accessed after they were freed
    looks: set<JobId>)    // the same, by the unlocked admission check alone

  /** The choices that the code does not make: input, tokens, scheduling. */
  datatype Choice =
    | Go
    | Token(text: Text)
    | Stop(ok: bool)
    | Request(c: ConnId, stream: bool, limit: nat)
    | Refuse
    | Accept(job: JobId)
    | Wakeup(c: ConnId)
    | Close(c: ConnId)

  datatype Action =
    | Worker(choice: Choice)
    | Loop(choice: Choice)
    | Connect(conn: ConnId)
    | Signal

  function Init(): State {
    State(Null, true, false, map[], map[], WTop, EIdle, {}, {})
  }

  // ----- vocabulary -----

  predicate Busy(st: JobState) { st == Idle || st == Running }

  predicate Full(b: Job) { |b.ring| == RING_SIZE - 1 }

  function WJob(w: WorkerPc): JobRef {
    if w.WTop? || w.WExit? then Null else Ptr(w.j)
  }

  /** The job of which the event loop is handling a wakeup. */
  function EJob(e: LoopPc): JobRef {
    if e.EPeek? || e.EReply? || e.EDrain? || e.EFrame? || e.EDone? || e.EState? || e.EFin?
    then Ptr(e.j) else Null
  }

  /** The job of which the event loop is handling the close. */
  function EClosing(e: LoopPc): JobRef {
    if e.EClose1? || e.EClose2? || e.EClose3? then Ptr(e.j) else Null
  }

  /** The worker has taken a job and not yet published its outcome. */
  predicate Generating(w: WorkerPc) {
    w.WStart? || w.WTok? || w.WChk? || w.WWrote? || w.WPost? || w.WEnd? || w.WAcc? || w.WPub?
  }

  /** The worker will still clear the slot for its current job. */
  predicate WillClear(w: WorkerPc) { Generating(w) || w.WLog? || w.WClear? }

  /** The event loop will look at the ring of j again before it returns. */
  predicate WillDrain(e: LoopPc, j: JobId) {
    (e.EDrain? && e.j == j) || (e.EFrame? && e.j == j && |e.batch| == BATCH)
  }

  function Deltas(ts: seq<Text>): (r: seq<Frame>)
    ensures |r| == |ts|
    ensures forall i :: 0 <= i < |ts| ==> r[i] == Delta(ts[i])
  {
    seq(|ts|, i requires 0 <= i < |ts| => Delta(ts[i]))
  }

  function WithJob(s: State, j: JobId, b: Job): State {
    s.(jobs := s.jobs[j := b])
  }

  function WithConn(s: State, c: ConnId, n: Conn): State {
    s.(conns := s.conns[c := n])
  }

  /** Record an access to job j. */
  function Touch(s: State, j: JobId): State
    requires j in s.jobs
  {
    if s.jobs[j].frees > 0 then s.(faults := s.faults + {j}) else s
  }

  // ----- the worker thread -----

  predicate WorkerEnabled(s: State, ch: Choice) {
    if s.w.WTop? then
      ch.Go? && (!s.running || (s.slot.Ptr? && s.slot.ptr in s.jobs))
    else
      && !s.w.WExit?
      && s.w.j in s.jobs
      && s.jobs[s.w.j].conn in s.conns
      && Choosable(s.w, s.jobs[s.w.j], s.shutdown, ch)
  }

  predicate Choosable(w: WorkerPc, b: Job, shutdown: bool, ch: Choice) {
    if w.WTok? || w.WAcc? then
      // the generation loop offers a token or ends
      ch.Stop? || (ch.Token? && |b.given| < b.limit)
    else if w.WChk? && (b.cancel || shutdown) then
      ch.Stop?
    else
      // ring_write waits while the ring is full
      ch.Go? && (w.WChk? ==> !Full(b))
  }

  function WorkerStep(s: State, ch: Choice): State
    requires WorkerEnabled(s, ch)
  {
    if s.w.WTop? then
      if !s.running then s.(w := WExit)
      else
        var j := s.slot.ptr;
        WithJob(s, j, s.jobs[j].(phase := Picked)).(w := WStart(j))
    else if s.w.WClear? then s.(slot := Null, w := WTest(s.w.j))
    else
      var j := s.w.j;
      var b := s.jobs[j];
      var s1 := WithJob(Touch(s, j), j, WorkerJob(s.w, b, ch)).(w := WorkerNext(s.w, b, ch));
      // mg_wakeup, on a second load of the manager: one more pending wakeup
      if (s.w.WPost? || s.w.WLast?) && b.mgr then
        WithConn(s1, b.conn, s.conns[b.conn].(pending := s.conns[b.conn].pending + 1))
      else s1
  }

  /** What a step of the worker does to its current job. */
  function WorkerJob(w: WorkerPc, b: Job, ch: Choice): (r: Job)
    ensures r.conn == b.conn && r.stream == b.stream && r.limit == b.limit && r.lost == b.lost
    ensures r.cancel == b.cancel && r.orphaned == b.orphaned && r.mgr == b.mgr
    ensures r.drained == b.drained && r.framed == b.framed && r.seen == b.seen
    ensures r.viaDone == b.viaDone && r.answers == b.answers && r.out == b.out && r.early == b.early
    ensures r.phase == b.phase || r.phase == Retired
    ensures !w.WFree? && !w.WMgr? && !w.WLast? ==> r.phase == b.phase
    ensures !w.WFree? ==> r.frees == b.frees
    ensures !w.WTest? ==> r.spared == b.spared
    ensures !w.WPost? && !w.WLast? ==> r.unposted == b.unposted
    ensures !w.WStart? && !w.WPub? ==> r.state == b.state
    ensures if w.WEnd? then r.done else r.done == b.done
    ensures !(w.WChk? && ch.Go?) ==> r.ring == b.ring
    ensures !(w.WChk? && ch.Go?) && !(w.WAcc? && ch.Token?) ==> r.given == b.given
  {
    if w.WStart? then b.(state := Running)
    else if w.WChk? && ch.Go? then
      b.(ring := b.ring + [Cut(w.text)], given := b.given + [w.text])
    else if w.WEnd? then b.(done := true)
    else if w.WAcc? && ch.Token? then b.(given := b.given + [ch.text])
    else if w.WPub? then b.(state := if w.ok then Done else Error)
    else if w.WTest? && !b.orphaned then b.(spared := true)
    else if w.WFree? then b.(frees := b.frees + 1, phase := Retired)
    else if w.WPost? then b.(unposted := b.unposted || !b.mgr)
    else if w.WMgr? && !b.mgr then b.(phase := Retired)
    else if w.WLast? then b.(phase := Retired, unposted := b.unposted || !b.mgr)
    else b
  }

  /** Where the worker goes from a step that accesses its current job. */
  function WorkerNext(w: WorkerPc, b: Job, ch: Choice): WorkerPc
    requires WJob(w).Ptr?
    requires w.WTok? ==> ch.Token? || ch.Stop?
    requires w.WChk? ==> ch.Go? || ch.Stop?
    requires w.WAcc? ==> ch.Token? || ch.Stop?
  {
    match w
    case WStart(j) => if b.stream then WTok(j, 0) else WAcc(j)
    case WTok(j, since) =>
      // the callback first reads, in a critical section of its own, whether the ring is empty
      if ch.Token? then WChk(j, since, ch.text, b.ring == []) else WEnd(j, ch.ok)
    case WChk(j, since, _, empty) =>
      if ch.Go? then WWrote(j, since + 1, empty) else WEnd(j, ch.ok)
    case WWrote(j, since, empty) =>
      if b.mgr && (empty || since >= 8) then WPost(j, since) else WTok(j, since)
    case WPost(j, _) => WTok(j, 0)
    case WEnd(j, ok) => WPub(j, ok)
    case WAcc(j) => if ch.Token? then w else WPub(j, ch.ok)
    case WPub(j, _) => WLog(j)
    case WLog(j) => WClear(j)
    case WClear(j) => WTest(j)
    case WTest(j) => if b.orphaned then WFree(j) else WMgr(j)
    case WFree(_) => WTop
    case WMgr(j) => if b.mgr then WLast(j) else WTop
    case WLast(_) => WTop
  }

  // ----- the event loop -----

  /** A connection on which the HTTP library delivers a request. */
  predicate Ready(n: Conn) { n.open && !n.draining && n.fn == Null }

  predicate LoopEnabled(s: State, ch: Choice) {
    if s.e.EIdle? then IdleEnabled(s, ch)
    else if s.e.EMake? then
      && s.e.c in s.conns
      && (s.slot.Ptr? ==> s.slot.ptr in s.jobs)
      && (ch.Refuse? || (ch.Accept? && ch.job !in s.jobs))
    else
      && ch.Go? && !s.e.EHalt?
      && (s.e.EStop? || (s.e.c in s.conns && s.e.j in s.jobs))
  }

  predicate IdleEnabled(s: State, ch: Choice) {
    if ch.Request? then ch.c in s.conns && Ready(s.conns[ch.c])
    else if ch.Wakeup? then
      && ch.c in s.conns && s.conns[ch.c].pending > 0
      && (s.conns[ch.c].fn.Ptr? ==> s.conns[ch.c].fn.ptr in s.jobs)
    else if ch.Close? then ch.c in s.conns && s.conns[ch.c].open
    else ch.Go? && s.shutdown && (s.slot.Ptr? ==> s.slot.ptr in s.jobs)
  }

  function LoopStep(s: State, ch: Choice): State
    requires LoopEnabled(s, ch)
  {
    if s.e.EIdle? then IdleStep(s, ch)
    else if s.e.EStop? then s.(running := false, e := EHalt)
    else if s.e.ELook? then
      // worker_is_busy loads the state of the job without the lock
      var s1 := if s.jobs[s.e.j].frees > 0 then s.(looks := s.looks + {s.e.j}) else s;
      if Busy(s.jobs[s.e.j].state) then RejectStep(s1, s.e.c)
      else s1.(e := EMake(s.e.c, s.e.stream, s.e.limit))
    else if s.e.EMake? then
      if ch.Refuse? then RejectStep(s, s.e.c)
      else SubmitStep(if s.slot.Ptr? then Touch(s, s.slot.ptr) else s,
                      s.e.c, s.e.stream, s.e.limit, ch.job)
    else
      var (c, j, b, n) := (s.e.c, s.e.j, s.jobs[s.e.j], s.conns[s.e.c]);
      WithConn(WithJob(Touch(s, j), j, LoopJob(s.e, b)), c, LoopConn(s.e, n))
        .(e := LoopNext(s.e, b))
  }

  function IdleStep(s: State, ch: Choice): State
    requires s.e.EIdle? && LoopEnabled(s, ch)
  {
    if ch.Request? then
      var n := s.conns[ch.c];
      WithConn(s, ch.c, n.(requests := n.requests + 1))
        .(e := if s.slot.Ptr? then ELook(ch.c, ch.stream, ch.limit, s.slot.ptr)
               else EMake(ch.c, ch.stream, ch.limit))
    else if ch.Wakeup? then
      var n := s.conns[ch.c];
      WithConn(s, ch.c, n.(pending := n.pending - 1))
        .(e := if !n.open || n.fn == Null then EIdle
               else if s.jobs[n.fn.ptr].stream then EDrain(ch.c, n.fn.ptr, 0)
               else EPeek(ch.c, n.fn.ptr))
    else if ch.Close? then
      var n := s.conns[ch.c];
      WithConn(s, ch.c, n.(open := false))
        .(e := if n.fn == Null then EIdle else EClose1(ch.c, n.fn.ptr))
    else if s.slot == Null then s.(e := EStop)
    else
      // worker_cancel, before the worker is told to stop
      var k := s.slot.ptr;
      WithJob(Touch(s, k), k, s.jobs[k].(cancel := true)).(e := EStop)
  }

  /** An error reply to the request being handled. */
  function RejectStep(s: State, c: ConnId): State
    requires c in s.conns
  {
    WithConn(s, c, s.conns[c].(rejected := s.conns[c].rejected + 1)).(e := EIdle)
  }

  /** worker_submit returns 0 exactly when this holds. */
  predicate Admits(s: State)
    requires s.slot.Ptr? ==> s.slot.ptr in s.jobs
  {
    s.slot.Ptr? ==> !Busy(s.jobs[s.slot.ptr].state)
  }

  function NewJob(c: ConnId, stream: bool, limit: nat, lost: bool): Job {
    Job(c, stream, limit, Idle, false, false, true, [], false, Queued, lost, false, false, false, 0,
        [], [], [], 0, false, 0, if stream then [Headers] else [])
  }

  function SubmitStep(s: State, c: ConnId, stream: bool, limit: nat, j: JobId): State
    requires c in s.conns && (s.slot.Ptr? ==> s.slot.ptr in s.jobs)
  {
    if !Admits(s) then RejectStep(s, c)
    else
      WithConn(WithJob(s, j, NewJob(c, stream, limit, s.slot.Ptr?)), c,
               s.conns[c].(fn := Ptr(j)))
        .(slot := Ptr(j), e := EIdle)
  }

  /** What a step of the event loop does to the job it is working on. */
  function LoopJob(e: LoopPc, b: Job): (r: Job)
    ensures r.conn == b.conn && r.stream == b.stream && r.limit == b.limit && r.lost == b.lost
    ensures r.state == b.state && r.done == b.done && r.given == b.given
    ensures r.phase == b.phase && r.spared == b.spared && r.unposted == b.unposted
    ensures r.early == if e.EFin? then b.phase == Picked else b.early
    ensures !e.EDrain? ==> r.ring == b.ring && r.drained == b.drained && r.seen == b.seen
    ensures r.answers == if e.EReply? || e.EFin? then b.answers + 1 else b.answers
    ensures EClosing(e).Null? ==> r.cancel == b.cancel && r.mgr == b.mgr && r.orphaned == b.orphaned
  {
    if e.EDrain? then
      // one critical section takes out up to 32 tokens
      var k := BatchSize(b.ring);
      b.(ring := b.ring[k..], drained := b.drained + b.ring[..k],
         seen := if k < BATCH then |b.given| else b.seen)
    else if e.EFrame? then b.(framed := b.framed + e.batch, out := b.out + Deltas(e.batch))
    else if e.EReply? then
      Finalised(b.(out := b.out + [if b.state == Error then Failure else Reply(b.given)]))
    else if e.EFin? then
      Finalised(b.(viaDone := e.viaDone, early := b.phase == Picked, out := b.out + [FinalChunk, DoneMark]))
    else if e.EClose1? then b.(cancel := true)
    else if e.EClose2? then b.(mgr := false)
    else if e.EClose3? then b.(orphaned := true)
    else b
  }

  /** The inference is counted and the job freed. */
  function Finalised(b: Job): Job { b.(answers := b.answers + 1, frees := b.frees + 1) }

  /** What a step of the event loop does to the connection of its job. */
  function LoopConn(e: LoopPc, n: Conn): Conn {
    if e.EReply? then n.(fn := Null, finished := n.finished + 1)
    else if e.EFin? then n.(fn := Null, finished := n.finished + 1, draining := true)
    else if e.EClose3? then n.(fn := Null, dropped := n.dropped + 1)
    else n
  }

  /** Where the event loop goes from a step that accesses a stored job. */
  function LoopNext(e: LoopPc, b: Job): LoopPc
    requires EJob(e).Ptr? || EClosing(e).Ptr?
  {
    match e
    case EPeek(c, j) => if Busy(b.state) then EIdle else EReply(c, j)
    case EReply(_, _) => EIdle
    case EDrain(c, j, full) =>
      EFrame(c, j, full, b.ring[..BatchSize(b.ring)])
    case EFrame(c, j, full, batch) =>
      if |batch| == BATCH then EDrain(c, j, full + 1) else EDone(c, j)
    case EDone(c, j) => EState(c, j, b.done && b.ring == [])
    case EState(c, j, viaDone) =>
      if viaDone || !Busy(b.state) then EFin(c, j, viaDone) else EIdle
    case EFin(_, _, _) => EIdle
    case EClose1(c, j) => EClose2(c, j)
    case EClose2(c, j) => EClose3(c, j)
    case EClose3(_, _) => EIdle
  }

  // ----- runs -----

  predicate Enabled(s: State, a: Action) {
    match a
    case Worker(ch) => WorkerEnabled(s, ch)
    case Loop(ch) => LoopEnabled(s, ch)
    case Connect(c) => c !in s.conns
    case Signal => true
  }

  function Step(s: State, a: Action): State
    requires Enabled(s, a)
  {
    match a
    case Worker(ch) => WorkerStep(s, ch)
    case Loop(ch) => LoopStep(s, ch)
    case Connect(c) => WithConn(s, c, Conn(true, false, Null, 0, 0, 0, 0, 0))
    case Signal => s.(shutdown := true)
  }

  /** The i-th state of a run is followed by what some enabled step makes of it. */
  ghost predicate Follows(run: seq<State>, i: nat)
    requires i + 1 < |run|
  {
    exists a :: Enabled(run[i], a) && run[i + 1] == Step(run[i], a)
  }

  /** A run starts at the beginning and takes one step after the other. */
  ghost predicate IsRun(run: seq<State>) {
    run != [] && run[0] == Init() && forall i :: 0 <= i < |run| - 1 ==> Follows(run, i)
  }

  ghost predicate Reachable(s: State) { exists run :: IsRun(run) && run[|run| - 1] == s }
}
