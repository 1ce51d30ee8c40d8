/** Runs that show where the guarded properties stop: each is a list of steps
    that the code can take, and the state it ends in. They concern job 0 of
    connection 0, next to a second connection; in some, job 1 is accepted there. */
module ProtocolTraces {
  import opened Basics
  import opened Protocol
  import opened ProtocolInvariant
  import opened ProtocolAccess
  import opened ProtocolTheorems

  const FREE := Conn(true, false, Null, 0, 0, 0, 0, 0)

  function One(b: Job, n: Conn, slot: JobRef, w: WorkerPc, e: LoopPc, faults: set<JobId>): State {
    State(slot, true, false, map[0 := b], map[0 := n, 1 := FREE], w, e, faults, {})
  }

  /** The two connections are open. */
  function Idle2(n: Conn, e: LoopPc): State {
    State(Null, true, false, map[], map[0 := n, 1 := FREE], WTop, e, {}, {})
  }

  lemma Connected()
    ensures Reachable(Idle2(FREE, EIdle))
  {
    assert IsRun([Init()]) && [Init()][0] == Init();
    ReachableStep(Init(), Connect(0));
    ReachableStep(Step(Init(), Connect(0)), Connect(1));
    assert Step(Step(Init(), Connect(0)), Connect(1)) == Idle2(FREE, EIdle);
  }

  /** What a request does first. */
  lemma AskStep(s: State, c: ConnId, stream: bool, limit: nat)
    requires s.e.EIdle? && LoopEnabled(s, Request(c, stream, limit))
    ensures Step(s, Loop(Request(c, stream, limit)))
         == s.(conns := s.conns[c := s.conns[c].(requests := s.conns[c].requests + 1)],
               e := if s.slot.Ptr? then ELook(c, stream, limit, s.slot.ptr) else EMake(c, stream, limit))
  {
  }

  lemma Asked(stream: bool, limit: nat)
    ensures Reachable(Idle2(FREE.(requests := 1), EMake(0, stream, limit)))
  {
    Connected();
    AskedStep(Idle2(FREE, EIdle), FREE, stream, limit);
    ReachableStep(Idle2(FREE, EIdle), Loop(Request(0, stream, limit)));
  }

  lemma AskedStep(s: State, n: Conn, stream: bool, limit: nat)
    requires s == Idle2(n, EIdle) && Ready(n) && n.requests == 0
    ensures Enabled(s, Loop(Request(0, stream, limit)))
    ensures Step(s, Loop(Request(0, stream, limit))) == Idle2(n.(requests := 1), EMake(0, stream, limit))
  {
    AskStep(s, 0, stream, limit);
    assert s.conns[0 := n.(requests := 1)] == map[0 := n.(requests := 1), 1 := FREE];
  }

  lemma WasAccepted(stream: bool, limit: nat)
    ensures Reachable(One(NewJob(0, stream, limit, false), FREE.(fn := Ptr(0), requests := 1),
                          Ptr(0), WTop, EIdle, {}))
  {
    Asked(stream, limit);
    var n := FREE.(requests := 1);
    AcceptedStep(Idle2(n, EMake(0, stream, limit)), n, stream, limit);
    ReachableStep(Idle2(n, EMake(0, stream, limit)), Loop(Accept(0)));
  }

  lemma AcceptedStep(s: State, n: Conn, stream: bool, limit: nat)
    requires s == Idle2(n, EMake(0, stream, limit))
    ensures Enabled(s, Loop(Accept(0)))
    ensures Step(s, Loop(Accept(0)))
         == One(NewJob(0, stream, limit, false), n.(fn := Ptr(0)), Ptr(0), WTop, EIdle, {})
  {
    var n' := n.(fn := Ptr(0));
    assert s.conns[0 := n'] == map[0 := n', 1 := FREE];
    assert Step(s, Loop(Accept(0))) == SubmitStep(s, 0, stream, limit, 0);
  }

  /** A job was accepted, and the worker took it. */
  lemma Started(stream: bool, limit: nat) returns (b: Job, n: Conn)
    ensures b == NewJob(0, stream, limit, false).(phase := Picked)
    ensures n == FREE.(fn := Ptr(0), requests := 1)
    ensures Reachable(One(b, n, Ptr(0), WStart(0), EIdle, {}))
  {
    WasAccepted(stream, limit);
    var b0 := NewJob(0, stream, limit, false);
    b, n := b0.(phase := Picked), FREE.(fn := Ptr(0), requests := 1);
    var s := One(b0, n, Ptr(0), WTop, EIdle, {});
    ReachableStep(s, Worker(Go));
    assert Step(s, Worker(Go)) == One(b, n, Ptr(0), WStart(0), EIdle, {});
  }

  /** A step of the worker on job 0. */
  lemma ByWorker(b: Job, n: Conn, slot: JobRef, w: WorkerPc, e: LoopPc, faults: set<JobId>, ch: Choice)
    returns (b': Job, n': Conn, slot': JobRef, w': WorkerPc, faults': set<JobId>)
    requires Reachable(One(b, n, slot, w, e, faults)) && b.conn == 0
    requires WJob(w) == Ptr(0) && Choosable(w, b, false, ch)
    ensures b' == WorkerJob(w, b, ch) && n' == WorkerConn(w, b, n) && w' == WorkerNext(w, b, ch)
    ensures slot' == if w.WClear? then Null else slot
    ensures faults' == if b.frees > 0 && !w.WClear? then faults + {0} else faults
    ensures Reachable(One(b', n', slot', w', e, faults'))
  {
    b', n', w' := WorkerJob(w, b, ch), WorkerConn(w, b, n), WorkerNext(w, b, ch);
    slot' := if w.WClear? then Null else slot;
    faults' := if b.frees > 0 && !w.WClear? then faults + {0} else faults;
    var s := One(b, n, slot, w, e, faults);
    ReachableStep(s, Worker(ch));
    WorkerChanges(s, ch);
    ChangeIsOne(s, WorkerStep(s, ch), b, n, slot, w, e, faults, ch);
  }

  lemma ChangeIsOne(s: State, s': State, b: Job, n: Conn, slot: JobRef, w: WorkerPc, e: LoopPc,
                    faults: set<JobId>, ch: Choice)
    requires s == One(b, n, slot, w, e, faults) && WorkerChange(s, s', 0, ch) && b.conn == 0
    ensures s' == One(WorkerJob(w, b, ch), WorkerConn(w, b, n), if w.WClear? then Null else slot,
                      WorkerNext(w, b, ch), e, if b.frees > 0 && !w.WClear? then faults + {0} else faults)
  {
    OneMap(s'.jobs, s.jobs, b, WorkerJob(w, b, ch));
    assert s'.conns == map[0 := WorkerConn(w, b, n), 1 := FREE];
  }

  lemma OneMap(jobs': map<JobId, Job>, jobs: map<JobId, Job>, b: Job, b': Job)
    requires jobs == map[0 := b] && jobs' == jobs[0 := b']
    ensures jobs' == map[0 := b']
  {
  }

  /** A step of the event loop on job 0. */
  lemma ByLoop(b: Job, n: Conn, slot: JobRef, w: WorkerPc, e: LoopPc, faults: set<JobId>)
    returns (b': Job, n': Conn, e': LoopPc)
    requires Reachable(One(b, n, slot, w, e, faults)) && b.frees == 0
    requires (EJob(e) == Ptr(0) || EClosing(e) == Ptr(0)) && e.c == 0
    ensures b' == LoopJob(e, b) && n' == LoopConn(e, n) && e' == LoopNext(e, b)
    ensures Reachable(One(b', n', slot, w, e', faults))
  {
    var s := One(b, n, slot, w, e, faults);
    b', n', e' := LoopJob(e, b), LoopConn(e, n), LoopNext(e, b);
    ReachableStep(s, Loop(Go));
    LoopIsOne(s, b, n, slot, w, e, faults, b', n', e');
  }

  lemma LoopIsOne(s: State, b: Job, n: Conn, slot: JobRef, w: WorkerPc, e: LoopPc, faults: set<JobId>,
                  b': Job, n': Conn, e': LoopPc)
    requires s == One(b, n, slot, w, e, faults) && LoopEnabled(s, Go) && b.frees == 0
    requires (EJob(e) == Ptr(0) || EClosing(e) == Ptr(0)) && e.c == 0
    requires b' == LoopJob(e, b) && n' == LoopConn(e, n) && e' == LoopNext(e, b)
    ensures LoopStep(s, Go) == One(b', n', slot, w, e', faults)
  {
    assert WithJob(s, 0, b') == One(b', n, slot, w, e, faults);
    assert WithConn(One(b', n, slot, w, e, faults), 0, n') == One(b', n', slot, w, e, faults);
  }

  /** The event loop handles a wakeup for connection 0. */
  lemma ByWakeup(b: Job, n: Conn, slot: JobRef, w: WorkerPc, faults: set<JobId>)
    requires Reachable(One(b, n, slot, w, EIdle, faults)) && n.fn == Ptr(0) && n.open
    requires n.pending > 0
    ensures Reachable(One(b, n.(pending := n.pending - 1), slot, w,
                          if b.stream then EDrain(0, 0, 0) else EPeek(0, 0), faults))
  {
    var s := One(b, n, slot, w, EIdle, faults);
    var n' := n.(pending := n.pending - 1);
    ReachableStep(s, Loop(Wakeup(0)));
    assert WithConn(s, 0, n') == One(b, n', slot, w, EIdle, faults);
    assert Step(s, Loop(Wakeup(0)))
        == WithConn(s, 0, n').(e := if b.stream then EDrain(0, 0, 0) else EPeek(0, 0));
  }

  /** Connection 0 closes: first it is gone, then the three flags of its job are set. */
  lemma ByClose(b: Job, n: Conn, slot: JobRef, w: WorkerPc) returns (b': Job, n': Conn)
    requires Reachable(One(b, n, slot, w, EIdle, {})) && n.fn == Ptr(0) && n.open && b.frees == 0
    ensures b' == b.(cancel := true, mgr := false, orphaned := true)
    ensures n' == n.(open := false, fn := Null, dropped := n.dropped + 1)
    ensures Reachable(One(b', n', slot, w, EIdle, {}))
  {
    CloseBegins(b, n, slot, w);
    var e;
    b', n', e := ByLoop(b, n.(open := false), slot, w, EClose1(0, 0), {});
    b', n', e := ByLoop(b', n', slot, w, e, {});
    b', n', e := ByLoop(b', n', slot, w, e, {});
  }

  lemma CloseBegins(b: Job, n: Conn, slot: JobRef, w: WorkerPc)
    requires Reachable(One(b, n, slot, w, EIdle, {})) && n.fn == Ptr(0) && n.open
    ensures Reachable(One(b, n.(open := false), slot, w, EClose1(0, 0), {}))
  {
    var s := One(b, n, slot, w, EIdle, {});
    var n' := n.(open := false);
    ReachableStep(s, Loop(Close(0)));
    assert WithConn(s, 0, n') == One(b, n', slot, w, EIdle, {});
    assert Step(s, Loop(Close(0))) == WithConn(s, 0, n').(e := EClose1(0, 0));
  }

  /** The worker has written the token "a" into the empty ring. */
  lemma TokenWritten() returns (b: Job, n: Conn)
    ensures b == NewJob(0, true, 2, false).(phase := Picked, state := Running, ring := ["a"], given := ["a"])
    ensures n == FREE.(fn := Ptr(0), requests := 1)
    ensures Reachable(One(b, n, Ptr(0), WWrote(0, 1, true), EIdle, {}))
  {
    var slot, w, f;
    b, n := Started(true, 2);
    b, n, slot, w, f := ByWorker(b, n, Ptr(0), WStart(0), EIdle, {}, Go);
    b, n, slot, w, f := ByWorker(b, n, slot, w, EIdle, f, Token("a"));
    b, n, slot, w, f := ByWorker(b, n, slot, w, EIdle, f, Go);
  }

  /** It has announced it, too. */
  lemma TokenAnnounced() returns (b: Job, n: Conn)
    ensures b == NewJob(0, true, 2, false).(phase := Picked, state := Running, ring := ["a"], given := ["a"])
    ensures n == FREE.(fn := Ptr(0), requests := 1, pending := 1)
    ensures Reachable(One(b, n, Ptr(0), WTok(0, 0), EIdle, {}))
  {
    var slot, w, f;
    b, n := TokenWritten();
    b, n, slot, w, f := ByWorker(b, n, Ptr(0), WWrote(0, 1, true), EIdle, {}, Go);
    assert w == WPost(0, 1);
    b, n, slot, w, f := ByWorker(b, n, Ptr(0), WPost(0, 1), EIdle, {}, Go);
  }

  /** The event loop has taken "a" out of the ring, seen it empty and not done. */
  lemma TokenSent() returns (b: Job, n: Conn)
    ensures b.given == ["a"] && b.ring == [] && b.framed == ["a"] && b.stream && b.limit == 2
    ensures b.conn == 0 && b.frees == 0 && b.answers == 0 && !b.cancel && b.mgr && b.phase == Picked
    ensures b.state == Running && b.seen == 1
    ensures n == FREE.(fn := Ptr(0), requests := 1)
    ensures Reachable(One(b, n, Ptr(0), WTok(0, 0), EState(0, 0, false), {}))
  {
    b, n := TokenAnnounced();
    ByWakeup(b, n, Ptr(0), WTok(0, 0), {});
    n := n.(pending := 0);
    var e;
    b, n, e := ByLoop(b, n, Ptr(0), WTok(0, 0), EDrain(0, 0, 0), {});
    b, n, e := ByLoop(b, n, Ptr(0), WTok(0, 0), e, {});
    b, n, e := ByLoop(b, n, Ptr(0), WTok(0, 0), e, {});
  }

  /** Meanwhile the worker writes "b" and publishes the outcome. */
  lemma TokenLate() returns (b: Job, n: Conn)
    ensures b.given == ["a", "b"] && b.framed == ["a"] && b.seen == 1 && b.stream
    ensures b.frees == 0 && b.answers == 0 && b.state == Done
    ensures Reachable(One(b, n, Ptr(0), WLog(0), EState(0, 0, false), {}))
  {
    var slot, w, f;
    var e := EState(0, 0, false);
    b, n := TokenSent();
    b, n, w := AnotherToken(b, n, e, "b");
    b, n, slot, w, f := Publish(b, n, Ptr(0), w, e, {});
  }

  lemma AnotherToken(b: Job, n: Conn, e: LoopPc, text: Text) returns (b': Job, n': Conn, w': WorkerPc)
    requires Reachable(One(b, n, Ptr(0), WTok(0, 0), e, {})) && b.conn == 0 && b.frees == 0
    requires b.ring == [] && !b.cancel && b.mgr && |b.given| < b.limit
    ensures b' == b.(ring := [Cut(text)], given := b.given + [text]) && w' == WPost(0, 1)
    ensures Reachable(One(b', n', Ptr(0), w', e, {}))
  {
    var slot, f;
    b', n', slot, w', f := ByWorker(b, n, Ptr(0), WTok(0, 0), e, {}, Token(text));
    b', n', slot, w', f := ByWorker(b', n', slot, w', e, f, Go);
    b', n', slot, w', f := ByWorker(b', n', slot, w', e, f, Go);
  }

  /** The wakeup is posted, the generation loop ends, the ring is marked as done, the state is stored. */
  lemma Publish(b: Job, n: Conn, slot: JobRef, w: WorkerPc, e: LoopPc, f: set<JobId>)
    returns (b': Job, n': Conn, slot': JobRef, w': WorkerPc, f': set<JobId>)
    requires Reachable(One(b, n, slot, w, e, f)) && b.conn == 0
    requires w == WPost(0, 1) && b.mgr
    ensures b' == b.(done := true, state := Done) && slot' == slot && w' == WLog(0)
    ensures f' == if b.frees > 0 then f + {0} else f
    ensures Reachable(One(b', n', slot', w', e, f'))
  {
    b', n', slot', w', f' := Posted(b, n, slot, w, e, f);
    b', n', slot', w', f' := ByWorker(b', n', slot', w', e, f', Go);
    b', n', slot', w', f' := ByWorker(b', n', slot', w', e, f', Go);
  }

  lemma Posted(b: Job, n: Conn, slot: JobRef, w: WorkerPc, e: LoopPc, f: set<JobId>)
    returns (b': Job, n': Conn, slot': JobRef, w': WorkerPc, f': set<JobId>)
    requires Reachable(One(b, n, slot, w, e, f)) && b.conn == 0
    requires w == WPost(0, 1) && b.mgr
    ensures b' == b && slot' == slot && w' == WEnd(0, true)
    ensures f' == if b.frees > 0 then f + {0} else f
    ensures Reachable(One(b', n', slot', w', e, f'))
  {
    b', n', slot', w', f' := ByWorker(b, n, slot, w, e, f, Go);
    b', n', slot', w', f' := ByWorker(b', n', slot', w', e, f', Stop(true));
  }

  /** Finalising on the job state can skip a token: the ring is seen empty, the
      worker then writes and publishes, and the event loop reads the state. */
  lemma TokenSkipped()
    ensures exists s :: Reachable(s) && 0 in s.jobs && s.jobs[0].answers == 1
                        && s.jobs[0].given == ["a", "b"] && s.jobs[0].framed == ["a"]
  {
    var e;
    var b, n := TokenLate();
    b, n, e := ByLoop(b, n, Ptr(0), WLog(0), EState(0, 0, false), {});
    b, n, e := ByLoop(b, n, Ptr(0), WLog(0), e, {});
    assert 0 in One(b, n, Ptr(0), WLog(0), e, {}).jobs;
  }

  /** The generation loop has ended, and the ring is marked as done. */
  lemma Ended() returns (b: Job, n: Conn)
    ensures b.conn == 0 && b.frees == 0 && b.stream && b.done && b.ring == ["a"]
    ensures n == FREE.(fn := Ptr(0), requests := 1, pending := 1)
    ensures Reachable(One(b, n, Ptr(0), WPub(0, true), EIdle, {}))
  {
    var slot, w, f;
    b, n := TokenAnnounced();
    b, n, slot, w, f := ByWorker(b, n, Ptr(0), WTok(0, 0), EIdle, {}, Stop(true));
    b, n, slot, w, f := ByWorker(b, n, slot, w, EIdle, f, Go);
  }

  /** The event loop takes the last token and sends it. */
  lemma LastSent(b: Job, n: Conn, w: WorkerPc) returns (b': Job)
    requires Reachable(One(b, n, Ptr(0), w, EIdle, {})) && b.frees == 0 && b.stream && b.done && b.conn == 0
    requires n.fn == Ptr(0) && n.open && n.pending == 1 && b.ring == ["a"]
    ensures b'.frees == 0 && b'.stream && b'.done && b'.conn == 0 && b'.ring == []
    ensures Reachable(One(b', n.(pending := 0), Ptr(0), w, EDone(0, 0), {}))
  {
    ByWakeup(b, n, Ptr(0), w, {});
    var n', e;
    b', n', e := ByLoop(b, n.(pending := 0), Ptr(0), w, EDrain(0, 0, 0), {});
    b', n', e := ByLoop(b', n', Ptr(0), w, e, {});
  }

  lemma FinalisedAtOnce(b: Job, n: Conn, w: WorkerPc) returns (b': Job, n': Conn)
    requires Reachable(One(b, n, Ptr(0), w, EDone(0, 0), {}))
    requires b.frees == 0 && b.stream && b.done && b.conn == 0 && b.ring == []
    ensures b'.frees == 1 && b'.stream && b'.conn == 0
    ensures Reachable(One(b', n', Ptr(0), w, EIdle, {}))
  {
    var e;
    b', n', e := ByLoop(b, n, Ptr(0), w, EDone(0, 0), {});
    b', n', e := ByLoop(b', n', Ptr(0), w, e, {});
    b', n', e := ByLoop(b', n', Ptr(0), w, e, {});
  }

  /** A streaming job can be accessed after it was freed: an earlier wakeup lets the
      event loop finalise it as soon as its ring is marked as done. */
  lemma StreamUsedAfterFree()
    ensures exists s :: Reachable(s) && s.faults == {0} && 0 in s.jobs && s.jobs[0].stream
  {
    var slot, w, f;
    var b, n := Ended();
    b := LastSent(b, n, WPub(0, true));
    b, n := FinalisedAtOnce(b, n.(pending := 0), WPub(0, true));
    b, n, slot, w, f := ByWorker(b, n, Ptr(0), WPub(0, true), EIdle, {}, Go);
    assert 0 in One(b, n, slot, w, EIdle, f).jobs;
  }

  /** A non-streaming job in the generation loop. */
  lemma Collecting() returns (b: Job, n: Conn)
    ensures b == NewJob(0, false, 2, false).(phase := Picked, state := Running)
    ensures n == FREE.(fn := Ptr(0), requests := 1)
    ensures Reachable(One(b, n, Ptr(0), WAcc(0), EIdle, {}))
  {
    var slot, w, f;
    b, n := Started(false, 2);
    b, n, slot, w, f := ByWorker(b, n, Ptr(0), WStart(0), EIdle, {}, Go);
  }

  /** A non-streaming job whose outcome was just published. */
  lemma Published() returns (b: Job, n: Conn)
    ensures b.conn == 0 && b.frees == 0 && b.answers == 0 && !b.stream && b.state == Done && !b.orphaned
    ensures b.mgr && !b.spared && b.phase == Picked
    ensures n == FREE.(fn := Ptr(0), requests := 1)
    ensures Reachable(One(b, n, Ptr(0), WLog(0), EIdle, {}))
  {
    var slot, w, f;
    b, n := Collecting();
    b, n, slot, w, f := ByWorker(b, n, Ptr(0), WAcc(0), EIdle, {}, Stop(true));
    b, n, slot, w, f := ByWorker(b, n, Ptr(0), WPub(0, true), EIdle, {}, Go);
  }

  /** The worker has cleared the slot. */
  lemma Cleared() returns (b: Job, n: Conn)
    ensures b.conn == 0 && b.frees == 0 && b.phase == Picked && !b.orphaned && n.fn == Ptr(0) && n.open
    ensures Reachable(One(b, n, Null, WTest(0), EIdle, {}))
  {
    var slot, w, f;
    b, n := Published();
    b, n, slot, w, f := ByWorker(b, n, Ptr(0), WLog(0), EIdle, {}, Go);
    b, n, slot, w, f := ByWorker(b, n, slot, w, EIdle, f, Go);
  }

  /** It has found the job not orphaned. */
  lemma Spared() returns (b: Job, n: Conn)
    ensures b.conn == 0 && b.frees == 0 && b.phase == Picked && n.fn == Ptr(0) && n.open
    ensures Reachable(One(b, n, Null, WMgr(0), EIdle, {}))
  {
    var slot, w, f;
    b, n := Cleared();
    b, n, slot, w, f := ByWorker(b, n, Null, WTest(0), EIdle, {}, Go);
  }

  /** A close after the orphan test leaves a job that nobody frees. */
  lemma JobLeaked()
    ensures exists s :: Reachable(s) && Stranded(s, 0) && s.w.WTop? && s.jobs[0].phase == Retired
  {
    var slot, w, f;
    var b, n := Spared();
    b, n := ByClose(b, n, Null, WMgr(0));
    b, n, slot, w, f := ByWorker(b, n, Null, WMgr(0), EIdle, {}, Go);
    assert Stranded(One(b, n, slot, w, EIdle, f), 0);
  }

  /** The slot is empty, the event loop is idle, and the job is leaked. */
  predicate Stranded(s: State, j: JobId) {
    && s.e.EIdle? && s.slot.Null?
    && j in s.jobs && s.jobs[j].conn in s.conns && Leaked(j, s.jobs[j], s.conns[s.jobs[j].conn])
    && forall c :: c in s.conns ==> s.conns[c].fn != Ptr(j)
  }

  /** A request on the second connection can be accepted between the publication
      of an outcome and the clearing of the slot; its job is then lost. */
  lemma JobLost()
    ensures exists s :: Reachable(s) && Wiped(s)
  {
    var b, n := Published();
    var s := One(b, n, Ptr(0), WLog(0), EIdle, {});
    ReachableStep(s, Loop(Request(1, false, 2)));
    AskStep(s, 1, false, 2);
    var s1 := Step(s, Loop(Request(1, false, 2)));
    ReachableStep(s1, Loop(Go));
    var s2 := Step(s1, Loop(Go));
    assert s2 == s1.(e := EMake(1, false, 2));
    ReachableStep(s2, Loop(Accept(1)));
    WipedAfter(s2, Step(s2, Loop(Accept(1))));
  }

  /** Job 1 is stored on its connection, but the slot no longer holds it. */
  predicate Wiped(s: State) {
    && s.e.EIdle? && s.slot.Null? && 1 in s.jobs && s.jobs[1].lost && s.jobs[1].frees == 0
    && 1 in s.conns && s.conns[1].open && s.conns[1].fn == Ptr(1)
  }

  lemma WipedAfter(s: State, s': State)
    requires s.e == EMake(1, false, 2) && LoopEnabled(s, Accept(1)) && s' == LoopStep(s, Accept(1))
    requires s.slot == Ptr(0) && s.w == WLog(0) && s.running
    requires 0 in s.jobs && s.jobs[0].conn == 0 && s.jobs[0].state == Done
    requires 0 in s.conns && 1 in s.conns && s.conns[1].open && Reachable(s')
    ensures exists t :: Reachable(t) && Wiped(t)
  {
    SubmitBare(s, Accept(1));
    assert Displaced(s', WLog(0), Ptr(1));
    var t := DisplacedStep(s', Ptr(1));
    t := DisplacedStep(t, Ptr(1));
    assert Wiped(t);
  }

  /** Job 1 was accepted over job 0, which the worker is about to clear. */
  predicate Displaced(s: State, w: WorkerPc, slot: JobRef) {
    && s.w == w && s.slot == slot && s.running && s.e.EIdle?
    && 0 in s.jobs && s.jobs[0].conn == 0 && 0 in s.conns
    && 1 in s.jobs && s.jobs[1].lost && s.jobs[1].frees == 0
    && 1 in s.conns && s.conns[1].open && s.conns[1].fn == Ptr(1)
  }

  lemma DisplacedStep(s: State, slot: JobRef) returns (s': State)
    requires Reachable(s) && (Displaced(s, WLog(0), slot) || Displaced(s, WClear(0), slot))
    ensures Reachable(s')
    ensures Displaced(s', WorkerNext(s.w, s.jobs[0], Go), if s.w.WClear? then Null else slot)
  {
    assert WorkerEnabled(s, Go);
    s' := WorkerStep(s, Go);
    WorkerChanges(s, Go);
    ReachableStep(s, Worker(Go));
  }

  /** When the client of such a job disconnects, the job is leaked: no worker will ever
      make the orphan test for it. */
  lemma LostJobLeaked()
    ensures exists s :: Reachable(s) && Abandoned(s)
  {
    JobLost();
    var s :| Reachable(s) && Wiped(s);
    ReachableStep(s, Loop(Close(1)));
    var s1 := Step(s, Loop(Close(1)));
    assert s1 == s.(conns := s.conns[1 := s.conns[1].(open := false)], e := EClose1(1, 1));
    ClosedFrom(s1);
  }

  /** Nobody holds job 1, it was not freed, and no worker has tested it. */
  predicate Abandoned(s: State) {
    Stranded(s, 1) && s.jobs[1].lost && s.jobs[1].orphaned && !s.jobs[1].spared
  }

  lemma ClosedFrom(s: State)
    requires Reachable(s) && s.e == EClose1(1, 1) && s.slot.Null?
    requires 1 in s.jobs && s.jobs[1].lost && s.jobs[1].frees == 0 && 1 in s.conns
    ensures exists t :: Reachable(t) && Abandoned(t)
  {
    var s1 := ClosingStep(s);
    assert s1.e == EClose2(1, 1);
    var s2 := ClosingStep(s1);
    assert s2.e == EClose3(1, 1);
    var s3 := ClosingStep(s2);
    assert s3.e == EIdle && s3.jobs[1].orphaned;
    Unattached(s3);
    assert Abandoned(s3);
  }

  /** A lost job that is orphaned is on no connection. */
  lemma Unattached(s: State)
    requires Reachable(s) && 1 in s.jobs && s.jobs[1].lost && s.jobs[1].orphaned
    ensures s.jobs[1].conn in s.conns
    ensures !s.jobs[1].spared && forall c :: c in s.conns ==> s.conns[c].fn != Ptr(1)
  {
    ReachableInv(s);
    assert JobInv(s, 1);
    forall c | c in s.conns ensures s.conns[c].fn != Ptr(1) {
      assert ConnInv(s, c);
    }
  }

  lemma ClosingStep(s: State) returns (s': State)
    requires Reachable(s) && EClosing(s.e) == Ptr(1) && s.e.c == 1 && s.slot.Null?
    requires 1 in s.jobs && s.jobs[1].lost && s.jobs[1].frees == 0 && 1 in s.conns
    ensures Reachable(s') && s'.slot.Null? && 1 in s'.jobs && 1 in s'.conns
    ensures s'.e == LoopNext(s.e, s.jobs[1])
    ensures s'.jobs[1] == LoopJob(s.e, s.jobs[1]) && s'.jobs[1].lost && s'.jobs[1].frees == 0
    ensures s'.conns[1] == LoopConn(s.e, s.conns[1])
  {
    assert LoopEnabled(s, Go);
    s' := LoopStep(s, Go);
    LoopChanges(s);
    assert Step(s, Loop(Go)) == s';
    ReachableStep(s, Loop(Go));
    ClosingChange(s, s');
  }

  lemma ClosingChange(s: State, s': State)
    requires EClosing(s.e) == Ptr(1) && LoopChange(s, s', 1, 1) && s.jobs[1].lost && s.jobs[1].frees == 0
    ensures 1 in s'.jobs && s'.jobs[1] == LoopJob(s.e, s.jobs[1]) && s'.jobs[1].lost && s'.jobs[1].frees == 0
    ensures 1 in s'.conns && s'.conns[1] == LoopConn(s.e, s.conns[1])
  {
    ClosingFrees(s.jobs[1], s.e);
  }

  lemma ClosingFrees(b: Job, e: LoopPc)
    requires EClosing(e).Ptr?
    ensures LoopJob(e, b).frees == b.frees
  {
    match e
    case EClose1(_, _) => assert LoopJob(e, b) == b.(cancel := true);
    case EClose2(_, _) => assert LoopJob(e, b) == b.(mgr := false);
    case EClose3(_, _) => assert LoopJob(e, b) == b.(orphaned := true);
  }

  // ----- the unlocked look -----

  /** The admission check has read the slot, which held job 0; its client has left. */
  predicate Watching(s: State) {
    && s.e == ELook(1, false, 2, 0) && !s.shutdown && 0 in s.jobs && s.jobs[0].conn in s.conns
    && s.jobs[0].orphaned && !s.jobs[0].spared && !s.jobs[0].stream && s.jobs[0].frees == 0
    && !Busy(s.jobs[0].state) && 1 in s.conns && s.looks == {}
  }

  /** The worker then frees the job, and the check loads its state. */
  lemma LookedAtFreed()
    ensures exists s :: Reachable(s) && 0 in s.looks && 0 in s.jobs && !s.jobs[0].stream && s.jobs[0].frees == 1
  {
    var b, n := Published();
    b, n := ByClose(b, n, Ptr(0), WLog(0));
    var s := WatchBegins(One(b, n, Ptr(0), WLog(0), EIdle, {}), b, n);
    s := WatchedStep(s);
    s := WatchedStep(s);
    s := WatchedStep(s);
    FreedAndLooked(s);
  }

  lemma WatchBegins(s0: State, b: Job, n: Conn) returns (s: State)
    requires Reachable(s0) && s0 == One(b, n, Ptr(0), WLog(0), EIdle, {}) && b.conn == 0 && b.state == Done
    requires b.orphaned && !b.spared && !b.stream && b.frees == 0
    ensures Reachable(s) && Watching(s) && s.w == WLog(0)
  {
    ReachableStep(s0, Loop(Request(1, false, 2)));
    AskStep(s0, 1, false, 2);
    s := Step(s0, Loop(Request(1, false, 2)));
  }

  lemma WatchedStep(s: State) returns (s': State)
    requires Reachable(s) && Watching(s) && (s.w == WLog(0) || s.w == WClear(0) || s.w == WTest(0))
    ensures Reachable(s') && Watching(s') && s'.w == WorkerNext(s.w, s.jobs[0], Go)
  {
    ReachableStep(s, Worker(Go));
    WorkerChanges(s, Go);
    s' := Step(s, Worker(Go));
  }

  lemma FreedAndLooked(s: State)
    requires Reachable(s) && Watching(s) && s.w == WFree(0)
    ensures exists t :: Reachable(t) && 0 in t.looks && 0 in t.jobs && !t.jobs[0].stream && t.jobs[0].frees == 1
  {
    ReachableStep(s, Worker(Go));
    WorkerChanges(s, Go);
    var s1 := Step(s, Worker(Go));
    assert s1.jobs[0].frees == 1 && s1.e == s.e;
    ReachableStep(s1, Loop(Go));
    LookStep(s1);
  }

  // ----- the manager that is gone -----

  /** A close between the worker's two loads of the manager lets it ask a null manager. */
  lemma NullAsked()
    ensures exists s :: Reachable(s) && 0 in s.jobs && s.jobs[0].unposted
  {
    var slot, w, f;
    var b, n := TokenWritten();
    b, n, slot, w, f := ByWorker(b, n, Ptr(0), WWrote(0, 1, true), EIdle, {}, Go);
    assert w == WPost(0, 1);
    b, n := ByClose(b, n, Ptr(0), WPost(0, 1));
    b, n, slot, w, f := ByWorker(b, n, Ptr(0), WPost(0, 1), EIdle, {}, Go);
    assert 0 in One(b, n, slot, w, EIdle, f).jobs;
  }

  // ----- a failure -----

  /** The generation loop of a job fails, and the worker publishes that. */
  lemma Failed() returns (b: Job, n: Conn)
    ensures b == NewJob(0, false, 2, false).(phase := Picked, state := Error)
    ensures n == FREE.(fn := Ptr(0), requests := 1)
    ensures Reachable(One(b, n, Ptr(0), WLog(0), EIdle, {}))
  {
    var slot, w, f;
    b, n := Collecting();
    b, n, slot, w, f := ByWorker(b, n, Ptr(0), WAcc(0), EIdle, {}, Stop(false));
    b, n, slot, w, f := ByWorker(b, n, Ptr(0), WPub(0, false), EIdle, {}, Go);
  }

  /** It clears the slot. */
  lemma FailedCleared() returns (b: Job, n: Conn)
    ensures b == NewJob(0, false, 2, false).(phase := Picked, state := Error)
    ensures n == FREE.(fn := Ptr(0), requests := 1)
    ensures Reachable(One(b, n, Null, WTest(0), EIdle, {}))
  {
    var slot, w, f;
    b, n := Failed();
    b, n, slot, w, f := ByWorker(b, n, Ptr(0), WLog(0), EIdle, {}, Go);
    b, n, slot, w, f := ByWorker(b, n, Ptr(0), WClear(0), EIdle, {}, Go);
  }

  /** It posts the last wakeup. */
  lemma FailedAnnounced() returns (b: Job, n: Conn)
    ensures b == NewJob(0, false, 2, false).(phase := Retired, state := Error, spared := true)
    ensures n == FREE.(fn := Ptr(0), requests := 1, pending := 1)
    ensures Reachable(One(b, n, Null, WTop, EIdle, {}))
  {
    var slot, w, f;
    b, n := FailedCleared();
    b, n, slot, w, f := ByWorker(b, n, Null, WTest(0), EIdle, {}, Go);
    b, n, slot, w, f := ByWorker(b, n, Null, WMgr(0), EIdle, {}, Go);
    b, n, slot, w, f := ByWorker(b, n, Null, WLast(0), EIdle, {}, Go);
  }

  /** And the client gets the error. */
  lemma FailureSent()
    ensures exists s :: Reachable(s) && 0 in s.jobs && s.jobs[0].answers == 1 && s.jobs[0].out == [Failure]
  {
    var e;
    var b, n := FailedAnnounced();
    ByWakeup(b, n, Null, WTop, {});
    b, n, e := ByLoop(b, n.(pending := 0), Null, WTop, EPeek(0, 0), {});
    b, n, e := ByLoop(b, n, Null, WTop, EReply(0, 0), {});
    assert 0 in One(b, n, Null, WTop, e, {}).jobs;
  }
}
