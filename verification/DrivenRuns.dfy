/**
 Every course of the generation loop can be carried out by the protocol: for all oracles
 there is a run that streams what the loop delivers, and one that replies with it. The runs
 concern job 0 of connection 0.
 */
module DrivenRuns {
  import opened Basics
  import opened Generation
  import opened Protocol
  import opened ProtocolInvariant
  import opened ProtocolTraces
  import opened ProtocolOutcome
  import opened Driven

  /** What the generation loop of the job is run with. */
  datatype Plan = Plan(w: World, cb: Callback, maxGen: nat)

  /** A state that some run reaches in which job 0 gets its tokens as planned. */
  ghost predicate Guided(s: State, p: Plan) {
    exists run :: IsRun(run) && run[|run| - 1] == s && DrivenBy(run, 0, p.w, p.cb, p.maxGen)
  }

  lemma GuidedStep(s: State, a: Action, p: Plan)
    requires Guided(s, p) && 0 in s.jobs && Enabled(s, a)
    ensures Obeys(s, Step(s, a), 0, p.w, p.cb, p.maxGen) ==> Guided(Step(s, a), p)
  {
    var run :| IsRun(run) && run[|run| - 1] == s && DrivenBy(run, 0, p.w, p.cb, p.maxGen);
    LongerRun(run, a);
    if Obeys(s, Step(s, a), 0, p.w, p.cb, p.maxGen) {
      LongerDriven(run, Step(s, a), p);
      assert (run + [Step(s, a)])[|run|] == Step(s, a);
    }
  }

  lemma LongerDriven(run: seq<State>, s': State, p: Plan)
    requires run != [] && 0 in run[|run| - 1].jobs && DrivenBy(run, 0, p.w, p.cb, p.maxGen)
    requires Obeys(run[|run| - 1], s', 0, p.w, p.cb, p.maxGen)
    ensures DrivenBy(run + [s'], 0, p.w, p.cb, p.maxGen)
  {
    var longer := run + [s'];
    forall i | 0 <= i < |longer| - 1 && 0 in longer[i].jobs
      ensures Obeys(longer[i], longer[i + 1], 0, p.w, p.cb, p.maxGen)
    {
      if i < |run| - 1 {
        assert Obeys(run[i], run[i + 1], 0, p.w, p.cb, p.maxGen);
      }
    }
  }

  /** As long as the worker has not gone further than taking it, a job follows any plan. */
  lemma Unbegun(s: State, p: Plan)
    requires Reachable(s) && 0 in s.jobs && s.jobs[0].given == [] && Open(s, 0)
    ensures Guided(s, p)
  {
    var run: seq<State> :| IsRun(run) && run[|run| - 1] == s;
    forall i | 0 <= i < |run| - 1 && 0 in run[i].jobs
      ensures Obeys(run[i], run[i + 1], 0, p.w, p.cb, p.maxGen)
    {
      UnbegunObeys(run, i, p);
    }
  }

  lemma UnbegunObeys(run: seq<State>, i: nat, p: Plan)
    requires IsRun(run) && i < |run| - 1 && 0 in run[i].jobs
    requires var s: State := run[|run| - 1]; 0 in s.jobs && s.jobs[0].given == [] && Open(s, 0)
    ensures Obeys(run[i], run[i + 1], 0, p.w, p.cb, p.maxGen)
  {
    UnbegunBefore(run, i + 1);
    RunGrows(run, i);
    NothingGiven(run[i], run[i + 1], p);
  }

  lemma NothingGiven(s: State, s': State, p: Plan)
    requires 0 in s.jobs && Grows(s, s', 0) && s'.jobs[0].given == [] && Open(s', 0)
    ensures Obeys(s, s', 0, p.w, p.cb, p.maxGen)
  {
  }

  lemma RunGrows(run: seq<State>, i: nat)
    requires IsRun(run) && i < |run| - 1 && 0 in run[i].jobs
    ensures Grows(run[i], run[i + 1], 0)
  {
    RunInv(run, i);
    assert Follows(run, i);
    var a :| Enabled(run[i], a) && run[i + 1] == Step(run[i], a);
    StepGrows(run[i], a, 0);
  }

  lemma {:induction false} UnbegunBefore(run: seq<State>, i: nat)
    requires IsRun(run) && i < |run|
    requires var s: State := run[|run| - 1]; 0 in s.jobs && s.jobs[0].given == [] && Open(s, 0)
    ensures 0 in run[i].jobs ==> run[i].jobs[0].given == [] && Open(run[i], 0)
    decreases |run| - i
  {
    if i < |run| - 1 && 0 in run[i].jobs {
      RunGrows(run, i);
      UnbegunBefore(run, i + 1);
    }
  }

  // ----- single steps -----

  /** What the worker's next step asks of the plan. */
  predicate Planned(w: WorkerPc, b: Job, ch: Choice, p: Plan) {
    var n := |b.given|;
    && (w.WChk? && ch.Go? ==> !Over(p.w, p.cb, p.maxGen, n) && w.text == CString(p.w.piece(n)))
    && (w.WAcc? && ch.Token? ==> !Over(p.w, p.cb, p.maxGen, n) && ch.text == CString(p.w.piece(n)))
    && (InLoop(w) && ch.Stop? ==> Over(p.w, p.cb, p.maxGen, n) && ch.ok)
  }

  /** A step of the worker on job 0. */
  lemma Works(b: Job, n: Conn, slot: JobRef, w: WorkerPc, ch: Choice, p: Plan)
    returns (b': Job, n': Conn, w': WorkerPc)
    requires Guided(One(b, n, slot, w, EIdle, {}), p) && b.conn == 0 && b.frees == 0 && b.phase == Picked
    requires WJob(w) == Ptr(0) && Choosable(w, b, false, ch) && Planned(w, b, ch, p)
    ensures b' == WorkerJob(w, b, ch) && n' == WorkerConn(w, b, n) && w' == WorkerNext(w, b, ch)
    ensures Guided(One(b', n', if w.WClear? then Null else slot, w', EIdle, {}), p)
  {
    b', n', w' := WorkerJob(w, b, ch), WorkerConn(w, b, n), WorkerNext(w, b, ch);
    var s := One(b, n, slot, w, EIdle, {});
    var s' := WorkerStep(s, ch);
    WorkerChanges(s, ch);
    ChangeIsOne(s, s', b, n, slot, w, EIdle, {}, ch);
    WorksAsPlanned(s, s', ch, p);
    GuidedStep(s, Worker(ch), p);
  }

  lemma WorksAsPlanned(s: State, s': State, ch: Choice, p: Plan)
    requires WorkerChange(s, s', 0, ch) && s.jobs[0].phase == Picked && Planned(s.w, s.jobs[0], ch, p)
    ensures Obeys(s, s', 0, p.w, p.cb, p.maxGen)
  {
    Gives(s.w, s.jobs[0], ch, p);
    Leaves(s.w, s.jobs[0], ch, p);
    assert s'.jobs[0].phase == Retired || s'.jobs[0].phase == Picked;
    Abides(s, s', s.jobs[0], WorkerJob(s.w, s.jobs[0], ch), p);
  }

  lemma Abides(s: State, s': State, b: Job, b': Job, p: Plan)
    requires 0 in s.jobs && s.jobs[0] == b && 0 in s'.jobs && s'.jobs[0] == b' && b.phase == Picked
    requires WJob(s.w) == Ptr(0)
    requires WJob(s'.w) == Ptr(0) || !InLoop(s.w)
    requires InLoop(s.w) && !InLoop(s'.w) ==>
      Over(p.w, p.cb, p.maxGen, |b.given|) && (s'.w.WEnd? || s'.w.WPub?) && s'.w.ok && b'.phase != Queued
    requires |b'.given| > |b.given| ==>
      !Over(p.w, p.cb, p.maxGen, |b.given|) && b'.given[|b.given|] == CString(p.w.piece(|b.given|))
    ensures Obeys(s, s', 0, p.w, p.cb, p.maxGen)
  {
  }

  lemma Leaves(w: WorkerPc, b: Job, ch: Choice, p: Plan)
    requires WJob(w).Ptr? && Offered(w, ch) && Planned(w, b, ch, p)
    ensures var w' := WorkerNext(w, b, ch);
            InLoop(w) && !InLoop(w') ==> Over(p.w, p.cb, p.maxGen, |b.given|) && (w'.WEnd? || w'.WPub?) && w'.ok
    ensures InLoop(w) ==> WJob(WorkerNext(w, b, ch)) == WJob(w)
  {
    if !ch.Stop? {
      Remains(w, b, ch);
    }
  }

  lemma Gives(w: WorkerPc, b: Job, ch: Choice, p: Plan)
    requires WJob(w).Ptr? && Offered(w, ch) && Planned(w, b, ch, p)
    ensures var (g, g') := (b.given, WorkerJob(w, b, ch).given);
            |g'| > |g| ==> !Over(p.w, p.cb, p.maxGen, |g|) && g'[|g|] == CString(p.w.piece(|g|))
  {
    if (w.WChk? && ch.Go?) || (w.WAcc? && ch.Token?) {
      assert WorkerJob(w, b, ch).given == b.given + [if w.WChk? then w.text else ch.text];
    } else {
      NoMore(w, b, ch);
    }
  }

  /** Only a stop leads out of the loop. */
  lemma Remains(w: WorkerPc, b: Job, ch: Choice)
    requires WJob(w).Ptr? && Offered(w, ch) && !ch.Stop?
    ensures InLoop(w) ==> InLoop(WorkerNext(w, b, ch))
  {
  }

  /** A step of the event loop on job 0. */
  lemma Handles(b: Job, n: Conn, slot: JobRef, w: WorkerPc, e: LoopPc, p: Plan)
    returns (b': Job, n': Conn, e': LoopPc)
    requires Guided(One(b, n, slot, w, e, {}), p) && b.frees == 0 && EJob(e) == Ptr(0) && e.c == 0
    ensures b' == LoopJob(e, b) && n' == LoopConn(e, n) && e' == LoopNext(e, b)
    ensures Guided(One(b', n', slot, w, e', {}), p)
  {
    var s := One(b, n, slot, w, e, {});
    b', n', e' := LoopJob(e, b), LoopConn(e, n), LoopNext(e, b);
    LoopIsOne(s, b, n, slot, w, e, {}, b', n', e');
    assert One(b', n', slot, w, e', {}).jobs[0].given == b.given && b'.phase == b.phase;
    GuidedStep(s, Loop(Go), p);
  }

  /** The event loop turns to the wakeup that is pending. */
  lemma Wakes(b: Job, n: Conn, slot: JobRef, w: WorkerPc, p: Plan)
    requires Guided(One(b, n, slot, w, EIdle, {}), p) && n.fn == Ptr(0) && n.open && n.pending > 0
    ensures var e := if b.stream then EDrain(0, 0, 0) else EPeek(0, 0);
            Guided(One(b, n.(pending := n.pending - 1), slot, w, e, {}), p)
  {
    var s := One(b, n, slot, w, EIdle, {});
    var n' := n.(pending := n.pending - 1);
    assert WithConn(s, 0, n') == One(b, n', slot, w, EIdle, {});
    var e := if b.stream then EDrain(0, 0, 0) else EPeek(0, 0);
    assert Step(s, Loop(Wakeup(0))) == WithConn(s, 0, n').(e := e);
    GuidedStep(s, Loop(Wakeup(0)), p);
  }

  // ----- the job while its tokens are generated -----

  const BOUND := FREE.(fn := Ptr(0), requests := 1)

  /** Job 0 when it was given its first m tokens, all of them sent if it streams. */
  function Given(p: Plan, stream: bool, m: nat): Job {
    var ts := Delivered(p.w, m);
    var b := NewJob(0, stream, p.maxGen, false).(phase := Picked, state := Running, given := ts);
    if stream then
      b.(drained := CutAll(ts), framed := CutAll(ts), seen := m, out := [Headers] + Deltas(CutAll(ts)))
    else b
  }

  /** The worker is in the loop, waiting for token m. */
  ghost predicate Ahead(p: Plan, stream: bool, m: nat) {
    Guided(One(Given(p, stream, m), BOUND, Ptr(0), if stream then WTok(0, 0) else WAcc(0), EIdle, {}), p)
  }

  lemma Begins(p: Plan, stream: bool)
    ensures Ahead(p, stream, 0)
  {
    var b, n := Started(stream, p.maxGen);
    Unbegun(One(b, n, Ptr(0), WStart(0), EIdle, {}), p);
    var w;
    b, n, w := Works(b, n, Ptr(0), WStart(0), Go, p);
    NoTokens(p, stream);
  }

  lemma NoTokens(p: Plan, stream: bool)
    ensures Given(p, stream, 0) == NewJob(0, stream, p.maxGen, false).(phase := Picked, state := Running)
  {
    assert Delivered(p.w, 0) == [] && CutAll([]) == [] && Deltas([]) == [] && [Headers] + [] == [Headers];
  }

  /** The loop delivers its tokens one after the other, and is over after the last. */
  lemma NotOver(p: Plan, k: nat, x: Exit, m: nat)
    requires EndsAt(p.w, p.cb, p.maxGen, k, x) && m <= Accepted(k, x)
    ensures Over(p.w, p.cb, p.maxGen, m) <==> m == Accepted(k, x)
    ensures m < Accepted(k, x) ==> m < p.maxGen
  {
    assert forall i :: 0 <= i < k ==> EventAt(p.w, p.cb, i) == None;
  }

  // ----- a reply -----

  lemma {:induction false} Collected(p: Plan, k: nat, x: Exit, m: nat)
    requires EndsAt(p.w, p.cb, p.maxGen, k, x) && m <= Accepted(k, x)
    ensures Ahead(p, false, m)
  {
    if m == 0 {
      Begins(p, false);
    } else {
      Collected(p, k, x, m - 1);
      NotOver(p, k, x, m - 1);
      OutputStep(p.w, m - 1);
      CollectsNext(p, m - 1);
    }
  }

  lemma CollectsNext(p: Plan, m: nat)
    requires Ahead(p, false, m) && m < p.maxGen && !Over(p.w, p.cb, p.maxGen, m)
    ensures Ahead(p, false, m + 1)
  {
    OutputStep(p.w, m);
    var (b, text) := (Given(p, false, m), CString(p.w.piece(m)));
    var b', n', w' := Works(b, BOUND, Ptr(0), WAcc(0), Token(text), p);
    CollectsThis(b, text);
    assert b' == Given(p, false, m + 1);
  }

  lemma CollectsThis(b: Job, text: Text)
    ensures WorkerJob(WAcc(0), b, Token(text)) == b.(given := b.given + [text])
  {
  }

  /** The worker leaves the loop, publishes the outcome and clears the slot. */
  lemma Cleared(b: Job, n: Conn, w: WorkerPc, p: Plan)
    requires Guided(One(b, n, Ptr(0), w, EIdle, {}), p) && w == WPub(0, true)
    requires b.conn == 0 && b.frees == 0 && b.phase == Picked
    ensures Guided(One(b.(state := Done), n, Null, WTest(0), EIdle, {}), p)
  {
    var b', n', w';
    b', n', w' := Works(b, n, Ptr(0), w, Go, p);
    b', n', w' := Works(b', n', Ptr(0), w', Go, p);
    b', n', w' := Works(b', n', Ptr(0), w', Go, p);
  }

  /** It finds the job not orphaned, and announces the outcome. */
  lemma Announced(b: Job, n: Conn, p: Plan)
    requires Guided(One(b, n, Null, WTest(0), EIdle, {}), p)
    requires b.conn == 0 && b.frees == 0 && b.phase == Picked && !b.orphaned && b.mgr && !b.unposted
    ensures Guided(One(b.(spared := true, phase := Retired), n.(pending := n.pending + 1), Null, WTop,
                       EIdle, {}), p)
  {
    var b', n', w' := Works(b, n, Null, WTest(0), Go, p);
    assert b' == b.(spared := true) && n' == n && w' == WMgr(0);
    LastWakeup(b', n, p);
  }

  lemma LastWakeup(b: Job, n: Conn, p: Plan)
    requires Guided(One(b, n, Null, WMgr(0), EIdle, {}), p)
    requires b.conn == 0 && b.frees == 0 && b.phase == Picked && b.mgr && !b.unposted
    ensures Guided(One(b.(phase := Retired), n.(pending := n.pending + 1), Null, WTop, EIdle, {}), p)
  {
    var b', n', w' := Works(b, n, Null, WMgr(0), Go, p);
    assert b' == b && n' == n && w' == WLast(0);
    b', n', w' := Works(b, n, Null, WLast(0), Go, p);
  }

  /** For every course of the loop there is a run that ends with a reply. */
  lemma ReplyExists(p: Plan, k: nat, x: Exit)
    requires EndsAt(p.w, p.cb, p.maxGen, k, x)
    ensures exists s :: Guided(s, p) && Answered(s, false, p, k, x)
  {
    var m := Accepted(k, x);
    Collected(p, k, x, m);
    NotOver(p, k, x, m);
    var b, n, w := Works(Given(p, false, m), BOUND, Ptr(0), WAcc(0), Stop(true), p);
    assert b == Given(p, false, m) && n == BOUND && w == WPub(0, true);
    b := Announces(b, p);
    b, n := Replies(b, p);
    assert Answered(One(b, n, Null, WTop, EIdle, {}), false, p, k, x);
  }

  lemma Announces(b: Job, p: Plan) returns (b': Job)
    requires Guided(One(b, BOUND, Ptr(0), WPub(0, true), EIdle, {}), p)
    requires b.conn == 0 && b.frees == 0 && b.phase == Picked && !b.orphaned && b.mgr && !b.unposted
    ensures b' == b.(state := Done, spared := true, phase := Retired)
    ensures Guided(One(b', BOUND.(pending := 1), Null, WTop, EIdle, {}), p)
  {
    Cleared(b, BOUND, WPub(0, true), p);
    b' := b.(state := Done);
    Announced(b', BOUND, p);
    b' := b'.(spared := true, phase := Retired);
  }

  lemma Replies(b: Job, p: Plan) returns (b': Job, n: Conn)
    requires Guided(One(b, BOUND.(pending := 1), Null, WTop, EIdle, {}), p)
    requires b.frees == 0 && !b.stream && b.state == Done && !b.viaDone
    ensures b'.given == b.given && !b'.stream && b'.state == Done && !b'.viaDone && b'.answers == b.answers + 1
    ensures Guided(One(b', n, Null, WTop, EIdle, {}), p)
  {
    Wakes(b, BOUND.(pending := 1), Null, WTop, p);
    var e;
    b', n, e := Handles(b, BOUND, Null, WTop, EPeek(0, 0), p);
    b', n, e := Handles(b', n, Null, WTop, e, p);
  }

  /** Job 0 was answered with all that the loop delivered. */
  predicate Answered(s: State, stream: bool, p: Plan, k: nat, x: Exit) {
    && 0 in s.jobs && s.jobs[0].stream == stream && s.jobs[0].answers > 0
    && s.jobs[0].given == Delivered(p.w, Accepted(k, x)) && s.jobs[0].viaDone == stream
    && s.jobs[0].state == Done
  }

  // ----- a stream -----

  /** The worker writes token m into the empty ring and posts a wakeup. */
  lemma Written(p: Plan, m: nat) returns (b: Job)
    requires Ahead(p, true, m) && m < p.maxGen && !Over(p.w, p.cb, p.maxGen, m)
    ensures b == WithToken(p, m)
    ensures Guided(One(b, BOUND.(pending := 1), Ptr(0), WTok(0, 0), EIdle, {}), p)
  {
    var (g, text) := (Given(p, true, m), CString(p.w.piece(m)));
    var n, w;
    b, n, w := Works(g, BOUND, Ptr(0), WTok(0, 0), Token(text), p);
    assert b == g && n == BOUND && w == WChk(0, 0, text, true);
    b, n, w := Works(g, BOUND, Ptr(0), w, Go, p);
    WritesThis(g, text);
    assert w == WWrote(0, 1, true) && n == BOUND;
    Posts(b, p);
  }

  /** Job 0 with token m in its ring, too. */
  function WithToken(p: Plan, m: nat): Job {
    var (g, text) := (Given(p, true, m), CString(p.w.piece(m)));
    g.(ring := [Cut(text)], given := g.given + [text])
  }

  lemma WritesThis(b: Job, text: Text)
    requires b.ring == []
    ensures WorkerJob(WChk(0, 0, text, true), b, Go) == b.(ring := [Cut(text)], given := b.given + [text])
  {
    assert [] + [Cut(text)] == [Cut(text)];
  }

  lemma Posts(b: Job, p: Plan)
    requires Guided(One(b, BOUND, Ptr(0), WWrote(0, 1, true), EIdle, {}), p)
    requires b.conn == 0 && b.frees == 0 && b.phase == Picked && b.mgr && !b.unposted
    ensures Guided(One(b, BOUND.(pending := 1), Ptr(0), WTok(0, 0), EIdle, {}), p)
  {
    var b', n, w := Works(b, BOUND, Ptr(0), WWrote(0, 1, true), Go, p);
    b', n, w := Works(b', n, Ptr(0), w, Go, p);
    assert b' == b;
  }

  /** The event loop takes out what is in the ring and sends it. */
  lemma Sent(b: Job, n: Conn, slot: JobRef, w: WorkerPc, p: Plan) returns (b': Job)
    requires Guided(One(b, n, slot, w, EIdle, {}), p) && n.fn == Ptr(0) && n.open && n.pending == 1
    requires b.stream && b.frees == 0 && |b.ring| <= 1
    ensures b' == b.(ring := [], drained := b.drained + b.ring, framed := b.framed + b.ring,
                     seen := |b.given|, out := b.out + Deltas(b.ring))
    ensures Guided(One(b', n.(pending := 0), slot, w, EDone(0, 0), {}), p)
  {
    Wakes(b, n, slot, w, p);
    var n', e;
    b', n', e := Handles(b, n.(pending := 0), slot, w, EDrain(0, 0, 0), p);
    assert b.ring[..|b.ring|] == b.ring;
    b', n', e := Handles(b', n', slot, w, e, p);
  }

  /** The stream is not done, and the event loop returns to its poll. */
  lemma Returns(b: Job, n: Conn, w: WorkerPc, p: Plan)
    requires Guided(One(b, n, Ptr(0), w, EDone(0, 0), {}), p) && b.frees == 0 && !b.done && b.state == Running
    ensures Guided(One(b, n, Ptr(0), w, EIdle, {}), p)
  {
    var b', n', e := Handles(b, n, Ptr(0), w, EDone(0, 0), p);
    b', n', e := Handles(b', n', Ptr(0), w, e, p);
  }

  lemma {:induction false} StreamedUpTo(p: Plan, k: nat, x: Exit, m: nat)
    requires EndsAt(p.w, p.cb, p.maxGen, k, x) && m <= Accepted(k, x)
    ensures Ahead(p, true, m)
  {
    if m == 0 {
      Begins(p, true);
    } else {
      StreamedUpTo(p, k, x, m - 1);
      NotOver(p, k, x, m - 1);
      var b := Written(p, m - 1);
      b := Sent(b, BOUND.(pending := 1), Ptr(0), WTok(0, 0), p);
      Returns(b, BOUND, WTok(0, 0), p);
      GivenNext(p, m - 1, b);
    }
  }

  lemma GivenNext(p: Plan, m: nat, b: Job)
    requires var (g, t) := (Given(p, true, m), CString(p.w.piece(m)));
             b == g.(ring := [], given := g.given + [t], drained := g.drained + [Cut(t)],
                     framed := g.framed + [Cut(t)], seen := m + 1, out := g.out + Deltas([Cut(t)]))
    ensures b == Given(p, true, m + 1)
  {
    OutputStep(p.w, m);
    var (ts, t) := (Delivered(p.w, m), CString(p.w.piece(m)));
    assert CutAll(ts + [t]) == CutAll(ts) + [Cut(t)];
    assert Deltas(CutAll(ts) + [Cut(t)]) == Deltas(CutAll(ts)) + Deltas([Cut(t)]);
  }

  /** Of a stream that is done, nothing is missing, and it is finalised. */
  lemma Finalises(b: Job, n: Conn, p: Plan) returns (b': Job, n': Conn)
    requires Guided(One(b, n, Null, WTop, EDone(0, 0), {}), p) && b.frees == 0 && b.done && b.ring == []
    ensures b'.given == b.given && b'.stream == b.stream && b'.state == b.state
    ensures b'.answers == b.answers + 1 && b'.viaDone
    ensures Guided(One(b', n', Null, WTop, EIdle, {}), p)
  {
    var e;
    b', n', e := Handles(b, n, Null, WTop, EDone(0, 0), p);
    b', n', e := Handles(b', n', Null, WTop, e, p);
    b', n', e := Handles(b', n', Null, WTop, e, p);
  }

  /** For every course of the loop there is a run that streams it to the end. */
  lemma StreamExists(p: Plan, k: nat, x: Exit)
    requires EndsAt(p.w, p.cb, p.maxGen, k, x)
    ensures exists s :: Guided(s, p) && Answered(s, true, p, k, x)
  {
    var m := Accepted(k, x);
    StreamedUpTo(p, k, x, m);
    NotOver(p, k, x, m);
    var b := Given(p, true, m);
    Marks(b, p);
    b := Announces(b.(done := true), p);
    b := Sent(b, BOUND.(pending := 1), Null, WTop, p);
    var n;
    b, n := Finalises(b, BOUND, p);
    assert Answered(One(b, n, Null, WTop, EIdle, {}), true, p, k, x);
  }

  /** The worker leaves the loop and marks the ring as done. */
  lemma Marks(b: Job, p: Plan)
    requires Guided(One(b, BOUND, Ptr(0), WTok(0, 0), EIdle, {}), p)
    requires b.conn == 0 && b.frees == 0 && b.phase == Picked && Over(p.w, p.cb, p.maxGen, |b.given|)
    ensures Guided(One(b.(done := true), BOUND, Ptr(0), WPub(0, true), EIdle, {}), p)
  {
    var b', n, w := Works(b, BOUND, Ptr(0), WTok(0, 0), Stop(true), p);
    b', n, w := Works(b', n, Ptr(0), w, Go, p);
  }
}
