/**
 The result with which the generation loop of a job ends, and what becomes of it: the
 worker publishes it as the state of the job, and the client is answered accordingly.
 */
module ProtocolOutcome {
  import opened Basics
  import opened Protocol
  import opened ProtocolInvariant
  import opened ProtocolTheorems
  import opened ProtocolProgress

  /** In step i of the run the generation loop of job j ends, and returns 0 iff ok. */
  ghost predicate Returns(run: seq<State>, i: nat, j: JobId, ok: bool) {
    && i + 1 < |run|
    && (run[i].w.WTok? || run[i].w.WChk? || run[i].w.WAcc?) && run[i].w.j == j
    && WorkerEnabled(run[i], Stop(ok)) && run[i + 1] == WorkerStep(run[i], Stop(ok))
  }

  /** The result ok is on its way to be published, or it is published. */
  predicate Carries(s: State, j: JobId, ok: bool) {
    && j in s.jobs && s.jobs[j].phase != Queued
    && if WJob(s.w) == Ptr(j) && Generating(s.w) then (s.w.WEnd? || s.w.WPub?) && s.w.ok == ok
       else s.jobs[j].state == if ok then Done else Error
  }

  lemma CarriesWorker(s: State, s': State, k: JobId, ch: Choice, j: JobId, ok: bool)
    requires JobsInv(s) && WorkerChange(s, s', k, ch) && Carries(s, j, ok)
    ensures Carries(s', j, ok)
  {
    NextFacts(s.w, s.jobs[k], s.shutdown, ch);
    if k == j {
      CarriesOn(s.w, s.jobs[j], ch, ok);
      assert s'.jobs[j] == WorkerJob(s.w, s.jobs[j], ch);
    }
  }

  /** Between the end of the loop and the next job, the worker publishes the result. */
  lemma CarriesOn(w: WorkerPc, b: Job, ch: Choice, ok: bool)
    requires WJob(w).Ptr? && b.phase != Queued
    requires if Generating(w) then (w.WEnd? || w.WPub?) && w.ok == ok
             else b.state == if ok then Done else Error
    ensures var (b', w') := (WorkerJob(w, b, ch), WorkerNext(w, b, ch));
            && b'.phase != Queued
            && if Generating(w') then (w'.WEnd? || w'.WPub?) && w'.ok == ok
               else b'.state == if ok then Done else Error
  {
    if w.WPub? {
      Publishes(w, b, ch);
    } else if w.WEnd? {
      assert WorkerNext(w, b, ch) == WPub(w.j, w.ok);
    } else {
      NeverBack(w, b, ch);
    }
  }

  lemma Publishes(w: WorkerPc, b: Job, ch: Choice)
    requires w.WPub?
    ensures WorkerJob(w, b, ch) == b.(state := if w.ok then Done else Error)
    ensures WorkerNext(w, b, ch) == WLog(w.j)
  {
  }

  lemma NeverBack(w: WorkerPc, b: Job, ch: Choice)
    requires WJob(w).Ptr? && !Generating(w)
    ensures !Generating(WorkerNext(w, b, ch)) && WorkerJob(w, b, ch).state == b.state
  {
  }

  lemma CarriesTop(s: State, ch: Choice, j: JobId, ok: bool)
    requires Inv(s) && s.w.WTop? && WorkerEnabled(s, ch) && Carries(s, j, ok)
    ensures Carries(WorkerStep(s, ch), j, ok)
  {
    if s.running {
      assert JobInv(s, s.slot.ptr);
    }
  }

  lemma CarriesStep(s: State, a: Action, j: JobId, ok: bool)
    requires Inv(s) && Enabled(s, a) && Carries(s, j, ok)
    ensures Carries(Step(s, a), j, ok)
  {
    match a
    case Worker(ch) =>
      if s.w.WTop? {
        CarriesTop(s, ch, j, ok);
      } else {
        WorkerChanges(s, ch);
        CarriesWorker(s, WorkerStep(s, ch), s.w.j, ch, j, ok);
      }
    case Loop(ch) =>
      CarriesLoop(s, ch, j, ok);
    case Connect(_) =>
    case Signal =>
  }

  lemma CarriesLoop(s: State, ch: Choice, j: JobId, ok: bool)
    requires LoopEnabled(s, ch) && Carries(s, j, ok)
    ensures Carries(LoopStep(s, ch), j, ok)
  {
    if EJob(s.e).Ptr? || EClosing(s.e).Ptr? {
      LoopChanges(s);
    } else {
      ElseStep(s, ch);
    }
  }

  lemma CarriesFollows(run: seq<State>, i: nat, j: JobId, ok: bool)
    requires IsRun(run) && i + 1 < |run| && Carries(run[i], j, ok)
    ensures Carries(run[i + 1], j, ok)
  {
    RunInv(run, i);
    assert Follows(run, i);
    var a :| Enabled(run[i], a) && run[i + 1] == Step(run[i], a);
    CarriesStep(run[i], a, j, ok);
  }

  lemma ReturnCarries(s: State, ok: bool)
    requires JobsInv(s) && (s.w.WTok? || s.w.WChk? || s.w.WAcc?) && WorkerEnabled(s, Stop(ok))
    ensures Carries(WorkerStep(s, Stop(ok)), s.w.j, ok)
  {
    assert JobInv(s, s.w.j);
    WorkerChanges(s, Stop(ok));
  }

  // ----- over whole runs -----

  lemma FirstCarries(run: seq<State>, i: nat, j: JobId, ok: bool)
    requires IsRun(run) && Returns(run, i, j, ok)
    ensures Carries(run[i + 1], j, ok)
  {
    RunInv(run, i);
    ReturnCarries(run[i], ok);
  }

  /** From the step in which the loop returns, its result goes its way. */
  lemma {:induction false} ResultKept(run: seq<State>, i: nat, j: JobId, ok: bool, n: nat)
    requires IsRun(run) && Returns(run, i, j, ok) && i < n < |run|
    ensures Carries(run[n], j, ok)
  {
    if n == i + 1 {
      FirstCarries(run, i, j, ok);
    } else {
      ResultKept(run, i, j, ok, n - 1);
      CarriesFollows(run, n - 1, j, ok);
    }
  }

  /** The worker has taken the job, and its generation loop has ended. */
  predicate Past(s: State, j: JobId) {
    j in s.jobs && s.jobs[j].phase != Queued
    && !(WJob(s.w) == Ptr(j) && Generating(s.w) && !s.w.WEnd? && !s.w.WPub?)
  }

  /** A job gets past the loop only when the loop returns. */
  lemma PastWorker(s: State, s': State, k: JobId, ch: Choice, j: JobId)
    requires JobsInv(s) && WorkerChange(s, s', k, ch) && Past(s', j) && !Past(s, j)
    ensures k == j && ch.Stop? && (s.w.WTok? || s.w.WChk? || s.w.WAcc?)
  {
    assert JobInv(s, k);
    NextFacts(s.w, s.jobs[k], s.shutdown, ch);
    if k == j && !(ch.Stop? && (s.w.WTok? || s.w.WChk? || s.w.WAcc?)) {
      StaysGenerating(s.w, s.jobs[k], s.shutdown, ch);
    }
  }

  lemma StaysGenerating(w: WorkerPc, b: Job, shutdown: bool, ch: Choice)
    requires WJob(w).Ptr? && Choosable(w, b, shutdown, ch)
    requires Generating(w) && !w.WEnd? && !w.WPub? && !(ch.Stop? && (w.WTok? || w.WChk? || w.WAcc?))
    ensures var w' := WorkerNext(w, b, ch); Generating(w') && !w'.WEnd? && !w'.WPub? && WJob(w') == WJob(w)
  {
  }

  lemma PastElse(s: State, a: Action, j: JobId)
    requires Enabled(s, a)
    ensures Past(Step(s, a), j) && !Past(s, j) ==> a.Worker? && !s.w.WTop?
  {
    match a
    case Worker(ch) =>
      if s.w.WTop? {
        PastTop(s, ch, j);
      }
    case Loop(ch) =>
      PastLoop(s, ch, j);
    case Connect(_) =>
    case Signal =>
  }

  lemma PastLoop(s: State, ch: Choice, j: JobId)
    requires LoopEnabled(s, ch)
    ensures Past(LoopStep(s, ch), j) ==> Past(s, j)
  {
    if EJob(s.e).Ptr? || EClosing(s.e).Ptr? {
      LoopChanges(s);
    } else {
      ElseStep(s, ch);
      var s' := LoopStep(s, ch);
      if j in s'.jobs && j !in s.jobs {
        assert Fresh(s'.jobs[j]);
      }
    }
  }

  lemma PastTop(s: State, ch: Choice, j: JobId)
    requires s.w.WTop? && WorkerEnabled(s, ch)
    ensures Past(WorkerStep(s, ch), j) ==> Past(s, j)
  {
  }

  lemma PastFollows(run: seq<State>, i: nat, j: JobId)
    requires IsRun(run) && i + 1 < |run|
    ensures Past(run[i + 1], j) && !Past(run[i], j) ==> exists ok :: Returns(run, i, j, ok)
  {
    RunInv(run, i);
    assert Follows(run, i);
    var a :| Enabled(run[i], a) && run[i + 1] == Step(run[i], a);
    PastElse(run[i], a, j);
    if Past(run[i + 1], j) && !Past(run[i], j) {
      WorkerChanges(run[i], a.choice);
      PastWorker(run[i], run[i + 1], run[i].w.j, a.choice, j);
      assert a.choice == Stop(a.choice.ok);
      assert Returns(run, i, j, a.choice.ok);
    }
  }

  lemma {:induction false} HasReturned(run: seq<State>, n: nat, j: JobId)
    requires IsRun(run) && n < |run| && Past(run[n], j)
    ensures exists i: nat, ok :: i < n && Returns(run, i, j, ok)
  {
    if n > 0 {
      if Past(run[n - 1], j) {
        HasReturned(run, n - 1, j);
      } else {
        PastFollows(run, n - 1, j);
      }
    }
  }

  // ----- the answer -----

  /** An answered job has returned from its loop; whatever the result was, it was published
      as the job's state, and the client of a job that does not stream was answered with
      the text if the loop returned 0, and with an error if it did not. */
  lemma AnswerIsResult(run: seq<State>, j: JobId)
    requires IsRun(run)
    requires var s: State := run[|run| - 1]; j in s.jobs && s.jobs[j].answers > 0
    ensures exists i: nat, ok :: Returns(run, i, j, ok)
    ensures forall i: nat, ok :: Returns(run, i, j, ok) ==> AnsweredBy(run[|run| - 1], j, ok)
  {
    var n := |run| - 1;
    AnsweredIsPast(run[n], j);
    HasReturned(run, n, j);
    forall i: nat, ok | Returns(run, i, j, ok) ensures AnsweredBy(run[n], j, ok) {
      ResultKept(run, i, j, ok, n);
      ResultAnswers(run[n], j, ok);
    }
  }

  ghost predicate AnsweredBy(s: State, j: JobId, ok: bool) {
    && j in s.jobs
    && (!s.jobs[j].stream ==> s.jobs[j].out == if ok then [Reply(s.jobs[j].given)] else [Failure])
    && (!(WJob(s.w) == Ptr(j) && Generating(s.w)) ==> s.jobs[j].state == if ok then Done else Error)
  }

  lemma AnsweredIsPast(s: State, j: JobId)
    requires Reachable(s) && j in s.jobs && s.jobs[j].answers > 0
    ensures Past(s, j)
  {
    ReachableInv(s);
    assert JobInv(s, j);
  }

  lemma ResultAnswers(s: State, j: JobId, ok: bool)
    requires Reachable(s) && Carries(s, j, ok) && s.jobs[j].answers > 0
    ensures AnsweredBy(s, j, ok)
  {
    ReachableInv(s);
    if !s.jobs[j].stream {
      ReplyPublished(s, j);
      ReplyComplete(s, j);
    }
  }

  lemma ReplyPublished(s: State, j: JobId)
    requires Inv(s) && j in s.jobs && s.jobs[j].answers > 0 && !s.jobs[j].stream
    ensures WJob(s.w) != Ptr(j)
  {
    assert JobInv(s, j);
  }

  /** Where a run without a shutdown comes to rest, a job whose loop did not return 0 has
      got its error to the client, unless the client left. */
  lemma ResultReachesClient(run: seq<State>, i: nat, j: JobId, ok: bool)
    requires IsRun(run) && Returns(run, i, j, ok)
    requires !run[|run| - 1].shutdown && forall a :: Internal(a) ==> !Enabled(run[|run| - 1], a)
    ensures var s: State := run[|run| - 1];
            && j in s.jobs && s.jobs[j].state == (if ok then Done else Error)
            && (!s.jobs[j].stream && !s.jobs[j].orphaned ==>
                 s.jobs[j].out == if ok then [Reply(s.jobs[j].given)] else [Failure])
  {
    var s := run[|run| - 1];
    ResultKept(run, i, j, ok, |run| - 1);
    assert Reachable(s);
    StuckIsQuiet(s);
    EverybodyAnswered(s, j);
    NotLost(s, j);
    if s.jobs[j].answers > 0 {
      ResultAnswers(s, j, ok);
    }
  }

  lemma NotLost(s: State, j: JobId)
    requires Reachable(s) && j in s.jobs && s.jobs[j].phase != Queued
    ensures !s.jobs[j].lost
  {
    ReachableInv(s);
    assert JobInv(s, j);
  }

  // ----- what becomes of the connection -----

  /** Only a stream that was finalised lets its connection drain. */
  ghost predicate Drained(s: State) {
    forall c :: c in s.conns && s.conns[c].draining ==> Streams(s, c)
  }

  /** A stream was finalised on the connection. */
  ghost predicate Streams(s: State, c: ConnId) {
    exists j :: j in s.jobs && s.jobs[j].conn == c && s.jobs[j].stream && s.jobs[j].answers == 1
  }

  /** Jobs keep their connection and their answers. */
  ghost predicate Keeps(s: State, s': State) {
    forall j :: j in s.jobs ==>
      && j in s'.jobs && s'.jobs[j].conn == s.jobs[j].conn && s'.jobs[j].stream == s.jobs[j].stream
      && s'.jobs[j].answers >= s.jobs[j].answers && s'.jobs[j].answers <= 1
  }

  lemma DrainedStep(s: State, s': State)
    requires Drained(s) && Keeps(s, s')
    requires forall c :: c in s'.conns && s'.conns[c].draining ==>
               (c in s.conns && s.conns[c].draining) || Streams(s', c)
    ensures Drained(s')
  {
    forall c | c in s'.conns && s'.conns[c].draining ensures Streams(s', c) {
      if c in s.conns && s.conns[c].draining {
        var j :| j in s.jobs && s.jobs[j].conn == c && s.jobs[j].stream && s.jobs[j].answers == 1;
        assert s'.jobs[j].answers == 1;
      }
    }
  }

  lemma AtMostOnce(s: State)
    requires Inv(s)
    ensures forall j :: j in s.jobs ==> s.jobs[j].answers <= 1
  {
    forall j | j in s.jobs ensures s.jobs[j].answers <= 1 {
      assert JobInv(s, j);
    }
  }

  lemma DrainedWorker(s: State, ch: Choice)
    requires Drained(s) && WorkerEnabled(s, ch)
    requires forall j :: j in s.jobs ==> s.jobs[j].answers <= 1
    ensures Drained(WorkerStep(s, ch))
  {
    if !s.w.WTop? {
      WorkerChanges(s, ch);
      WorkerDrains(s, WorkerStep(s, ch), s.w.j, ch);
    } else {
      DrainedStep(s, WorkerStep(s, ch));
    }
  }

  lemma WorkerDrains(s: State, s': State, j: JobId, ch: Choice)
    requires Drained(s) && WorkerChange(s, s', j, ch)
    requires forall k :: k in s.jobs ==> s.jobs[k].answers <= 1
    ensures Drained(s')
  {
    DrainedStep(s, s');
  }

  lemma DrainedLoop(s: State, ch: Choice)
    requires Inv(s) && Drained(s) && LoopEnabled(s, ch)
    requires forall j :: j in s.jobs ==> s.jobs[j].answers <= 1
    ensures Drained(LoopStep(s, ch))
  {
    var s' := LoopStep(s, ch);
    if EJob(s.e).Ptr? || EClosing(s.e).Ptr? {
      LoopChanges(s);
      StoredUnanswered(s, s.e.j);
      LoopDrains(s, s', s.e.j, s.e.c);
    } else {
      ElseKeeps(s, ch);
      ElseDrains(s, ch);
      DrainedStep(s, s');
    }
  }

  lemma ElseKeeps(s: State, ch: Choice)
    requires LoopEnabled(s, ch) && EJob(s.e).Null? && EClosing(s.e).Null?
    requires forall j :: j in s.jobs ==> s.jobs[j].answers <= 1
    ensures Keeps(s, LoopStep(s, ch))
  {
    ElseStep(s, ch);
  }

  lemma StoredUnanswered(s: State, j: JobId)
    requires JobsInv(s) && j in s.jobs && (EJob(s.e) == Ptr(j) || EClosing(s.e) == Ptr(j))
    ensures s.jobs[j].answers == 0 && s.jobs[j].conn == s.e.c && (s.e.EFin? ==> s.jobs[j].stream)
  {
    assert JobInv(s, j);
  }

  lemma LoopDrains(s: State, s': State, j: JobId, c: ConnId)
    requires Drained(s) && LoopChange(s, s', j, c)
    requires forall k :: k in s.jobs ==> s.jobs[k].answers <= 1
    requires s.jobs[j].answers == 0 && s.jobs[j].conn == c && (s.e.EFin? ==> s.jobs[j].stream)
    ensures Drained(s')
  {
    OneAnswer(s.e, s.jobs[j]);
    assert s'.jobs[j] == LoopJob(s.e, s.jobs[j]);
    DrainedStep(s, s');
  }

  lemma OneAnswer(e: LoopPc, b: Job)
    requires b.answers == 0
    ensures LoopJob(e, b).answers <= 1 && (e.EFin? ==> LoopJob(e, b).answers == 1)
  {
  }

  lemma ElseDrains(s: State, ch: Choice)
    requires LoopEnabled(s, ch) && EJob(s.e).Null? && EClosing(s.e).Null?
    ensures var s' := LoopStep(s, ch);
            forall c :: c in s'.conns && s'.conns[c].draining ==> c in s.conns && s.conns[c].draining
  {
    if s.e.EMake? && ch.Accept? && Admits(s) {
      SubmitBare(s, ch);
    } else if s.e.ELook? || s.e.EMake? {
      RejectedOnly(s, ch);
    } else if s.e.EIdle? {
      IdleDrains(s, ch);
    }
  }

  lemma RejectedOnly(s: State, ch: Choice)
    requires LoopEnabled(s, ch) && (s.e.ELook? || (s.e.EMake? && (ch.Refuse? || !Admits(s))))
    ensures var (c, s') := (s.e.c, LoopStep(s, ch));
            s'.conns == s.conns || s'.conns == s.conns[c := s.conns[c].(rejected := s.conns[c].rejected + 1)]
  {
  }

  lemma IdleDrains(s: State, ch: Choice)
    requires s.e.EIdle? && LoopEnabled(s, ch)
    ensures var s' := LoopStep(s, ch);
            forall c :: c in s'.conns && s'.conns[c].draining ==> c in s.conns && s.conns[c].draining
  {
  }

  lemma {:induction false} RunDrained(run: seq<State>, i: nat)
    requires IsRun(run) && i < |run|
    ensures Drained(run[i])
  {
    if i > 0 {
      RunDrained(run, i - 1);
      NextDrained(run, i - 1);
    }
  }

  lemma NextDrained(run: seq<State>, i: nat)
    requires IsRun(run) && i + 1 < |run| && Drained(run[i])
    ensures Drained(run[i + 1])
  {
    RunInv(run, i);
    AtMostOnce(run[i]);
    assert Follows(run, i);
    var a :| Enabled(run[i], a) && run[i + 1] == Step(run[i], a);
    match a
    case Worker(ch) => DrainedWorker(run[i], ch);
    case Loop(ch) => DrainedLoop(run[i], ch);
    case Connect(_) => DrainedStep(run[i], run[i + 1]);
    case Signal => DrainedStep(run[i], run[i + 1]);
  }

  /** A connection is told to close after its answer if and only if the answer was a stream;
      after a reply in one piece it serves on. */
  lemma DrainingExactly(s: State, c: ConnId)
    requires Reachable(s) && c in s.conns
    ensures s.conns[c].draining <==>
      exists j :: j in s.jobs && s.jobs[j].conn == c && s.jobs[j].stream && s.jobs[j].answers == 1
  {
    ReachableInv(s);
    var run :| IsRun(run) && run[|run| - 1] == s;
    RunDrained(run, |run| - 1);
    if j :| j in s.jobs && s.jobs[j].conn == c && s.jobs[j].stream && s.jobs[j].answers == 1 {
      assert JobInv(s, j);
    }
  }
}
