/**
 Runs of the protocol in which one job gets its tokens from the generation loop: what the
 job was given, when the worker has left the loop, is what the loop delivers.
 */
module Driven {
  import opened Basics
  import opened Generation
  import opened Protocol
  import opened ProtocolInvariant
  import opened ProtocolOutcome

  /** The worker has not begun the job, or is in the generation loop for it. */
  predicate Open(s: State, j: JobId)
    requires j in s.jobs
  {
    s.jobs[j].phase == Queued || (WJob(s.w) == Ptr(j) && InLoop(s.w))
  }

  predicate InLoop(w: WorkerPc) {
    w.WStart? || w.WTok? || w.WChk? || w.WWrote? || w.WPost? || w.WAcc?
  }

  /** Iteration n delivers its token to the callback, which accepts it. */
  predicate Delivers(w: World, cb: Callback, n: nat) {
    EventAt(w, cb, n) == None || EventAt(w, cb, n) == Some(DecodeFailed)
  }

  /** The loop goes on after n tokens were delivered. */
  predicate GoesOn(w: World, cb: Callback, n: nat) {
    n > 0 ==> EventAt(w, cb, n - 1) == None
  }

  /** The loop ends after n tokens were delivered. */
  predicate Over(w: World, cb: Callback, maxGen: nat, n: nat) {
    !GoesOn(w, cb, n) || n == maxGen || !Delivers(w, cb, n)
  }

  /** From s to s' job j gets a token, and leaves the loop, only as the loop says. */
  ghost predicate Obeys(s: State, s': State, j: JobId, w: World, cb: Callback, maxGen: nat)
    requires j in s.jobs
  {
    j in s'.jobs &&
    var (g, g') := (s.jobs[j].given, s'.jobs[j].given);
    && (|g'| > |g| ==> !Over(w, cb, maxGen, |g|) && g'[|g|] == CString(w.piece(|g|)))
    // once it runs, the loop returns 0 however it ends
    && (Open(s, j) && !Open(s', j) ==> Over(w, cb, maxGen, |g|) && Carries(s', j, true))
  }

  ghost predicate DrivenBy(run: seq<State>, j: JobId, w: World, cb: Callback, maxGen: nat) {
    forall i :: 0 <= i < |run| - 1 && j in run[i].jobs ==> Obeys(run[i], run[i + 1], j, w, cb, maxGen)
  }

  // ----- what a step can do to the tokens of a job -----

  ghost predicate Grows(s: State, s': State, j: JobId)
    requires j in s.jobs
  {
    j in s'.jobs &&
    var (g, g') := (s.jobs[j].given, s'.jobs[j].given);
    && (g' == g || (|g'| == |g| + 1 && g'[..|g|] == g))
    && (g' != g ==> Open(s, j) && Open(s', j))
    && (Open(s', j) ==> Open(s, j))
  }

  lemma WorkerGrows(s: State, s': State, j: JobId, ch: Choice, k: JobId)
    requires JobsInv(s) && WorkerChange(s, s', j, ch) && k in s.jobs
    ensures Grows(s, s', k)
  {
    assert JobInv(s, j) && JobInv(s, k);
    if k == j {
      StaysIn(s.w, s.jobs[j], ch);
      assert s'.jobs[j] == WorkerJob(s.w, s.jobs[j], ch);
    }
  }

  lemma StaysIn(w: WorkerPc, b: Job, ch: Choice)
    requires WJob(w).Ptr? && b.phase == Picked && Offered(w, ch)
    ensures InLoop(WorkerNext(w, b, ch)) ==> InLoop(w)
    ensures var (g, g') := (b.given, WorkerJob(w, b, ch).given);
            g' == g || (|g'| == |g| + 1 && g'[..|g|] == g && InLoop(w) && InLoop(WorkerNext(w, b, ch)))
  {
    if (w.WChk? && ch.Go?) || (w.WAcc? && ch.Token?) {
      OneMore(w, b, ch);
    } else {
      NoMore(w, b, ch);
    }
  }

  predicate Offered(w: WorkerPc, ch: Choice) {
    && (w.WTok? || w.WAcc? ==> ch.Token? || ch.Stop?)
    && (w.WChk? ==> ch.Go? || ch.Stop?)
  }

  lemma OneMore(w: WorkerPc, b: Job, ch: Choice)
    requires (w.WChk? && ch.Go?) || (w.WAcc? && ch.Token?)
    ensures var (g, g') := (b.given, WorkerJob(w, b, ch).given); |g'| == |g| + 1 && g'[..|g|] == g
    ensures InLoop(WorkerNext(w, b, ch))
  {
    assert WorkerJob(w, b, ch).given == b.given + [if w.WChk? then w.text else ch.text];
  }

  lemma NoMore(w: WorkerPc, b: Job, ch: Choice)
    requires WJob(w).Ptr? && Offered(w, ch) && !(w.WChk? && ch.Go?) && !(w.WAcc? && ch.Token?)
    ensures WorkerJob(w, b, ch).given == b.given
    ensures InLoop(WorkerNext(w, b, ch)) ==> InLoop(w)
  {
  }

  lemma LoopGrows(s: State, s': State, j: JobId, c: ConnId, k: JobId)
    requires LoopChange(s, s', j, c) && k in s.jobs
    ensures Grows(s, s', k)
  {
  }

  lemma TakeGrows(s: State, ch: Choice, k: JobId)
    requires Inv(s) && s.w.WTop? && WorkerEnabled(s, ch) && k in s.jobs
    ensures Grows(s, WorkerStep(s, ch), k)
  {
    if s.running {
      assert JobInv(s, s.slot.ptr);
    }
  }

  lemma ElseGrows(s: State, ch: Choice, k: JobId)
    requires LoopEnabled(s, ch) && EJob(s.e).Null? && EClosing(s.e).Null? && k in s.jobs
    ensures Grows(s, LoopStep(s, ch), k)
  {
    ElseStep(s, ch);
  }

  lemma StepGrows(s: State, a: Action, k: JobId)
    requires Inv(s) && Enabled(s, a) && k in s.jobs
    ensures Grows(s, Step(s, a), k)
  {
    match a
    case Worker(ch) =>
      if s.w.WTop? {
        TakeGrows(s, ch, k);
      } else {
        WorkerChanges(s, ch);
        WorkerGrows(s, WorkerStep(s, ch), s.w.j, ch, k);
      }
    case Loop(ch) =>
      if EJob(s.e).Ptr? || EClosing(s.e).Ptr? {
        LoopChanges(s);
        LoopGrows(s, LoopStep(s, ch), s.e.j, s.e.c, k);
      } else {
        ElseGrows(s, ch, k);
      }
    case Connect(_) =>
    case Signal =>
  }

  /** A job that was just accepted has no tokens. */
  lemma StepBegins(s: State, a: Action, k: JobId)
    requires Enabled(s, a) && k !in s.jobs && k in Step(s, a).jobs
    ensures Step(s, a).jobs[k].given == [] && Open(Step(s, a), k)
  {
    match a
    case Worker(ch) =>
      if !s.w.WTop? {
        WorkerChanges(s, ch);
      }
    case Loop(ch) =>
      if EJob(s.e).Ptr? || EClosing(s.e).Ptr? {
        LoopChanges(s);
      } else {
        BeginsElse(s, ch, k);
      }
    case Connect(_) =>
    case Signal =>
  }

  lemma BeginsElse(s: State, ch: Choice, k: JobId)
    requires LoopEnabled(s, ch) && EJob(s.e).Null? && EClosing(s.e).Null?
    requires k !in s.jobs && k in LoopStep(s, ch).jobs
    ensures LoopStep(s, ch).jobs[k].given == [] && Open(LoopStep(s, ch), k)
  {
    ElseStep(s, ch);
    assert Fresh(LoopStep(s, ch).jobs[k]);
  }

  // ----- over a run -----

  /** The tokens that job j was given are the first ones that the loop delivers, and all
      of them once the worker has left the loop. */
  ghost predicate OnCourse(s: State, j: JobId, w: World, cb: Callback, maxGen: nat)
    requires j in s.jobs
  {
    var n := |s.jobs[j].given|;
    && s.jobs[j].given == Delivered(w, n) && n <= maxGen && Quiet(w, cb, if n == 0 then 0 else n - 1)
    && (n > 0 ==> Delivers(w, cb, n - 1))
    && (!Open(s, j) ==> AllDelivered(s.jobs[j].given, w, cb, maxGen) && Carries(s, j, true))
  }

  /** This is what the loop delivers in all. */
  ghost predicate AllDelivered(given: seq<Text>, w: World, cb: Callback, maxGen: nat) {
    exists k, x :: EndsAt(w, cb, maxGen, k, x) && given == Delivered(w, Accepted(k, x))
  }

  lemma OverMeansAll(given: seq<Text>, w: World, cb: Callback, maxGen: nat)
    requires var n := |given|;
             && given == Delivered(w, n) && n <= maxGen && Quiet(w, cb, if n == 0 then 0 else n - 1)
             && (n > 0 ==> Delivers(w, cb, n - 1)) && Over(w, cb, maxGen, n)
    ensures AllDelivered(given, w, cb, maxGen)
  {
    var n := |given|;
    if !GoesOn(w, cb, n) {
      assert EndsAt(w, cb, maxGen, n - 1, DecodeFailed);
      assert given == Delivered(w, Accepted(n - 1, DecodeFailed));
    } else {
      assert Quiet(w, cb, n);
      if n == maxGen {
        assert EndsAt(w, cb, maxGen, n, Length);
        assert given == Delivered(w, Accepted(n, Length));
      } else {
        var x := EventAt(w, cb, n).value;
        assert EndsAt(w, cb, maxGen, n, x);
        assert given == Delivered(w, Accepted(n, x));
      }
    }
  }

  lemma OnCourseStep(s: State, s': State, j: JobId, w: World, cb: Callback, maxGen: nat)
    requires j in s.jobs && OnCourse(s, j, w, cb, maxGen)
    requires Grows(s, s', j) && Obeys(s, s', j, w, cb, maxGen)
    requires Carries(s, j, true) ==> Carries(s', j, true)
    ensures OnCourse(s', j, w, cb, maxGen)
  {
    var (g, g') := (s.jobs[j].given, s'.jobs[j].given);
    if g' != g {
      OneFurther(g, g', w, cb, maxGen);
    } else if Open(s, j) && !Open(s', j) {
      OverMeansAll(g, w, cb, maxGen);
    }
  }

  lemma OneFurther(g: seq<Text>, g': seq<Text>, w: World, cb: Callback, maxGen: nat)
    requires var n := |g|;
             && g == Delivered(w, n) && n <= maxGen && Quiet(w, cb, if n == 0 then 0 else n - 1)
             && |g'| == n + 1 && g'[..n] == g && !Over(w, cb, maxGen, n) && g'[n] == CString(w.piece(n))
    ensures var n := |g'|;
            && g' == Delivered(w, n) && n <= maxGen && Quiet(w, cb, n - 1) && Delivers(w, cb, n - 1)
  {
    OutputStep(w, |g|);
    assert g' == g'[..|g|] + [g'[|g|]];
  }

  lemma {:induction false} DrivenCourse(run: seq<State>, i: nat, j: JobId, w: World, cb: Callback, maxGen: nat)
    requires IsRun(run) && DrivenBy(run, j, w, cb, maxGen) && i < |run| && j in run[i].jobs
    ensures OnCourse(run[i], j, w, cb, maxGen)
  {
    if i > 0 {
      if j in run[i - 1].jobs {
        DrivenCourse(run, i - 1, j, w, cb, maxGen);
      }
      CourseStep(run, i - 1, j, w, cb, maxGen);
    }
  }

  lemma CourseStep(run: seq<State>, i: nat, j: JobId, w: World, cb: Callback, maxGen: nat)
    requires IsRun(run) && DrivenBy(run, j, w, cb, maxGen) && i + 1 < |run| && j in run[i + 1].jobs
    requires j in run[i].jobs ==> OnCourse(run[i], j, w, cb, maxGen)
    ensures OnCourse(run[i + 1], j, w, cb, maxGen)
  {
    FollowsGrows(run, i, j);
    if j in run[i].jobs {
      if Carries(run[i], j, true) {
        CarriesFollows(run, i, j, true);
      }
      OnCourseStep(run[i], run[i + 1], j, w, cb, maxGen);
    } else {
      Beginning(run[i + 1], j, w, cb, maxGen);
    }
  }

  lemma FollowsGrows(run: seq<State>, i: nat, j: JobId)
    requires IsRun(run) && i + 1 < |run| && j in run[i + 1].jobs
    ensures if j in run[i].jobs then Grows(run[i], run[i + 1], j)
            else run[i + 1].jobs[j].given == [] && Open(run[i + 1], j)
  {
    RunInv(run, i);
    assert Follows(run, i);
    var a :| Enabled(run[i], a) && run[i + 1] == Step(run[i], a);
    if j in run[i].jobs {
      StepGrows(run[i], a, j);
    } else {
      StepBegins(run[i], a, j);
    }
  }

  lemma Beginning(s: State, j: JobId, w: World, cb: Callback, maxGen: nat)
    requires j in s.jobs && s.jobs[j].given == [] && Open(s, j)
    ensures OnCourse(s, j, w, cb, maxGen)
  {
    assert Delivered(w, 0) == [];
  }

  /** A job that was answered was given all that the generation loop delivers, and if it
      does not stream, its client got this as the reply. */
  lemma AnsweredInFull(run: seq<State>, j: JobId, w: World, cb: Callback, maxGen: nat)
    requires IsRun(run) && DrivenBy(run, j, w, cb, maxGen)
    requires var s: State := run[|run| - 1]; j in s.jobs && s.jobs[j].answers > 0
    ensures AllDelivered(run[|run| - 1].jobs[j].given, w, cb, maxGen)
    ensures AnsweredBy(run[|run| - 1], j, true)
  {
    var s := run[|run| - 1];
    DrivenCourse(run, |run| - 1, j, w, cb, maxGen);
    assert Reachable(s);
    AnsweredClosed(s, j);
    ResultAnswers(s, j, true);
  }

  lemma AnsweredClosed(s: State, j: JobId)
    requires Reachable(s) && j in s.jobs && s.jobs[j].answers > 0
    ensures !Open(s, j)
  {
    ReachableInv(s);
    assert JobInv(s, j);
  }
}
