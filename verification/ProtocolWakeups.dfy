/**
 How few wakeups a stream costs: one when the worker found the ring empty before it wrote,
 and one for every eight tokens.
 */
module ProtocolWakeups {
  import opened Basics
  import opened Protocol
  import opened ProtocolInvariant
  import opened Driven

  /** The step from s to s' asks for a wakeup while job j is generated. */
  predicate Asks(s: State, s': State, j: JobId) { s.w.WPost? && s.w.j == j && s'.w.WTok? }

  /** In the step from s to s' the worker finds the ring of job j empty. */
  predicate Empties(s: State, s': State, j: JobId) {
    s.w.WTok? && s.w.j == j && s'.w.WChk? && j in s.jobs && s.jobs[j].ring == []
  }

  /** How often either happens up to state n of a run. */
  function Asked(run: seq<State>, j: JobId, n: nat): nat
    requires n < |run|
  {
    if n == 0 then 0 else Asked(run, j, n - 1) + (if Asks(run[n - 1], run[n], j) then 1 else 0)
  }

  function Emptied(run: seq<State>, j: JobId, n: nat): nat
    requires n < |run|
  {
    if n == 0 then 0 else Emptied(run, j, n - 1) + (if Empties(run[n - 1], run[n], j) then 1 else 0)
  }

  /** What is left of the account of the worker's job, by where the worker is with it. */
  function PcOwes(w: WorkerPc): nat {
    if w.WTok? then w.since
    else if w.WChk? || w.WWrote? then w.since + (if w.empty then 8 else 0)
    else if w.WPost? then 8
    else 0
  }

  function Owed(s: State, j: JobId): nat { if WJob(s.w) == Ptr(j) then PcOwes(s.w) else 0 }

  function Tokens(s: State, j: JobId): nat { if j in s.jobs then |s.jobs[j].given| else 0 }

  /** Every wakeup was paid for. */
  predicate Paid(s: State, j: JobId, asked: nat, emptied: nat) {
    8 * asked + Owed(s, j) <= 8 * emptied + Tokens(s, j)
  }

  /** A step of the worker pays for the wakeup that it asks for. */
  lemma PcPays(w: WorkerPc, b: Job, ch: Choice)
    requires WJob(w).Ptr? && Offered(w, ch)
    ensures var (w', b') := (WorkerNext(w, b, ch), WorkerJob(w, b, ch));
            (if w.WPost? then 8 else 0) + PcOwes(w') + |b.given|
            <= PcOwes(w) + (if w.WTok? && ch.Token? && b.ring == [] then 8 else 0) + |b'.given|
  {
    if w.WChk? && ch.Go? {
      assert WorkerJob(w, b, ch).given == b.given + [w.text];
    } else if w.WAcc? && ch.Token? {
      assert WorkerJob(w, b, ch).given == b.given + [ch.text];
    } else {
      NoMore(w, b, ch);
    }
  }

  lemma PcAsks(w: WorkerPc, b: Job, ch: Choice)
    requires WJob(w).Ptr? && Offered(w, ch)
    ensures w.WPost? ==> WorkerNext(w, b, ch).WTok?
    ensures w.WTok? ==> (WorkerNext(w, b, ch).WChk? <==> ch.Token?)
  {
  }

  lemma WorkerPays(s: State, s': State, j: JobId, ch: Choice, asked: nat, emptied: nat)
    requires WorkerChange(s, s', j, ch) && Paid(s, j, asked, emptied)
    ensures Paid(s', j, asked + (if Asks(s, s', j) then 1 else 0), emptied + (if Empties(s, s', j) then 1 else 0))
  {
    var b := s.jobs[j];
    PcPays(s.w, b, ch);
    PcAsks(s.w, b, ch);
    Pays(s, s', j, b, WorkerJob(s.w, b, ch), s.w.WTok? && ch.Token? && b.ring == [], asked, emptied);
  }

  lemma Pays(s: State, s': State, j: JobId, b: Job, b': Job, empty: bool, asked: nat, emptied: nat)
    requires j in s.jobs && s.jobs[j] == b && j in s'.jobs && s'.jobs[j] == b' && WJob(s.w) == Ptr(j)
    requires Paid(s, j, asked, emptied)
    requires empty <==> Empties(s, s', j)
    requires (if s.w.WPost? then 8 else 0) + PcOwes(s'.w) + |b.given|
          <= PcOwes(s.w) + (if empty then 8 else 0) + |b'.given|
    ensures Paid(s', j, asked + (if Asks(s, s', j) then 1 else 0), emptied + (if Empties(s, s', j) then 1 else 0))
  {
  }

  /** Nobody else changes the account. */
  lemma OthersPay(s: State, s': State, j: JobId, asked: nat, emptied: nat)
    requires Paid(s, j, asked, emptied) && Tokens(s', j) >= Tokens(s, j)
    requires s'.w == s.w || (WJob(s.w) != Ptr(j) && (WJob(s'.w) != Ptr(j) || s'.w.WStart?))
    ensures Paid(s', j, asked + (if Asks(s, s', j) then 1 else 0), emptied + (if Empties(s, s', j) then 1 else 0))
  {
  }

  lemma SameWorker(s: State, a: Action)
    requires Enabled(s, a) && (a.Worker? ==> s.w.WTop?)
    ensures var s' := Step(s, a); s'.w == s.w || (a.Worker? && (s'.w.WStart? || s'.w.WExit?))
  {
    if a.Loop? {
      if EJob(s.e).Ptr? || EClosing(s.e).Ptr? {
        LoopChanges(s);
      } else {
        ElseStep(s, a.choice);
      }
    }
  }

  lemma {:induction false} RunPays(run: seq<State>, j: JobId, n: nat)
    requires IsRun(run) && n < |run|
    ensures Paid(run[n], j, Asked(run, j, n), Emptied(run, j, n))
  {
    if n > 0 {
      RunPays(run, j, n - 1);
      NextPays(run, j, n - 1, Asked(run, j, n - 1), Emptied(run, j, n - 1));
    }
  }

  lemma NextPays(run: seq<State>, j: JobId, n: nat, asked: nat, emptied: nat)
    requires IsRun(run) && n + 1 < |run| && Paid(run[n], j, asked, emptied)
    ensures Paid(run[n + 1], j, asked + (if Asks(run[n], run[n + 1], j) then 1 else 0),
                 emptied + (if Empties(run[n], run[n + 1], j) then 1 else 0))
  {
    RunInv(run, n);
    assert Follows(run, n);
    var a :| Enabled(run[n], a) && run[n + 1] == Step(run[n], a);
    var (s, s') := (run[n], run[n + 1]);
    if j in s.jobs {
      StepGrows(s, a, j);
    }
    if a.Worker? && !s.w.WTop? {
      WorkerChanges(s, a.choice);
      if s.w.j == j {
        WorkerPays(s, s', j, a.choice, asked, emptied);
      } else {
        NextFacts(s.w, s.jobs[s.w.j], s.shutdown, a.choice);
        OthersPay(s, s', j, asked, emptied);
      }
    } else {
      SameWorker(s, a);
      OthersPay(s, s', j, asked, emptied);
    }
  }

  /** In every run the worker asks for no more wakeups, while a job is generated, than it
      found the ring empty, and one for every eight tokens. */
  lemma FewWakeups(run: seq<State>, j: JobId)
    requires IsRun(run)
    ensures var n := |run| - 1;
            Asked(run, j, n) <= Emptied(run, j, n) + Tokens(run[n], j) / 8
  {
    RunPays(run, j, |run| - 1);
  }
}
