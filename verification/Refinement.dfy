/**
 The steps of the protocol, carried out on the mutable data: the worker's slot, the
 token ring and the response buffer do what the step relation says.
 */
module Refinement {
  import opened Basics
  import opened Protocol
  import opened WorkerSlot
  import opened TokenRing
  import opened ResponseBuffer
  import Agreement

  // ----- the slot -----

  /** The worker's slot holds a job as the state has it. */
  ghost predicate Shows(w: Worker, s: State)
    reads w, w.current
  {
    && (w.current == null <==> s.slot.Null?)
    && (w.current != null ==>
         && s.slot.ptr in s.jobs
         && w.current.state == s.jobs[s.slot.ptr].state && w.current.cancel == s.jobs[s.slot.ptr].cancel)
  }

  /** worker_submit is the step with which the event loop submits a job. */
  method SubmitStep(w: Worker, cell: JobCell, ghost s: State, ghost j: JobId) returns (rc: int)
    requires Shows(w, s) && s.e.EMake? && LoopEnabled(s, Accept(j)) && w.current != cell
    modifies w, cell
    ensures Shows(w, LoopStep(s, Accept(j)))
    ensures rc == if Admits(s) then 0 else -1
  {
    rc := w.Submit(cell);
    assert rc == 0 ==> LoopStep(s, Accept(j)).slot == Ptr(j);
  }

  /** worker_cancel is the first step of a shutdown. */
  method CancelStep(w: Worker, ghost s: State)
    requires Shows(w, s) && s.e.EIdle? && s.shutdown && LoopEnabled(s, Go)
    modifies w.current
    ensures Shows(w, LoopStep(s, Go)) && LoopStep(s, Go).e.EStop?
  {
    w.Cancel();
  }

  /** What the unlocked admission check decides, if the slot has not changed since. */
  lemma LookDecides(w: Worker, s: State)
    requires Shows(w, s) && s.e.ELook? && LoopEnabled(s, Go) && s.slot == Ptr(s.e.j)
    ensures LoopStep(s, Go).e.EIdle? <==> w.IsBusy()
  {
  }

  // ----- the ring -----

  /** ring_write, when it no longer waits, is the worker's step on the ring. */
  method WriteStep(ring: Ring, ghost w: WorkerPc, ghost b: Job, text: Text, cancel: bool, shutdown: bool)
    returns (rc: int, ghost ch: Choice)
    requires ring.Valid() && ring.Contents() == b.ring
    requires w.WChk? && w.text == text && b.cancel == cancel
    requires ring.IsFull() ==> cancel || shutdown
    modifies ring, ring.text
    ensures Choosable(w, b, shutdown, ch) && ring.Valid()
    ensures rc == if ch.Go? then 0 else -1
    ensures ring.Contents() == WorkerJob(w, b, ch).ring
    ensures WorkerNext(w, b, ch).WWrote? <==> rc == 0
    ensures rc == 0 <==> !cancel && !shutdown && Agreement.STREAMING(b.given + [text])
  {
    ring.FullAndEmpty();
    ch := if cancel || shutdown then Stop(true) else Go;
    rc := ring.Write(text, cancel, shutdown);
  }

  /** One locked batch is the step of the event loop on the ring. */
  method DrainStep(ring: Ring, ghost e: LoopPc, ghost b: Job) returns (batch: seq<Text>)
    requires ring.Valid() && ring.Contents() == b.ring && e.EDrain?
    modifies ring`tail
    ensures ring.Valid() && ring.Contents() == LoopJob(e, b).ring
    ensures LoopNext(e, b) == EFrame(e.c, e.j, e.full, batch)
  {
    batch := ring.DrainBatch();
  }

  /** The test under the ring's lock. */
  lemma DoneStep(ring: Ring, e: LoopPc, b: Job)
    requires ring.Valid() && ring.Contents() == b.ring && ring.done == b.done && e.EDone?
    ensures LoopNext(e, b) == EState(e.c, e.j, ring.done && ring.IsEmpty())
  {
    ring.FullAndEmpty();
  }

  // ----- the response buffer -----

  /** An accepted token is the worker's step on a job that does not stream. */
  method CollectStep(buffer: Buffer, ghost w: WorkerPc, ghost b: Job, t: Text, cancelled: bool, allocates: bool)
    returns (rc: int)
    requires buffer.Valid() && buffer.Contents() == Concat(b.given) && w.WAcc?
    modifies buffer, buffer.buf
    ensures buffer.Valid() && (rc == 0 || rc == -1)
    ensures rc == 0 ==> buffer.Contents() == Concat(WorkerJob(w, b, Token(t)).given)
    ensures rc == -1 ==> buffer.Contents() == Concat(b.given)
    ensures rc == 0 ==> !cancelled && Agreement.COLLECTING(b.given + [t])
    ensures allocates ==> (rc == 0 <==> !cancelled && Agreement.COLLECTING(b.given + [t]))
  {
    ghost var given := b.given + [t];
    assert given[..|b.given|] == b.given;
    rc := buffer.Append(t, cancelled, allocates);
  }
}
