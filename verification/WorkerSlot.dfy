/** The worker's public operations on its single job slot, each under the worker's lock. */
module WorkerSlot {
  import opened Protocol

  class JobCell {
    var state: JobState
    var cancel: bool

    constructor ()
      ensures state == Idle && !cancel
    {
      state, cancel := Idle, false;
    }
  }

  class Worker {
    var current: JobCell?

    constructor ()
      ensures current == null
    {
      current := null;
    }

    /** worker_is_busy */
    predicate IsBusy()
      reads this, current
    {
      current != null && Busy(current.state)
    }

    /** worker_submit: refused exactly while the slot holds an unfinished job. */
    method Submit(job: JobCell) returns (rc: int)
      modifies this, job
      ensures rc == if old(IsBusy()) then -1 else 0
      ensures rc == 0 ==> current == job && job.state == Idle && !job.cancel && IsBusy()
      ensures rc != 0 ==> current == old(current) && job.state == old(job.state) && job.cancel == old(job.cancel)
    {
      if current != null && (current.state == Idle || current.state == Running) {
        return -1;
      }
      current := job;
      job.state := Idle;
      job.cancel := false;
      return 0;
    }

    /** worker_cancel: the slot and the job's state stay as they are. */
    method Cancel()
      modifies current
      ensures current != null ==> current.cancel && current.state == old(current.state)
    {
      if current != null {
        current.cancel := true;
      }
    }
  }
}
