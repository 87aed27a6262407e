/** JobPool and LogicManager as the source has them: pooled Job objects, one queue per logic thread. Each method
    is one locked section, or the work of one thread between two of them. */
module LogicManagers {
  import opened Jobs

  class JobObject {
    var session: Option<Sid>
    var header: int
    var data: seq<int>

    constructor ()
      ensures session == None && data == []
    {
      session, header, data := None, 0, [];
    }

    /** What HandlePacket is given. */
    function Content(): Request
      reads this
    {
      Request(if session.Some? then session.value else 0, header, data)
    }

    predicate Blank()
      reads this
    {
      session == None && data == []
    }
  }

  class JobPool {
    var pool: seq<JobObject>

    /** At most the limit, no object twice, all blank. */
    ghost predicate Valid()
      reads this, pool
    {
      && |pool| <= POOL_LIMIT
      && (forall i, k :: 0 <= i < k < |pool| ==> pool[i] != pool[k])
      && (forall i :: 0 <= i < |pool| ==> pool[i].Blank())
    }

    constructor ()
      ensures Valid() && pool == []
    {
      pool := [];
    }

    method Pop() returns (job: JobObject)
      requires Valid()
      modifies `pool
      ensures Valid() && job.Blank() && job !in pool
      ensures (job, pool) == Popped(old(pool), job)
      ensures old(pool) == [] ==> fresh(job)
    {
      if |pool| == 0 {
        job := new JobObject();
        return;
      }
      job := pool[|pool| - 1];
      pool := pool[..|pool| - 1];
    }

    method Push(job: JobObject)
      requires Valid() && job !in pool
      modifies `pool, job
      ensures Valid() && job.Blank()
      ensures pool == Returned(old(pool), job)
    {
      job.session := None;
      job.data := [];
      if |pool| >= POOL_LIMIT { return; }
      pool := pool + [job];
    }
  }

  class LogicManager {
    const queues: array<seq<JobObject>>
    var stop: bool

    predicate Valid() {
      queues.Length == THREAD_COUNT
    }

    constructor ()
      ensures Valid() && fresh(queues) && !stop
      ensures forall t :: 0 <= t < THREAD_COUNT ==> queues[t] == []
    {
      queues := new seq<JobObject>[THREAD_COUNT](_ => []);
      stop := false;
    }

    /** The queue is chosen by the session address alone. */
    method PushJob(job: JobObject)
      requires Valid()
      modifies queues
      ensures var t := ThreadOf(job.Content().session);
              queues[..] == old(queues[..])[t := old(queues[t]) + [job]]
    {
      var address := if job.session.Some? then job.session.value else 0;
      var idx := address / 64 % THREAD_COUNT;
      queues[idx] := queues[idx] + [job];
    }

    /** The locked part of Update: leave when stopped with an empty queue, else move the whole queue. */
    method Drain(threadIdx: nat) returns (leave: bool, currJobs: seq<JobObject>)
      requires Valid() && threadIdx < THREAD_COUNT
      modifies queues
      ensures leave == (stop && old(queues[threadIdx]) == [])
      ensures currJobs == old(queues[threadIdx])
      ensures queues[..] == old(queues[..])[threadIdx := []]
    {
      currJobs := [];
      leave := stop && |queues[threadIdx]| == 0;
      while |queues[threadIdx]| > 0
        invariant currJobs + queues[threadIdx] == old(queues[threadIdx])
        invariant forall t :: 0 <= t < THREAD_COUNT && t != threadIdx ==> queues[t] == old(queues[t])
        decreases |queues[threadIdx]|
      {
        currJobs := currJobs + [queues[threadIdx][0]];
        queues[threadIdx] := queues[threadIdx][1..];
      }
    }

    method Shutdown()
      modifies `stop
      ensures stop
    {
      stop := true;
    }
  }

  /** The loop over a batch: each Job is handled, then recycled. Because no Job occurs twice in the batch or in the
      pool, recycling one never blanks another before it is handled. */
  method HandleBatch(batch: seq<JobObject>, pool: JobPool) returns (handled: seq<Request>)
    requires pool.Valid()
    requires forall i, k :: 0 <= i < k < |batch| ==> batch[i] != batch[k]
    requires forall i :: 0 <= i < |batch| ==> batch[i] !in pool.pool
    modifies pool, batch
    ensures pool.Valid() && |handled| == |batch|
    ensures forall i :: 0 <= i < |batch| ==> handled[i] == old(batch[i].Content()) && batch[i].Blank()
  {
    handled := [];
    for n := 0 to |batch|
      invariant pool.Valid() && |handled| == n
      invariant forall i :: 0 <= i < n ==> handled[i] == old(batch[i].Content()) && batch[i].Blank()
      invariant forall i :: n <= i < |batch| ==> batch[i] !in pool.pool && batch[i].Content() == old(batch[i].Content())
    {
      handled := handled + [batch[n].Content()];
      pool.Push(batch[n]);
    }
  }
}
