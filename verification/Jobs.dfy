/** The job pipeline of LogicManager.h as a concurrent step system. Producers (I/O workers and database
    workers) take a Job from the pool, fill it and push it on the queue of its session's thread; each logic
    thread drains its queue into a batch and handles the batch, returning every Job to the pool.
    Whatever one lock protects, or one thread does alone, is one step; steps interleave freely. */
module Jobs {

  const THREAD_COUNT := 4
  const POOL_LIMIT := 1000

  /** The address of a Session, and of a Job. */
  type Sid = nat
  type JobId = nat

  datatype Option<T> = None | Some(value: T)

  /** `session` None is the null pointer. */
  datatype Job = Job(session: Option<Sid>, header: int, data: seq<int>)

  /** What a producer puts into a Job. */
  datatype Request = Request(session: Sid, header: int, data: seq<int>)

  /** (session >> 6) % THREAD_COUNT */
  function ThreadOf(s: Sid): (t: nat)
    ensures t < THREAD_COUNT
  {
    s / 64 % THREAD_COUNT
  }

  /** A logic thread: the rest of its batch, the Job it has handled but not returned, and whether it has left its
      loop. */
  datatype Worker = Worker(batch: seq<JobId>, done: Option<JobId>, exited: bool)

  datatype State = State(
    jobs: map<JobId, Job>,        // every Job object ever allocated
    hands: seq<Option<JobId>>,    // the Job each producer holds
    queues: seq<seq<JobId>>,      // m_jobs
    workers: seq<Worker>,
    pool: seq<JobId>,             // m_pool, top last
    deleted: seq<JobId>,
    stop: bool,
    pushed: seq<Request>,         // in the order of PushJob
    handled: seq<Request>,        // in the order of HandlePacket
    late: seq<nat>)               // per queue: pushed after its thread had left

  function Init(producers: nat): State {
    State(map[], seq(producers, _ => None), seq(THREAD_COUNT, _ => []),
          seq(THREAD_COUNT, _ => Worker([], None, false)), [], [], false, [], [], seq(THREAD_COUNT, _ => 0))
  }

  datatype Step =
    | Take(producer: nat)                     // JobPool::Pop
    | Fill(producer: nat, request: Request)   // job->session, header, data are set
    | Push(producer: nat)                     // LogicManager::PushJob
    | Drain(thread: nat)                      // the locked part of Update
    | Handle(thread: nat)                     // HandlePacket on the next Job of the batch
    | Recycle(thread: nat)                    // JobPool::Push
    | Exit(thread: nat)                       // the break
    | Shutdown

  /** JobPool::Pop: the top of the stack, or a new object. */
  function Popped<T>(pool: seq<T>, newJob: T): (T, seq<T>) {
    if |pool| == 0 then (newJob, pool) else (pool[|pool| - 1], pool[..|pool| - 1])
  }

  /** JobPool::Push: on the stack unless that is full. */
  function Returned<T>(pool: seq<T>, j: T): seq<T> {
    if |pool| >= POOL_LIMIT then pool else pool + [j]
  }

  function RequestOf(jobs: map<JobId, Job>, j: JobId): Request {
    if j in jobs && jobs[j].session.Some? then Request(jobs[j].session.value, jobs[j].header, jobs[j].data)
    else Request(0, 0, [])
  }

  predicate Shape(st: State) {
    |st.queues| == THREAD_COUNT && |st.workers| == THREAD_COUNT && |st.late| == THREAD_COUNT
  }

  /** At the top of the loop in Update. */
  predicate Idle(w: Worker) {
    w.batch == [] && w.done.None? && !w.exited
  }

  predicate Holds(st: State, producer: nat) {
    producer < |st.hands| && st.hands[producer].Some? && st.hands[producer].value in st.jobs
  }

  /** What the code of the acting thread has reached. A producer pushes only a Job it has filled. */
  predicate Enabled(st: State, step: Step) {
    && Shape(st)
    && match step
       case Take(p) => p < |st.hands| && st.hands[p].None?
       case Fill(p, r) => Holds(st, p)
       case Push(p) => Holds(st, p) && st.jobs[st.hands[p].value].session.Some?
       case Drain(t) => t < THREAD_COUNT && Idle(st.workers[t]) && st.queues[t] != []
       case Handle(t) => t < THREAD_COUNT && st.workers[t].batch != [] && st.workers[t].done.None?
       case Recycle(t) => t < THREAD_COUNT && st.workers[t].done.Some?
       case Exit(t) => t < THREAD_COUNT && Idle(st.workers[t]) && st.stop && st.queues[t] == []
       case Shutdown => true
  }

  function Apply(st: State, step: Step): (r: State)
    requires Enabled(st, step)
  {
    match step
    case Take(p) =>
      var (j, pool) := Popped(st.pool, |st.jobs|);
      st.(jobs := if st.pool == [] then st.jobs[j := Job(None, 0, [])] else st.jobs,
          hands := st.hands[p := Some(j)], pool := pool)
    case Fill(p, r) =>
      st.(jobs := st.jobs[st.hands[p].value := Job(Some(r.session), r.header, r.data)])
    case Push(p) =>
      var j := st.hands[p].value;
      var t := ThreadOf(st.jobs[j].session.value);
      st.(hands := st.hands[p := None], queues := st.queues[t := st.queues[t] + [j]],
          pushed := st.pushed + [RequestOf(st.jobs, j)],
          late := if st.workers[t].exited then st.late[t := st.late[t] + 1] else st.late)
    case Drain(t) =>
      st.(queues := st.queues[t := []], workers := st.workers[t := st.workers[t].(batch := st.queues[t])])
    case Handle(t) =>
      var w := st.workers[t];
      st.(workers := st.workers[t := w.(batch := w.batch[1..], done := Some(w.batch[0]))],
          handled := st.handled + [RequestOf(st.jobs, w.batch[0])])
    case Recycle(t) =>
      var j := st.workers[t].done.value;
      st.(workers := st.workers[t := st.workers[t].(done := None)],
          jobs := if j in st.jobs then st.jobs[j := st.jobs[j].(session := None, data := [])] else st.jobs,
          pool := Returned(st.pool, j),
          deleted := if |st.pool| >= POOL_LIMIT then st.deleted + [j] else st.deleted)
    case Exit(t) =>
      st.(workers := st.workers[t := st.workers[t].(exited := true)])
    case Shutdown =>
      st.(stop := true)
  }

  // ----- where the Job objects are -----

  function Sum(parts: seq<nat>): nat {
    if parts == [] then 0 else parts[0] + Sum(parts[1..])
  }

  function One(o: Option<JobId>, j: JobId): nat {
    if o == Some(j) then 1 else 0
  }

  function InHands(hands: seq<Option<JobId>>, j: JobId): seq<nat> {
    seq(|hands|, i requires 0 <= i < |hands| => One(hands[i], j))
  }

  function InQueues(queues: seq<seq<JobId>>, j: JobId): seq<nat> {
    seq(|queues|, i requires 0 <= i < |queues| => multiset(queues[i])[j])
  }

  function InWorker(w: Worker, j: JobId): nat {
    multiset(w.batch)[j] + One(w.done, j)
  }

  function InWorkers(workers: seq<Worker>, j: JobId): seq<nat> {
    seq(|workers|, i requires 0 <= i < |workers| => InWorker(workers[i], j))
  }

  /** How many times a Job object occurs in the whole system. */
  function Copies(st: State, j: JobId): nat {
    Sum(InHands(st.hands, j)) + Sum(InQueues(st.queues, j)) + Sum(InWorkers(st.workers, j)) +
    multiset(st.pool)[j] + multiset(st.deleted)[j]
  }

  /** Every allocated Job is in exactly one place, and nothing else is anywhere. */
  ghost predicate Owned(st: State) {
    && (forall j: JobId :: Copies(st, j) == if j in st.jobs then 1 else 0)
    && (forall j: JobId :: j in st.jobs <==> j < |st.jobs|)
  }

  lemma {:induction false} SumUpdate(parts: seq<nat>, i: nat, x: nat)
    requires i < |parts|
    ensures Sum(parts[i := x]) + parts[i] == Sum(parts) + x
  {
    var parts' := parts[i := x];
    if i == 0 {
      assert parts'[1..] == parts[1..];
    } else {
      assert parts'[1..] == parts[1..][i - 1 := x];
      SumUpdate(parts[1..], i - 1, x);
    }
  }

  lemma {:induction false} PartOfSum(parts: seq<nat>, i: nat)
    requires i < |parts|
    ensures parts[i] <= Sum(parts)
  {
    if i > 0 {
      PartOfSum(parts[1..], i - 1);
    }
  }

  // ----- ownership -----

  lemma HandChange(hands: seq<Option<JobId>>, p: nat, o: Option<JobId>, j: JobId)
    requires p < |hands|
    ensures Sum(InHands(hands[p := o], j)) + One(hands[p], j) == Sum(InHands(hands, j)) + One(o, j)
  {
    SumUpdate(InHands(hands, j), p, One(o, j));
    assert InHands(hands[p := o], j) == InHands(hands, j)[p := One(o, j)];
  }

  lemma QueueChange(queues: seq<seq<JobId>>, t: nat, q: seq<JobId>, j: JobId)
    requires t < |queues|
    ensures Sum(InQueues(queues[t := q], j)) + multiset(queues[t])[j] == Sum(InQueues(queues, j)) + multiset(q)[j]
  {
    SumUpdate(InQueues(queues, j), t, multiset(q)[j]);
    assert InQueues(queues[t := q], j) == InQueues(queues, j)[t := multiset(q)[j]];
  }

  lemma WorkerChange(workers: seq<Worker>, t: nat, w: Worker, j: JobId)
    requires t < |workers|
    ensures Sum(InWorkers(workers[t := w], j)) + multiset(workers[t].batch)[j] + One(workers[t].done, j)
            == Sum(InWorkers(workers, j)) + multiset(w.batch)[j] + One(w.done, j)
  {
    SumUpdate(InWorkers(workers, j), t, InWorker(w, j));
    assert InWorkers(workers[t := w], j) == InWorkers(workers, j)[t := InWorker(w, j)];
  }

  /** Steps move Jobs about; only Take on an empty pool makes one. */
  lemma StepMoves(st: State, step: Step, j: JobId)
    requires Enabled(st, step)
    ensures Copies(Apply(st, step), j) == Copies(st, j) + if step.Take? && st.pool == [] && j == |st.jobs| then 1 else 0
  {
    hide Sum, InHands, InQueues, InWorkers;
    match step
    case Take(p) => TakeMoves(st, p, j);
    case Fill(p, r) =>
    case Push(p) => PushMoves(st, p, j);
    case Drain(t) => DrainMoves(st, t, j);
    case Handle(t) => HandleMoves(st, t, j);
    case Recycle(t) => RecycleMoves(st, t, j);
    case Exit(t) => WorkerChange(st.workers, t, st.workers[t].(exited := true), j);
    case Shutdown =>
  }

  lemma TakeMoves(st: State, p: nat, j: JobId)
    requires Enabled(st, Take(p))
    ensures Copies(Apply(st, Take(p)), j) == Copies(st, j) + if st.pool == [] && j == |st.jobs| then 1 else 0
  {
    hide Sum, InHands, InQueues, InWorkers;
    var st' := Apply(st, Take(p));
    HandChange(st.hands, p, st'.hands[p], j);
    if st.pool != [] {
      assert st.pool == st'.pool + [st'.hands[p].value];
    }
  }

  lemma PushMoves(st: State, p: nat, j: JobId)
    requires Enabled(st, Push(p))
    ensures Copies(Apply(st, Push(p)), j) == Copies(st, j)
  {
    hide Sum, InHands, InQueues, InWorkers, ThreadOf;
    var t := ThreadOf(st.jobs[st.hands[p].value].session.value);
    HandChange(st.hands, p, None, j);
    QueueChange(st.queues, t, st.queues[t] + [st.hands[p].value], j);
  }

  lemma DrainMoves(st: State, t: nat, j: JobId)
    requires Enabled(st, Drain(t))
    ensures Copies(Apply(st, Drain(t)), j) == Copies(st, j)
  {
    hide Sum, InHands, InQueues, InWorkers;
    QueueChange(st.queues, t, [], j);
    WorkerChange(st.workers, t, st.workers[t].(batch := st.queues[t]), j);
  }

  lemma HandleMoves(st: State, t: nat, j: JobId)
    requires Enabled(st, Handle(t))
    ensures Copies(Apply(st, Handle(t)), j) == Copies(st, j)
  {
    hide Sum, InHands, InQueues, InWorkers;
    var b := st.workers[t].batch;
    assert b == [b[0]] + b[1..];
    WorkerChange(st.workers, t, st.workers[t].(batch := b[1..], done := Some(b[0])), j);
  }

  lemma RecycleMoves(st: State, t: nat, j: JobId)
    requires Enabled(st, Recycle(t))
    ensures Copies(Apply(st, Recycle(t)), j) == Copies(st, j)
  {
    hide Sum, InHands, InQueues, InWorkers;
    WorkerChange(st.workers, t, st.workers[t].(done := None), j);
  }

  lemma JobsAllocated(st: State, step: Step)
    requires Enabled(st, step) && (forall j: JobId :: j in st.jobs <==> j < |st.jobs|)
    ensures var jobs := Apply(st, step).jobs;
            && (forall j: JobId :: j in jobs <==> j < |jobs|)
            && (forall j: JobId :: j in jobs <==> j in st.jobs || (step.Take? && st.pool == [] && j == |st.jobs|))
  {
    var jobs := Apply(st, step).jobs;
    if step.Take? && st.pool == [] {
      assert jobs.Keys == st.jobs.Keys + {|st.jobs|};
    } else {
      assert jobs.Keys == st.jobs.Keys;
    }
  }

  lemma StepKeepsOwned(st: State, step: Step)
    requires Owned(st) && Enabled(st, step)
    ensures Owned(Apply(st, step))
  {
    hide Copies, Apply;
    JobsAllocated(st, step);
    forall j: JobId
      ensures Copies(Apply(st, step), j) == if j in Apply(st, step).jobs then 1 else 0
    {
      StepMoves(st, step, j);
    }
  }

  /** A Job in a producer's hand is nowhere else. */
  lemma InHandOnly(st: State, p: nat)
    requires Owned(st) && Shape(st) && p < |st.hands| && st.hands[p].Some?
    ensures var j := st.hands[p].value;
            && j !in st.pool && j in st.jobs
            && (forall q :: 0 <= q < |st.hands| && q != p ==> st.hands[q] != Some(j))
            && forall t :: 0 <= t < THREAD_COUNT ==>
                 j !in st.queues[t] && j !in st.workers[t].batch && st.workers[t].done != Some(j)
  {
    hide Sum;
    var j := st.hands[p].value;
    assert Copies(st, j) <= 1;
    PartOfSum(InHands(st.hands, j), p);
    forall q | 0 <= q < |st.hands| && q != p
      ensures st.hands[q] != Some(j)
    {
      SumUpdate(InHands(st.hands, j), q, 0);
      PartOfSum(InHands(st.hands, j)[q := 0], p);
    }
    forall t | 0 <= t < THREAD_COUNT
      ensures j !in st.queues[t] && j !in st.workers[t].batch && st.workers[t].done != Some(j)
    {
      PartOfSum(InQueues(st.queues, j), t);
      PartOfSum(InWorkers(st.workers, j), t);
    }
  }

  /** A Job that has been handled and not returned is nowhere else. */
  lemma DoneOnly(st: State, t: nat)
    requires Owned(st) && Shape(st) && t < THREAD_COUNT && st.workers[t].done.Some?
    ensures var j := st.workers[t].done.value;
            && j !in st.pool
            && forall u :: 0 <= u < THREAD_COUNT ==>
                 j !in st.queues[u] && j !in st.workers[u].batch && (u != t ==> st.workers[u].done != Some(j))
  {
    hide Sum;
    var j := st.workers[t].done.value;
    var parts := InWorkers(st.workers, j);
    assert Copies(st, j) <= 1;
    PartOfSum(parts, t);
    forall u | 0 <= u < THREAD_COUNT
      ensures j !in st.queues[u] && j !in st.workers[u].batch && (u != t ==> st.workers[u].done != Some(j))
    {
      PartOfSum(InQueues(st.queues, j), u);
      if u != t {
        SumUpdate(parts, u, 0);
        PartOfSum(parts[u := 0], t);
      }
    }
  }
}
