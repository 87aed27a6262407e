/** What every run of the job pipeline keeps: per-session order, one thread per session, one owner per Job, and a
    shutdown that drains. */
module JobRuns {
  import opened Jobs

  // ----- requests in flight -----

  function Requests(jobs: map<JobId, Job>, js: seq<JobId>): seq<Request> {
    if js == [] then [] else [RequestOf(jobs, js[0])] + Requests(jobs, js[1..])
  }

  /** The requests of one session, in order. */
  function Only(rs: seq<Request>, s: Sid): seq<Request> {
    if rs == [] then [] else (if rs[0].session == s then [rs[0]] else []) + Only(rs[1..], s)
  }

  lemma {:induction false} RequestsAppend(jobs: map<JobId, Job>, a: seq<JobId>, b: seq<JobId>)
    ensures Requests(jobs, a + b) == Requests(jobs, a) + Requests(jobs, b)
  {
    if a == [] {
      assert a + b == b;
    } else {
      assert (a + b)[0] == a[0] && (a + b)[1..] == a[1..] + b;
      RequestsAppend(jobs, a[1..], b);
    }
  }

  lemma {:induction false} RequestsSame(jobs: map<JobId, Job>, jobs': map<JobId, Job>, js: seq<JobId>)
    requires forall j :: j in js ==> RequestOf(jobs', j) == RequestOf(jobs, j)
    ensures Requests(jobs', js) == Requests(jobs, js)
  {
    if js != [] {
      assert js[0] in js;
      RequestsSame(jobs, jobs', js[1..]);
    }
  }

  lemma {:induction false} OnlyAppend(a: seq<Request>, b: seq<Request>, s: Sid)
    ensures Only(a + b, s) == Only(a, s) + Only(b, s)
  {
    if a == [] {
      assert a + b == b;
    } else {
      assert (a + b)[0] == a[0] && (a + b)[1..] == a[1..] + b;
      OnlyAppend(a[1..], b, s);
      var first := if a[0].session == s then [a[0]] else [];
      assert first + (Only(a[1..], s) + Only(b, s)) == (first + Only(a[1..], s)) + Only(b, s);
    }
  }

  lemma OnlyOne(r: Request, s: Sid)
    ensures Only([r], s) == if r.session == s then [r] else []
  {
    assert [r][1..] == [];
  }

  lemma RequestsOne(jobs: map<JobId, Job>, j: JobId)
    ensures Requests(jobs, [j]) == [RequestOf(jobs, j)]
  {
    assert [j][1..] == [];
  }

  /** Taken from the queue and not handled yet, then still queued, by the thread of this session. */
  function InFlight(st: State, s: Sid): seq<Request>
    requires Shape(st)
  {
    var t := ThreadOf(s);
    Only(Requests(st.jobs, st.workers[t].batch), s) + Only(Requests(st.jobs, st.queues[t]), s)
  }

  // ----- the invariant -----

  /** Job j carries a session of thread t. */
  predicate BelongsTo(jobs: map<JobId, Job>, j: JobId, t: nat) {
    j in jobs && jobs[j].session.Some? && ThreadOf(jobs[j].session.value) == t
  }

  ghost predicate Routed(st: State)
    requires Shape(st)
  {
    forall t | 0 <= t < THREAD_COUNT ::
      && (forall j :: j in st.queues[t] ==> BelongsTo(st.jobs, j, t))
      && (forall j :: j in st.workers[t].batch ==> BelongsTo(st.jobs, j, t))
      && (st.workers[t].done.Some? ==> BelongsTo(st.jobs, st.workers[t].done.value, t))
  }

  ghost predicate Ordered(st: State)
    requires Shape(st)
  {
    forall s :: Only(st.handled, s) + InFlight(st, s) == Only(st.pushed, s)
  }

  /** The pool holds at most its limit, and only blank Jobs. */
  ghost predicate PoolOk(st: State) {
    && |st.pool| <= POOL_LIMIT
    && forall j :: j in st.pool ==> j in st.jobs && st.jobs[j].session == None && st.jobs[j].data == []
  }

  /** A thread leaves stopped and empty-handed; what is on its queue then came late. */
  ghost predicate ExitsOk(st: State)
    requires Shape(st)
  {
    forall t | 0 <= t < THREAD_COUNT ::
      if st.workers[t].exited
      then st.stop && st.workers[t].batch == [] && st.workers[t].done.None? && |st.queues[t]| == st.late[t]
      else st.late[t] == 0
  }

  ghost predicate Inv(st: State) {
    Shape(st) && Owned(st) && Routed(st) && Ordered(st) && PoolOk(st) && ExitsOk(st)
  }

  lemma {:induction false} SumZeros(parts: seq<nat>)
    requires forall i :: 0 <= i < |parts| ==> parts[i] == 0
    ensures Sum(parts) == 0
  {
    if parts != [] {
      SumZeros(parts[1..]);
    }
  }

  lemma InitOk(producers: nat)
    ensures Inv(Init(producers))
  {
    var st := Init(producers);
    assert |st.jobs| == 0;
    forall j: JobId
      ensures Copies(st, j) == 0
    {
      SumZeros(InHands(st.hands, j));
      SumZeros(InQueues(st.queues, j));
      SumZeros(InWorkers(st.workers, j));
    }
    assert forall j: JobId :: Copies(st, j) == if j in st.jobs then 1 else 0;
    assert forall j: JobId :: j in st.jobs <==> j < |st.jobs|;
    assert Owned(st);
  }

  // ----- order -----

  lemma PushOrder(st: State, p: nat, s: Sid)
    requires Inv(st) && Enabled(st, Push(p))
    ensures var st' := Apply(st, Push(p)); Only(st'.handled, s) + InFlight(st', s) == Only(st'.pushed, s)
  {
    hide ThreadOf, Owned, Only, Requests, Routed;
    var j := st.hands[p].value;
    var r, q := RequestOf(st.jobs, j), Requests(st.jobs, st.queues[ThreadOf(s)]);
    OnlyAppend(st.pushed, [r], s);
    OnlyOne(r, s);
    if ThreadOf(r.session) == ThreadOf(s) {
      RequestsAppend(st.jobs, st.queues[ThreadOf(s)], [j]);
      RequestsOne(st.jobs, j);
      OnlyAppend(q, [r], s);
    }
    PushRegroup(Only(st.handled, s), Only(Requests(st.jobs, st.workers[ThreadOf(s)].batch), s), Only(q, s), Only([r], s));
  }

  lemma PushRegroup(a: seq<Request>, b: seq<Request>, c: seq<Request>, d: seq<Request>)
    ensures a + (b + (c + d)) == (a + (b + c)) + d
    ensures d == [] ==> a + (b + c) == (a + (b + c)) + d
  {
  }

  lemma DrainOrder(st: State, t: nat, s: Sid)
    requires Inv(st) && Enabled(st, Drain(t))
    ensures var st' := Apply(st, Drain(t)); Only(st'.handled, s) + InFlight(st', s) == Only(st'.pushed, s)
  {
    hide ThreadOf, Owned;
    assert InFlight(Apply(st, Drain(t)), s) == InFlight(st, s);
  }

  lemma HandleOrder(st: State, t: nat, s: Sid)
    requires Inv(st) && Enabled(st, Handle(t))
    ensures var st' := Apply(st, Handle(t)); Only(st'.handled, s) + InFlight(st', s) == Only(st'.pushed, s)
  {
    hide ThreadOf, Owned, Only, Requests;
    var b := st.workers[t].batch;
    var r, rest := RequestOf(st.jobs, b[0]), Requests(st.jobs, b[1..]);
    assert BelongsTo(st.jobs, b[0], t);
    OnlyAppend(st.handled, [r], s);
    OnlyOne(r, s);
    if ThreadOf(s) == t {
      RequestsAppend(st.jobs, [b[0]], b[1..]);
      RequestsOne(st.jobs, b[0]);
      assert [b[0]] + b[1..] == b;
      OnlyAppend([r], rest, s);
      Regroup(Only(st.handled, s), Only([r], s), Only(rest, s), Only(Requests(st.jobs, st.queues[t]), s));
    } else {
      assert Only([r], s) == [] && Only(st.handled, s) + [] == Only(st.handled, s);
    }
  }

  lemma Regroup(a: seq<Request>, b: seq<Request>, c: seq<Request>, d: seq<Request>)
    ensures a + ((b + c) + d) == (a + b) + (c + d)
  {
  }

  /** Steps that change Jobs nobody has queued leave everything queued and batched as it was. */
  lemma UntouchedOrder(st: State, st': State, s: Sid)
    requires Shape(st) && Shape(st') && Ordered(st)
    requires st'.queues == st.queues && st'.handled == st.handled && st'.pushed == st.pushed
    requires forall t | 0 <= t < THREAD_COUNT :: st'.workers[t].batch == st.workers[t].batch
    requires forall t, j | 0 <= t < THREAD_COUNT && (j in st.queues[t] || j in st.workers[t].batch) ::
               RequestOf(st'.jobs, j) == RequestOf(st.jobs, j)
    ensures Only(st'.handled, s) + InFlight(st', s) == Only(st'.pushed, s)
  {
    var t := ThreadOf(s);
    RequestsSame(st.jobs, st'.jobs, st.queues[t]);
    RequestsSame(st.jobs, st'.jobs, st.workers[t].batch);
  }

  lemma StepKeepsOrder(st: State, step: Step)
    requires Inv(st) && Enabled(st, step)
    ensures Ordered(Apply(st, step))
  {
    hide Only, Requests, InFlight, Copies, Routed, ExitsOk, PoolOk;
    var st' := Apply(st, step);
    forall s
      ensures Only(st'.handled, s) + InFlight(st', s) == Only(st'.pushed, s)
    {
      match step {
        case Take(p) =>
          FreshIsNew(st);
          UntouchedOrder(st, st', s);
        case Fill(p, r) =>
          InHandOnly(st, p);
          UntouchedOrder(st, st', s);
        case Push(p) => PushOrder(st, p, s);
        case Drain(t) => DrainOrder(st, t, s);
        case Handle(t) => HandleOrder(st, t, s);
        case Recycle(t) =>
          DoneOnly(st, t);
          UntouchedOrder(st, st', s);
        case Exit(t) => UntouchedOrder(st, st', s);
        case Shutdown => UntouchedOrder(st, st', s);
      }
    }
  }

  lemma FreshIsNew(st: State)
    requires Inv(st)
    ensures forall t, j | 0 <= t < THREAD_COUNT && (j in st.queues[t] || j in st.workers[t].batch) :: j != |st.jobs|
  {
    hide Copies;
    forall t, j | 0 <= t < THREAD_COUNT && (j in st.queues[t] || j in st.workers[t].batch)
      ensures j != |st.jobs|
    {
      assert BelongsTo(st.jobs, j, t);
    }
  }

  // ----- routing, pool, exits -----

  lemma StepKeepsRouting(st: State, step: Step)
    requires Inv(st) && Enabled(st, step)
    ensures Routed(Apply(st, step))
  {
    hide Ordered, Copies, ThreadOf;
    match step
    case Fill(p, _) => InHandOnly(st, p);
    case Recycle(t) => DoneOnly(st, t);
    case _ =>
  }

  lemma StepKeepsPool(st: State, step: Step)
    requires Inv(st) && Enabled(st, step)
    ensures PoolOk(Apply(st, step))
  {
    hide Ordered, Copies;
    match step
    case Fill(p, _) => InHandOnly(st, p);
    case Recycle(t) => DoneOnly(st, t);
    case _ =>
  }

  lemma StepKeepsExits(st: State, step: Step)
    requires Inv(st) && Enabled(st, step)
    ensures ExitsOk(Apply(st, step))
  {
    hide Ordered, Owned, Routed;
  }

  lemma StepKeeps(st: State, step: Step)
    requires Inv(st) && Enabled(st, step)
    ensures Inv(Apply(st, step))
  {
    StepKeepsOwned(st, step);
    StepKeepsRouting(st, step);
    StepKeepsOrder(st, step);
    StepKeepsPool(st, step);
    StepKeepsExits(st, step);
  }

  // ----- every run -----

  function Exec(st: State, steps: seq<Step>): State
    requires Legal(st, steps)
    decreases steps
  {
    if steps == [] then st else Exec(Apply(st, steps[0]), steps[1..])
  }

  predicate Legal(st: State, steps: seq<Step>)
    decreases steps
  {
    steps == [] || (Enabled(st, steps[0]) && Legal(Apply(st, steps[0]), steps[1..]))
  }

  lemma {:induction false} RunKeeps(st: State, steps: seq<Step>)
    requires Inv(st) && Legal(st, steps)
    ensures Inv(Exec(st, steps))
    decreases steps
  {
    hide Inv, Apply, Enabled;
    if steps != [] {
      StepKeeps(st, steps[0]);
      RunKeeps(Apply(st, steps[0]), steps[1..]);
    }
  }

  ghost predicate Reachable(st: State) {
    exists producers, steps :: Legal(Init(producers), steps) && Exec(Init(producers), steps) == st
  }

  lemma ReachableOk(st: State)
    requires Reachable(st)
    ensures Inv(st)
  {
    hide Inv;
    var producers, steps :| Legal(Init(producers), steps) && Exec(Init(producers), steps) == st;
    InitOk(producers);
    RunKeeps(Init(producers), steps);
  }

  // ----- what the producers asked for -----

  /** The requests of a run, read off its steps alone: at each push, what its producer filled in last. */
  function Asked(steps: seq<Step>, drafts: map<nat, Request>): seq<Request>
    decreases steps
  {
    if steps == [] then []
    else
      match steps[0]
      case Fill(p, r) => Asked(steps[1..], drafts[p := r])
      case Push(p) => (if p in drafts then [drafts[p]] else []) + Asked(steps[1..], drafts - {p})
      case _ => Asked(steps[1..], drafts)
  }

  /** The Job in a producer's hand holds its draft, and no session before it has one. */
  ghost predicate Drafted(st: State, drafts: map<nat, Request>) {
    forall p :: 0 <= p < |st.hands| ==>
      match st.hands[p]
      case None => p !in drafts
      case Some(j) =>
        j in st.jobs
        && if p in drafts
           then st.jobs[j] == Job(Some(drafts[p].session), drafts[p].header, drafts[p].data)
           else st.jobs[j].session == None
  }

  function DraftsAfter(step: Step, drafts: map<nat, Request>): map<nat, Request> {
    match step
    case Fill(p, r) => drafts[p := r]
    case Push(p) => drafts - {p}
    case _ => drafts
  }

  lemma StepKeepsDrafts(st: State, step: Step, drafts: map<nat, Request>)
    requires Inv(st) && Drafted(st, drafts) && Enabled(st, step)
    ensures Drafted(Apply(st, step), DraftsAfter(step, drafts))
    ensures Apply(st, step).pushed == st.pushed + if step.Push? then [drafts[step.producer]] else []
    ensures step.Push? ==> step.producer in drafts
  {
    hide Copies, Ordered, Routed, ExitsOk;
    var st' := Apply(st, step);
    forall p | 0 <= p < |st.hands| && st.hands[p].Some?
      ensures st.hands[p].value in st.jobs && st.hands[p].value != |st.jobs| && st.hands[p].value !in st.pool
      ensures forall q :: 0 <= q < |st.hands| && q != p ==> st.hands[q] != st.hands[p]
      ensures forall t :: 0 <= t < THREAD_COUNT ==> st.workers[t].done != st.hands[p]
    {
      InHandOnly(st, p);
    }
    assert st.pushed + [] == st.pushed;
  }

  lemma {:induction false} PushedWasAsked(st: State, steps: seq<Step>, drafts: map<nat, Request>)
    requires Inv(st) && Drafted(st, drafts) && Legal(st, steps)
    ensures Exec(st, steps).pushed == st.pushed + Asked(steps, drafts)
    decreases steps
  {
    hide Inv, Apply, Enabled, Drafted;
    if steps == [] {
      assert st.pushed + [] == st.pushed;
    } else {
      StepKeeps(st, steps[0]);
      StepKeepsDrafts(st, steps[0], drafts);
      var st', drafts' := Apply(st, steps[0]), DraftsAfter(steps[0], drafts);
      PushedWasAsked(st', steps[1..], drafts');
      var now := if steps[0].Push? then [drafts[steps[0].producer]] else [];
      assert (st.pushed + now) + Asked(steps[1..], drafts') == st.pushed + (now + Asked(steps[1..], drafts'));
      assert Asked(steps, drafts) == now + Asked(steps[1..], drafts');
    }
  }

  /** Per-session FIFO over every run: what has been handled for a session, then what is batched, then what is queued, is
      exactly what producers asked for it, session, header and data, in the order of the pushes. */
  lemma SessionOrder(producers: nat, steps: seq<Step>, s: Sid)
    requires Legal(Init(producers), steps)
    ensures var st, asked := Exec(Init(producers), steps), Asked(steps, map[]);
            && Shape(st) && st.pushed == asked
            && Only(st.handled, s) + InFlight(st, s) == Only(asked, s)
            && Only(st.handled, s) <= Only(asked, s)
  {
    hide Only, InFlight, Asked, Exec, Legal;
    InitOk(producers);
    RunKeeps(Init(producers), steps);
    PushedWasAsked(Init(producers), steps, map[]);
    assert [] + Asked(steps, map[]) == Asked(steps, map[]);
  }

  /** The Jobs a logic thread has in hand. */
  predicate InHandOf(w: Worker, j: JobId) {
    j in w.batch || w.done == Some(j)
  }

  /** Two logic threads never have Jobs of one session in hand. */
  lemma SessionExclusion(st: State, t: nat, u: nat, j: JobId, i: JobId)
    requires Reachable(st) && t < THREAD_COUNT && u < THREAD_COUNT && t != u && Shape(st)
    requires InHandOf(st.workers[t], j) && InHandOf(st.workers[u], i)
    ensures RequestOf(st.jobs, j).session != RequestOf(st.jobs, i).session
  {
    hide Owned, Ordered, PoolOk, ExitsOk, ThreadOf;
    ReachableOk(st);
    assert BelongsTo(st.jobs, j, t) && BelongsTo(st.jobs, i, u);
  }

  /** Every Job ever allocated is in exactly one place; the pool has no duplicates, respects its limit, and holds
      Jobs without session and data only. */
  lemma OneOwner(st: State, j: JobId)
    requires Reachable(st)
    ensures Copies(st, j) == if j in st.jobs then 1 else 0
    ensures |st.pool| <= 1000 && multiset(st.pool)[j] <= 1
    ensures j in st.pool ==> j in st.jobs && st.jobs[j].session == None && st.jobs[j].data == []
  {
    hide Ordered, Routed, ExitsOk;
    ReachableOk(st);
    assert multiset(st.pool)[j] <= Copies(st, j);
  }

  /** Taking, filling and returning Jobs never changes one that is queued or batched. */
  lemma RecyclingIsInvisible(st: State, step: Step, t: nat, j: JobId)
    requires Reachable(st) && Enabled(st, step) && t < THREAD_COUNT
    requires j in st.queues[t] || j in st.workers[t].batch
    ensures j in st.jobs && j in Apply(st, step).jobs && Apply(st, step).jobs[j] == st.jobs[j]
  {
    hide Ordered, PoolOk, ExitsOk, Copies;
    ReachableOk(st);
    assert BelongsTo(st.jobs, j, t);
    match step
    case Fill(p, _) => InHandOnly(st, p);
    case Recycle(u) => DoneOnly(st, u);
    case Take(p) => FreshIsNew(st);
    case _ =>
  }

  // ----- shutdown -----

  ghost predicate NothingLate(st: State)
    requires Shape(st)
  {
    forall t | 0 <= t < THREAD_COUNT :: st.late[t] == 0
  }

  ghost predicate AllHandled(st: State) {
    forall s: Sid :: Only(st.handled, s) == Only(st.pushed, s)
  }

  /** When every thread has left, every session has had all its requests handled, in order and once each, iff no
      request was pushed on the queue of a thread that had already left. */
  lemma ShutdownDrainsIff(st: State)
    requires Reachable(st) && Shape(st) && (forall t | 0 <= t < THREAD_COUNT :: st.workers[t].exited)
    ensures AllHandled(st) <==> NothingLate(st)
  {
    hide Only, Owned, PoolOk, ThreadOf;
    ReachableOk(st);
    if NothingLate(st) {
      NothingLeftBehind(st);
    } else {
      var t :| 0 <= t < THREAD_COUNT && st.late[t] != 0;
      assert st.queues[t] != [] && BelongsTo(st.jobs, st.queues[t][0], t);
      StrandedRequest(st, t);
      var s := st.jobs[st.queues[t][0]].session.value;
      assert Only(st.handled, s) + InFlight(st, s) == Only(st.pushed, s);
      assert |Only(st.handled, s)| < |Only(st.pushed, s)|;
    }
  }

  lemma NothingLeftBehind(st: State)
    requires Inv(st) && (forall t | 0 <= t < THREAD_COUNT :: st.workers[t].exited) && NothingLate(st)
    ensures AllHandled(st)
  {
    hide Only, Owned, PoolOk, ThreadOf;
    forall s: Sid
      ensures Only(st.handled, s) == Only(st.pushed, s)
    {
      NothingInFlight(st, s);
      assert Only(st.handled, s) + InFlight(st, s) == Only(st.pushed, s);
    }
  }

  lemma NothingInFlight(st: State, s: Sid)
    requires Shape(st)
    ensures st.workers[ThreadOf(s)].batch == [] && st.queues[ThreadOf(s)] == [] ==> InFlight(st, s) == []
  {
  }

  lemma StrandedRequest(st: State, t: nat)
    requires Shape(st) && t < THREAD_COUNT && st.queues[t] != [] && BelongsTo(st.jobs, st.queues[t][0], t)
    ensures InFlight(st, st.jobs[st.queues[t][0]].session.value) != []
  {
    hide ThreadOf;
    var j := st.queues[t][0];
    assert Requests(st.jobs, st.queues[t])[0] == RequestOf(st.jobs, j);
    assert Only(Requests(st.jobs, st.queues[t]), st.jobs[j].session.value) != [];
  }

  /** What is left to do, weighted by the steps it takes. */
  function Load(q: seq<JobId>, w: Worker): nat {
    3 * |q| + 2 * |w.batch| + if w.done.Some? then 1 else 0
  }

  function Loads(st: State): seq<nat>
    requires Shape(st)
  {
    seq(THREAD_COUNT, t requires 0 <= t < THREAD_COUNT => Load(st.queues[t], st.workers[t]))
  }

  function Work(st: State): nat
    requires Shape(st)
  {
    Sum(Loads(st))
  }

  predicate IsLogicStep(step: Step) {
    step.Drain? || step.Handle? || step.Recycle?
  }

  /** Every step of a logic thread brings the end nearer ... */
  lemma LogicStepsDecreaseWork(st: State, step: Step)
    requires Enabled(st, step) && IsLogicStep(step)
    ensures Work(Apply(st, step)) < Work(st)
  {
    hide Sum;
    var st', t := Apply(st, step), step.thread;
    var load := Load(st'.queues[t], st'.workers[t]);
    SumUpdate(Loads(st), t, load);
    assert Loads(st') == Loads(st)[t := load];
  }

  /** ... and while work is left and nothing came late, some logic thread can take one: shutdown cannot get stuck. */
  lemma WorkCanProceed(st: State)
    requires Reachable(st) && Shape(st) && Work(st) > 0 && NothingLate(st)
    ensures exists step :: IsLogicStep(step) && Enabled(st, step)
  {
    hide Inv, Work, Enabled;
    ReachableOk(st);
    var _ := SomeLogicStep(st);
  }

  lemma SomeLogicStep(st: State) returns (step: Step)
    requires Inv(st) && Work(st) > 0 && NothingLate(st)
    ensures IsLogicStep(step) && Enabled(st, step)
  {
    hide Owned, Ordered, Routed, PoolOk;
    if forall t | 0 <= t < THREAD_COUNT :: Loads(st)[t] == 0 {
      SumZeros(Loads(st));
      assert false;
    }
    var t :| 0 <= t < THREAD_COUNT && Loads(st)[t] != 0;
    step := if st.workers[t].done.Some? then Recycle(t) else if st.workers[t].batch != [] then Handle(t) else Drain(t);
  }

  // ----- a shutdown comes to its end -----

  /** Steps of the logic threads only. */
  predicate ThreadsOnly(steps: seq<Step>) {
    forall step :: step in steps ==> IsLogicStep(step) || step.Exit?
  }

  ghost predicate AllGone(st: State)
    requires Shape(st)
  {
    forall t | 0 <= t < THREAD_COUNT :: st.workers[t].exited
  }

  function Running(st: State): nat
    requires Shape(st)
  {
    Sum(seq(THREAD_COUNT, t requires 0 <= t < THREAD_COUNT => if st.workers[t].exited then 0 else 1))
  }

  lemma ExitDecreasesRunning(st: State, t: nat)
    requires Enabled(st, Exit(t))
    ensures Running(Apply(st, Exit(t))) < Running(st) && Work(Apply(st, Exit(t))) == Work(st)
  {
    hide Sum;
    var st' := Apply(st, Exit(t));
    var parts := seq(THREAD_COUNT, u requires 0 <= u < THREAD_COUNT => if st.workers[u].exited then 0 else 1);
    SumUpdate(parts, t, 0);
    assert parts[t := 0] == seq(THREAD_COUNT, u requires 0 <= u < THREAD_COUNT => if st'.workers[u].exited then 0 else 1);
    assert Loads(st') == Loads(st);
  }

  /** With no work left, a thread that is still there can leave. */
  lemma IdleThreadLeaves(st: State, t: nat)
    requires Shape(st) && st.stop && t < THREAD_COUNT && !st.workers[t].exited && Work(st) == 0
    ensures Enabled(st, Exit(t))
  {
    hide Sum;
    PartOfSum(Loads(st), t);
  }

  /** What one more step of a logic thread leaves as it was. */
  lemma ThreadStepKeeps(st: State, step: Step)
    requires Inv(st) && Enabled(st, step) && (IsLogicStep(step) || step.Exit?) && NothingLate(st)
    ensures var st' := Apply(st, step);
            Inv(st') && NothingLate(st') && st'.stop == st.stop && st'.pushed == st.pushed
  {
    hide Inv;
    StepKeeps(st, step);
  }

  /** Once stopped, with nothing come late, the logic threads can go on until all have left. */
  lemma {:induction false} ThreadsFinish(st: State) returns (steps: seq<Step>)
    requires Inv(st) && st.stop && NothingLate(st)
    ensures Legal(st, steps) && ThreadsOnly(steps)
    ensures var end := Exec(st, steps); Inv(end) && AllGone(end) && NothingLate(end) && end.pushed == st.pushed
    decreases Work(st), Running(st)
  {
    hide Owned, Ordered, Routed, PoolOk, ExitsOk, Work, Running, Apply, Enabled;
    if AllGone(st) {
      steps := [];
    } else {
      var t :| 0 <= t < THREAD_COUNT && !st.workers[t].exited;
      var step := Exit(t);
      if Work(st) > 0 {
        step := SomeLogicStep(st);
        LogicStepsDecreaseWork(st, step);
      } else {
        IdleThreadLeaves(st, t);
        ExitDecreasesRunning(st, t);
      }
      ThreadStepKeeps(st, step);
      var rest := ThreadsFinish(Apply(st, step));
      steps := [step] + rest;
      assert steps[1..] == rest;
    }
  }

  /** From every reachable state in which nothing came late, a shutdown can be followed by steps of the logic threads
      after which all have left and everything asked for has been handled. */
  lemma ShutdownCompletes(st: State) returns (steps: seq<Step>)
    requires Reachable(st) && Shape(st) && NothingLate(st)
    ensures ThreadsOnly(steps) && Legal(st, [Shutdown] + steps)
    ensures var end := Exec(st, [Shutdown] + steps); Shape(end) && AllGone(end) && AllHandled(end) && end.pushed == st.pushed
  {
    hide Owned, Ordered, Routed, PoolOk, ExitsOk;
    ReachableOk(st);
    var st1 := Apply(st, Shutdown);
    StepKeeps(st, Shutdown);
    steps := ThreadsFinish(st1);
    assert ([Shutdown] + steps)[1..] == steps;
    NothingLeftBehind(Exec(st1, steps));
  }
}
