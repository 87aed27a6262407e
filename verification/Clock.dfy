/** The server by the clock, in milliseconds: requests come at any time, and World::Update lets the time wheel catch up
    with the reading of the clock. */
module Clock {
  import opened Grid
  import opened Aoi
  import opened Ledger
  import opened TimeWheels
  import opened Servers
  import opened Invariants
  import opened Runs
  import opened Theorems
  import opened Death

  /** The server, and the lastTick of its time wheel. */
  datatype Timed = Timed(sv: Server, lastTick: int)

  datatype Event =
    | Request(step: Step)
    | Reading(clock: int)

  function Happen(cfg: Config, t: Timed, e: Event): (Timed, seq<Send>)
    requires e.Reading? ==> t.lastTick <= e.clock
  {
    match e
    case Request(step) =>
      var (sv, sends) := Apply(cfg, t.sv, step);
      (Timed(sv, t.lastTick), sends)
    case Reading(clock) =>
      var (sv, last, sends) := UpdateAt(cfg.area, t.sv, t.lastTick, clock);
      (Timed(sv, last), sends)
  }

  /** Requests are no ticks, and the clock does not run backwards behind the wheel. */
  predicate Possible(cfg: Config, t: Timed, e: Event) {
    match e
    case Request(step) => !step.DoTick? && Enabled(cfg, t.sv, step)
    case Reading(clock) => t.lastTick <= clock
  }

  predicate AllPossible(cfg: Config, t: Timed, es: seq<Event>)
    decreases es
  {
    es == [] || (Possible(cfg, t, es[0]) && AllPossible(cfg, Happen(cfg, t, es[0]).0, es[1..]))
  }

  function HappenAll(cfg: Config, t: Timed, es: seq<Event>): Timed
    requires AllPossible(cfg, t, es)
    decreases es
  {
    if es == [] then t else HappenAll(cfg, Happen(cfg, t, es[0]).0, es[1..])
  }

  // ----- ticks in a row -----

  lemma {:induction false} WaitThrough(cfg: Config, sv: Server, k: Known, n: nat, s: Sid, id: Pid, pos: Pos, due: int)
    returns (k': Known)
    requires Inv(cfg, sv, k) && Waiting(sv, s, id, pos, due) && sv.now + n < due
    ensures var (sv', sends) := TickMany(cfg.area, sv, n);
            && Inv(cfg, sv', k') && Waiting(sv', s, id, pos, due) && sv'.now == sv.now + n
            && forall x :: x in sends && x.packet.SRespawn? ==> x.packet.id != id
    decreases n
  {
    hide Inv, Waiting, Tick;
    k' := k;
    if n > 0 {
      var (sv1, s1) := Tick(cfg.area, sv);
      var k1 := Fold(k, sv1.world, s1);
      assert Apply(cfg, sv, DoTick) == (sv1, s1);
      StillWaiting(cfg, sv, k, DoTick, s, id, pos, due);
      StepKeeps(cfg, sv, k, DoTick);
      NoReturnWhileWaiting(cfg, sv, k, s, id, pos, due);
      k' := WaitThrough(cfg, sv1, k1, n - 1, s, id, pos, due);
    }
  }

  /** Only a respawn announces one. */
  lemma {:induction false} RespawnsAreFired(a: Area, w: World, rs: seq<Respawn>, x: Send)
    requires x in FireAll(a, w, rs).1 && x.packet.SRespawn?
    ensures exists r :: r in rs && Of(w, r.session).id == r.expectedId == x.packet.id && r.session in w.players
    decreases rs
  {
    var (w1, s1) := Fire(a, w, rs[0]);
    assert rs[0] in rs;
    if x in s1 {
      FireSays(a, w, rs[0], x);
    } else {
      RespawnsAreFired(a, w1, rs[1..], x);
      var r :| r in rs[1..] && Of(w1, r.session).id == r.expectedId == x.packet.id && r.session in w1.players;
      assert r in rs && Of(w1, r.session) == Of(w, r.session);
    }
  }

  lemma FireSays(a: Area, w: World, r: Respawn, x: Send)
    requires x in Fire(a, w, r).1
    ensures r.session in w.players && Of(w, r.session).id == r.expectedId && x.packet == SRespawn(r.expectedId, Of(w, r.session).pos)
  {
    hide GetGridPos, InOrder;
    ToAllIs(InOrder(At(w.grids, CellOf(a, w, r.session))), SRespawn(Of(w, r.session).id, Of(w, r.session).pos));
  }

  lemma NoReturnWhileWaiting(cfg: Config, sv: Server, k: Known, s: Sid, id: Pid, pos: Pos, due: int)
    requires Inv(cfg, sv, k) && Waiting(sv, s, id, pos, due) && sv.now + 1 < due
    ensures forall x :: x in Tick(cfg.area, sv).1 && x.packet.SRespawn? ==> x.packet.id != id
  {
    hide GetGridPos, IndexInv, LedgerOk, IdsOk;
    var w, rs := sv.world, Due(sv.timers, sv.now + 1);
    forall x | x in Tick(cfg.area, sv).1 && x.packet.SRespawn?
      ensures x.packet.id != id
    {
      RespawnsAreFired(cfg.area, w, rs, x);
      var r :| r in rs && Of(w, r.session).id == r.expectedId == x.packet.id && r.session in w.players;
      if r.expectedId == id {
        assert InWorld(w, r.session) && InWorld(w, s) && r == Respawn(s, id);
        TwoPending(sv, r, due);
      }
    }
  }

  lemma PendingTwice(timers: Timers, r: Respawn, d: int, e: int)
    requires Entry(d, r) in timers && r in Due(timers, e) && d != e
    ensures Pending(timers)[r] >= 2
  {
    PendingSplit(timers, e);
    NotDueMembers(timers, e, Entry(d, r));
    PendingMembers(NotDue(timers, e), r);
  }

  /** A player that waits for one tick is not due at an earlier one. */
  lemma TwoPending(sv: Server, r: Respawn, due: int)
    requires TimersOk(sv) && r.session in sv.world.players && r.expectedId == Of(sv.world, r.session).id
    requires Entry(due, r) in sv.timers && r in Due(sv.timers, sv.now + 1)
    ensures due == sv.now + 1
  {
    hide Pending, Due;
    assert r == Respawn(r.session, Of(sv.world, r.session).id) && Pending(sv.timers)[r] <= 1;
    if due != sv.now + 1 {
      PendingTwice(sv.timers, r, due, sv.now + 1);
    }
  }

  lemma {:induction false} AliveThrough(cfg: Config, sv: Server, k: Known, n: nat, s: Sid)
    requires Inv(cfg, sv, k) && Alive(sv.world, s)
    ensures Alive(TickMany(cfg.area, sv, n).0.world, s)
    decreases n
  {
    hide Inv, Tick, Alive;
    if n > 0 {
      var (sv1, s1) := Tick(cfg.area, sv);
      InvTimers(cfg, sv, k);
      TicksDoNotKill(cfg.area, sv, s);
      StepKeeps(cfg, sv, k, DoTick);
      AliveThrough(cfg, sv1, Fold(k, sv1.world, s1), n - 1, s);
    }
  }

  lemma InvTimers(cfg: Config, sv: Server, k: Known)
    requires Inv(cfg, sv, k)
    ensures TimersOk(sv)
  {
  }

  lemma {:induction false} ReturnWithin(cfg: Config, sv: Server, k: Known, n: nat, s: Sid, id: Pid, pos: Pos, due: int)
    requires Inv(cfg, sv, k) && Waiting(sv, s, id, pos, due) && due <= sv.now + n
    ensures var (sv', sends) := TickMany(cfg.area, sv, n);
            Alive(sv'.world, s) && Send(s, SRespawn(id, pos)) in sends
    decreases n
  {
    hide Inv, Tick;
    WaitingIsDead(cfg, sv, k, s, id, pos, due);
    var (sv1, s1) := Tick(cfg.area, sv);
    var k1 := Fold(k, sv1.world, s1);
    assert Apply(cfg, sv, DoTick) == (sv1, s1);
    StepKeeps(cfg, sv, k, DoTick);
    if due == sv.now + 1 {
      RevivedWhenDue(cfg, sv, k, s, id, pos);
      AliveThrough(cfg, sv1, k1, n - 1, s);
    } else {
      StillWaiting(cfg, sv, k, DoTick, s, id, pos, due);
      ReturnWithin(cfg, sv1, k1, n - 1, s, id, pos, due);
    }
  }

  // ----- by the clock -----

  /** s waits, and is to come back when the wheel reaches `at` on the clock. */
  ghost predicate WaitingUntil(cfg: Config, t: Timed, s: Sid, id: Pid, pos: Pos, at: int) {
    exists k, due :: Inv(cfg, t.sv, k) && Waiting(t.sv, s, id, pos, due) && at == t.lastTick + 100 * (due - t.sv.now)
  }

  lemma ReadingDecides(cfg: Config, t: Timed, s: Sid, id: Pid, pos: Pos, at: int, clock: int)
    requires WaitingUntil(cfg, t, s, id, pos, at) && t.lastTick <= clock
    ensures var (t', sends) := Happen(cfg, t, Reading(clock));
            if clock < at
            then WaitingUntil(cfg, t', s, id, pos, at) && forall x :: x in sends && x.packet.SRespawn? ==> x.packet.id != id
            else Alive(t'.sv.world, s) && Send(s, SRespawn(id, pos)) in sends
  {
    hide Inv, Waiting, Alive, TickMany;
    var k, due :| Inv(cfg, t.sv, k) && Waiting(t.sv, s, id, pos, due) && at == t.lastTick + 100 * (due - t.sv.now);
    var n := (clock - t.lastTick) / WHEEL_TICK;
    if clock < at {
      var k' := WaitThrough(cfg, t.sv, k, n, s, id, pos, due);
      var sv' := TickMany(cfg.area, t.sv, n).0;
      assert Inv(cfg, sv', k');
      assert at == t.lastTick + n * 100 + 100 * (due - sv'.now);
    } else {
      ReturnWithin(cfg, t.sv, k, n, s, id, pos, due);
    }
  }

  lemma RequestWaits(cfg: Config, t: Timed, s: Sid, id: Pid, pos: Pos, at: int, step: Step)
    requires WaitingUntil(cfg, t, s, id, pos, at) && Possible(cfg, t, Request(step)) && step != DoDisconnect(s)
    ensures WaitingUntil(cfg, Happen(cfg, t, Request(step)).0, s, id, pos, at)
  {
    hide Inv, Waiting, Apply, Enabled;
    var k, due :| Inv(cfg, t.sv, k) && Waiting(t.sv, s, id, pos, due) && at == t.lastTick + 100 * (due - t.sv.now);
    var (sv', sends) := Apply(cfg, t.sv, step);
    StillWaiting(cfg, t.sv, k, step, s, id, pos, due);
    StepKeeps(cfg, t.sv, k, step);
    assert Inv(cfg, sv', Fold(k, sv'.world, sends));
  }

  /** The events leave session s connected, and read the clock before `at` only. */
  predicate Before(es: seq<Event>, s: Sid, at: int) {
    forall e :: e in es ==> e != Request(DoDisconnect(s)) && (e.Reading? ==> e.clock < at)
  }

  lemma {:induction false} WaitsOn(cfg: Config, t: Timed, es: seq<Event>, s: Sid, id: Pid, pos: Pos, at: int)
    requires WaitingUntil(cfg, t, s, id, pos, at) && AllPossible(cfg, t, es) && Before(es, s, at)
    ensures WaitingUntil(cfg, HappenAll(cfg, t, es), s, id, pos, at)
    decreases es
  {
    hide WaitingUntil, Happen, Enabled;
    if es != [] {
      assert es[0] in es && forall e :: e in es[1..] ==> e in es;
      match es[0] {
        case Request(step) => RequestWaits(cfg, t, s, id, pos, at, step);
        case Reading(clock) => ReadingWaits(cfg, t, s, id, pos, at, clock);
      }
      WaitsOn(cfg, Happen(cfg, t, es[0]).0, es[1..], s, id, pos, at);
    }
  }

  lemma ReadingWaits(cfg: Config, t: Timed, s: Sid, id: Pid, pos: Pos, at: int, clock: int)
    requires WaitingUntil(cfg, t, s, id, pos, at) && Possible(cfg, t, Reading(clock)) && clock < at
    ensures WaitingUntil(cfg, Happen(cfg, t, Reading(clock)).0, s, id, pos, at)
  {
    hide WaitingUntil, Happen;
    ReadingDecides(cfg, t, s, id, pos, at, clock);
  }

  /** A player that dies in a reachable state whose wheel stands at lastTick comes back at lastTick + 5000 ms: after any events that
      leave it connected and read the clock before that, an update revives it, and tells it the position where it died,
      iff it reads at least lastTick + 5000. */
  lemma RespawnByTheClock(cfg: Config, sv: Server, k: Known, lastTick: int, kill: Step, s: Sid, es: seq<Event>, clock: int)
    requires Reachable(cfg, sv, k) && Enabled(cfg, sv, kill) && Alive(sv.world, s) && Dead(Apply(cfg, sv, kill).0.world, s)
    requires var t := Timed(Apply(cfg, sv, kill).0, lastTick);
             AllPossible(cfg, t, es) && Before(es, s, lastTick + 5000) && HappenAll(cfg, t, es).lastTick <= clock
    ensures var t := HappenAll(cfg, Timed(Apply(cfg, sv, kill).0, lastTick), es);
            var (t', sends) := Happen(cfg, t, Reading(clock));
            && Dead(t.sv.world, s) && Of(t.sv.world, s).pos == Of(sv.world, s).pos
            && (Alive(t'.sv.world, s) <==> clock >= lastTick + 5000)
            && (Send(s, SRespawn(Of(sv.world, s).id, Of(sv.world, s).pos)) in sends <==> clock >= lastTick + 5000)
  {
    hide Inv, Apply, Enabled, Alive, Happen, HappenAll, AllPossible;
    var (sv1, sends1) := Apply(cfg, sv, kill);
    var id, pos, t0 := Of(sv.world, s).id, Of(sv.world, s).pos, Timed(sv1, lastTick);
    ReachableOk(cfg, sv, k);
    StepKeeps(cfg, sv, k, kill);
    DiesInOneTick(cfg, sv, k, kill, s);
    assert Inv(cfg, sv1, Fold(k, sv1.world, sends1)) && Waiting(sv1, s, id, pos, sv.now + 50);
    assert WaitingUntil(cfg, t0, s, id, pos, lastTick + 5000);
    WaitsOn(cfg, t0, es, s, id, pos, lastTick + 5000);
    var t := HappenAll(cfg, t0, es);
    UntilIsDead(cfg, t, s, id, pos, lastTick + 5000);
    ReadingDecides(cfg, t, s, id, pos, lastTick + 5000, clock);
    if clock < lastTick + 5000 {
      UntilIsDead(cfg, Happen(cfg, t, Reading(clock)).0, s, id, pos, lastTick + 5000);
    }
  }

  lemma DiesInOneTick(cfg: Config, sv: Server, k: Known, kill: Step, s: Sid)
    requires Inv(cfg, sv, k) && Enabled(cfg, sv, kill) && Alive(sv.world, s) && Dead(Apply(cfg, sv, kill).0.world, s)
    ensures Waiting(Apply(cfg, sv, kill).0, s, Of(sv.world, s).id, Of(sv.world, s).pos, sv.now + 50)
    ensures Apply(cfg, sv, kill).0.now == sv.now
  {
    hide Inv, Apply, Enabled;
    DeathSchedules(cfg, sv, k, kill, s);
  }

  lemma UntilIsDead(cfg: Config, t: Timed, s: Sid, id: Pid, pos: Pos, at: int)
    requires WaitingUntil(cfg, t, s, id, pos, at)
    ensures Dead(t.sv.world, s) && !Alive(t.sv.world, s) && Of(t.sv.world, s).pos == pos
  {
    hide Inv;
    var k, due :| Inv(cfg, t.sv, k) && Waiting(t.sv, s, id, pos, due) && at == t.lastTick + 100 * (due - t.sv.now);
    WaitingIsDead(cfg, t.sv, k, s, id, pos, due);
  }
}
