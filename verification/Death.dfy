/** Death and respawn over whole runs. */
module Death {
  import opened Grid
  import opened Aoi
  import opened Ledger
  import opened TimeWheels
  import opened Servers
  import opened Invariants
  import opened Runs
  import opened Theorems

  predicate Dead(w: World, s: Sid) {
    s in w.players && w.players[s].hp == 0
  }

  /** In every reachable state HP is between 0 and 100, and the number of pending respawns carrying the session and
      current id of a player is 1 if it is dead and 0 otherwise. */
  lemma OnePendingRespawnPerDead(cfg: Config, sv: Server, k: Known, s: Sid)
    requires Reachable(cfg, sv, k) && s in sv.world.players
    ensures 0 <= sv.world.players[s].hp <= 100 && sv.world.players[s].maxHp == 100
    ensures Pending(sv.timers)[Respawn(s, Of(sv.world, s).id)] == if Dead(sv.world, s) then 1 else 0
  {
    ReachableOk(cfg, sv, k);
  }

  /** Timers that carry another session or a stale id never change a player. */
  lemma {:induction false} OnlyItsOwnTimerChangesAPlayer(a: Area, w: World, rs: seq<Respawn>, s: Sid)
    requires Respawn(s, Of(w, s).id) !in rs
    ensures var w' := FireAll(a, w, rs).0;
            (s in w'.players <==> s in w.players) && (s in w.players ==> w'.players[s] == w.players[s])
    decreases rs
  {
    if rs != [] {
      var w1 := Fire(a, w, rs[0]).0;
      assert rs[0] in rs && Of(w1, s) == Of(w, s);
      OnlyItsOwnTimerChangesAPlayer(a, w1, rs[1..], s);
    }
  }

  // ----- death schedules the respawn -----

  /** Nothing but an attack kills. */
  lemma OnlyAttacksKill(cfg: Config, sv: Server, k: Known, step: Step, s: Sid)
    requires Inv(cfg, sv, k) && !step.DoAttack? && Alive(sv.world, s)
    ensures !Dead(Apply(cfg, sv, step).0.world, s)
  {
    match step
    case DoTick => TicksDoNotKill(cfg.area, sv, s);
    case DoLogin(t) =>
    case DoEnter(t, x, y) =>
    case DoMove(t, p) =>
    case DoDisconnect(t) =>
      assert Disconnect(cfg.area, sv, t).0.world.players == sv.world.players - {t};
  }

  lemma TicksDoNotKill(a: Area, sv: Server, s: Sid)
    requires TimersOk(sv) && Alive(sv.world, s)
    ensures Alive(Tick(a, sv).0.world, s)
  {
    TickStep(a, sv);
    PendingSplit(sv.timers, sv.now + 1);
    FewerPending(sv.world, Tick(a, sv).0.world, Pending(sv.timers), multiset(Due(sv.timers, sv.now + 1)),
                 Pending(NotDue(sv.timers, sv.now + 1)), s);
  }

  lemma FewerPending(w: World, w': World, before: multiset<Respawn>, gone: multiset<Respawn>, after: multiset<Respawn>, s: Sid)
    requires before == gone + after && SameButHp(w, w') && HpOk(w, before) && HpOk(w', after) && Alive(w, s)
    ensures Alive(w', s)
  {
    assert s in w'.players.Keys && Of(w', s) == Of(w, s);
  }

  /** A step in which a player dies leaves its respawn due 50 ticks later. */
  lemma DeathSchedules(cfg: Config, sv: Server, k: Known, step: Step, s: Sid)
    requires Inv(cfg, sv, k) && Enabled(cfg, sv, step)
    requires Alive(sv.world, s) && Dead(Apply(cfg, sv, step).0.world, s)
    ensures var sv' := Apply(cfg, sv, step).0;
            && Entry(sv.now + WHEEL_SIZE, Respawn(s, Of(sv.world, s).id)) in sv'.timers
            && Of(sv'.world, s) == Of(sv.world, s) && sv'.now == sv.now
  {
    if step.DoAttack? {
      var sv' := Attack(cfg, sv, step.s, step.kind, step.targetId).0;
      var r := Respawn(s, Of(sv.world, s).id);
      AttackStep(cfg, sv, step.s, step.kind, step.targetId);
      assert Of(sv'.world, s) == Of(sv.world, s);
      PendingMembers(sv.timers, r);
      PendingMembers(sv'.timers, r);
      var e :| e in sv'.timers && e.callback == r;
      assert e == Entry(sv.now + WHEEL_SIZE, r);
    } else {
      OnlyAttacksKill(cfg, sv, k, step, s);
    }
  }

  // ----- the dead wait -----

  /** Session s, carrying `id` at `pos`, is to be revived at tick `due`. */
  ghost predicate Waiting(sv: Server, s: Sid, id: Pid, pos: Pos, due: int) {
    && s in sv.world.players
    && Of(sv.world, s).id == id && Of(sv.world, s).pos == pos
    && Entry(due, Respawn(s, id)) in sv.timers
  }

  lemma WaitingIsDead(cfg: Config, sv: Server, k: Known, s: Sid, id: Pid, pos: Pos, due: int)
    requires Inv(cfg, sv, k) && Waiting(sv, s, id, pos, due)
    ensures Dead(sv.world, s) && sv.now < due
  {
    PendingMembers(sv.timers, Respawn(s, id));
  }

  /** Neither moves nor attacks of this session have any effect or answer. */
  ghost predicate Ignored(cfg: Config, sv: Server, s: Sid)
  {
    && (forall p :: Apply(cfg, sv, DoMove(s, p)) == (sv, []))
    && (forall kind, id :: Apply(cfg, sv, DoAttack(s, kind, id)) == (sv, []))
  }

  lemma DeadAreIgnored(cfg: Config, sv: Server, s: Sid)
    requires Dead(sv.world, s)
    ensures Ignored(cfg, sv, s)
  {
    forall p
      ensures Apply(cfg, sv, DoMove(s, p)) == (sv, [])
    {
    }
    forall kind, id
      ensures Apply(cfg, sv, DoAttack(s, kind, id)) == (sv, [])
    {
    }
  }

  /** Until its tick comes, nothing but a disconnect ends the wait or moves the player. */
  lemma StillWaiting(cfg: Config, sv: Server, k: Known, step: Step, s: Sid, id: Pid, pos: Pos, due: int)
    requires Inv(cfg, sv, k) && Enabled(cfg, sv, step)
    requires Waiting(sv, s, id, pos, due) && step != DoDisconnect(s) && (step.DoTick? ==> sv.now + 1 != due)
    ensures Waiting(Apply(cfg, sv, step).0, s, id, pos, due)
    ensures Apply(cfg, sv, step).0.now == sv.now + if step.DoTick? then 1 else 0
  {
    hide GetGridPos, Fold, Attack, Moved, Due, NotDue, FireAll;
    WaitingIsDead(cfg, sv, k, s, id, pos, due);
    match step {
      case DoAttack(t, kind, target) =>
        AttackStep(cfg, sv, t, kind, target);
      case DoTick =>
        TickStep(cfg.area, sv);
        NotDueMembers(sv.timers, sv.now + 1, Entry(due, Respawn(s, id)));
      case DoLogin(t) =>
        assert InWorld(sv.world, s);
      case DoEnter(t, x, y) =>
        assert InWorld(sv.world, s);
      case DoMove(t, p) =>
        MovedParts(cfg.area, sv.world, t, p);
      case DoDisconnect(t) =>
        DisconnectWorld(cfg.area, sv, t);
    }
  }

  // ----- the respawn itself -----

  lemma {:induction false} FullStaysFull(a: Area, w: World, rs: seq<Respawn>, s: Sid)
    requires s in w.players && w.players[s].hp == w.players[s].maxHp
    ensures s in FireAll(a, w, rs).0.players
    ensures FireAll(a, w, rs).0.players[s] == w.players[s]
    decreases rs
  {
    if rs != [] {
      FullStaysFull(a, Fire(a, w, rs[0]).0, rs[1..], s);
    }
  }

  lemma {:induction false} FireAllRevives(a: Area, w: World, rs: seq<Respawn>, s: Sid)
    requires s in w.players && Respawn(s, Of(w, s).id) in rs
    ensures var (w', sends) := FireAll(a, w, rs);
            && s in w'.players && w'.players[s] == Vitals(w.players[s].maxHp, w.players[s].maxHp)
            && Send(s, SRespawn(Of(w, s).id, Of(w, s).pos)) in sends
    decreases rs
  {
    var (w1, s1) := Fire(a, w, rs[0]);
    assert Of(w1, s) == Of(w, s);
    if rs[0] == Respawn(s, Of(w, s).id) {
      FullStaysFull(a, w1, rs[1..], s);
      assert s1[0] == Send(s, SRespawn(Of(w, s).id, Of(w, s).pos));
    } else {
      assert rs == [rs[0]] + rs[1..];
      FireAllRevives(a, w1, rs[1..], s);
    }
  }

  lemma {:induction false} DueMembers(timers: Timers, d: int, r: Respawn)
    ensures r in Due(timers, d) <==> Entry(d, r) in timers
  {
    if timers != [] {
      DueMembers(timers[1..], d, r);
      assert timers == [timers[0]] + timers[1..];
    }
  }

  /** At its tick the player is back at full HP, and is told the position it had while it waited. */
  lemma RevivedWhenDue(cfg: Config, sv: Server, k: Known, s: Sid, id: Pid, pos: Pos)
    requires Inv(cfg, sv, k) && Waiting(sv, s, id, pos, sv.now + 1)
    ensures var (sv', sends) := Apply(cfg, sv, DoTick);
            && s in sv'.world.players && sv'.world.players[s].hp == FULL_HP
            && Of(sv'.world, s).pos == pos
            && Send(s, SRespawn(id, pos)) in sends
  {
    var rs := Due(sv.timers, sv.now + 1);
    DueMembers(sv.timers, sv.now + 1, Respawn(s, id));
    FireAllRevives(cfg.area, sv.world, rs, s);
    assert Tick(cfg.area, sv).0.world == FireAll(cfg.area, sv.world, rs).0;
    FireAllSessions(cfg.area, sv.world, rs);
  }

  lemma {:induction false} FireAllSessions(a: Area, w: World, rs: seq<Respawn>)
    ensures FireAll(a, w, rs).0.ses == w.ses
    decreases rs
  {
    if rs != [] {
      FireAllSessions(a, Fire(a, w, rs[0]).0, rs[1..]);
    }
  }

  lemma {:induction false} WaitOut(cfg: Config, sv: Server, k: Known, steps: seq<Step>, s: Sid, id: Pid, pos: Pos, due: int)
    requires Inv(cfg, sv, k) && Legal(cfg, sv, steps)
    requires Waiting(sv, s, id, pos, due) && DoDisconnect(s) !in steps && sv.now + Ticks(steps) < due
    ensures var (sv', k') := Exec(cfg, sv, k, steps);
            Inv(cfg, sv', k') && Waiting(sv', s, id, pos, due) && sv'.now == sv.now + Ticks(steps)
    decreases steps
  {
    if steps != [] {
      var (sv1, sends) := Apply(cfg, sv, steps[0]);
      assert steps[0] in steps;
      StillWaiting(cfg, sv, k, steps[0], s, id, pos, due);
      StepKeeps(cfg, sv, k, steps[0]);
      WaitOut(cfg, sv1, Fold(k, sv1.world, sends), steps[1..], s, id, pos, due);
    }
  }

  /** A player killed by a step waits through any continuation of fewer than 50 ticks. */
  lemma KilledThenWaits(cfg: Config, sv: Server, k: Known, kill: Step, s: Sid, steps: seq<Step>)
    requires Inv(cfg, sv, k) && Enabled(cfg, sv, kill)
    requires Alive(sv.world, s) && Dead(Apply(cfg, sv, kill).0.world, s)
    requires Legal(cfg, Apply(cfg, sv, kill).0, steps) && DoDisconnect(s) !in steps && Ticks(steps) < 50
    ensures var (sv1, sends) := Apply(cfg, sv, kill);
            var (sv2, k2) := Exec(cfg, sv1, Fold(k, sv1.world, sends), steps);
            && Inv(cfg, sv2, k2) && sv2.now == sv.now + Ticks(steps)
            && Waiting(sv2, s, Of(sv.world, s).id, Of(sv.world, s).pos, sv.now + 50)
  {
    var (sv1, sends) := Apply(cfg, sv, kill);
    StepKeeps(cfg, sv, k, kill);
    DeathSchedules(cfg, sv, k, kill, s);
    WaitOut(cfg, sv1, Fold(k, sv1.world, sends), steps, s, Of(sv.world, s).id, Of(sv.world, s).pos, sv.now + 50);
  }

  /** The state of a run after the killing step and the steps that follow it. */
  function After(cfg: Config, sv: Server, kill: Step, steps: seq<Step>): Server
  {
    var (sv1, sends) := Apply(cfg, sv, kill);
    Exec(cfg, sv1, {}, steps).0
  }

  lemma {:induction false} LedgerIsPassive(cfg: Config, sv: Server, k: Known, k': Known, steps: seq<Step>)
    ensures Exec(cfg, sv, k, steps).0 == Exec(cfg, sv, k', steps).0
    decreases steps
  {
    if steps != [] {
      var (sv1, sends) := Apply(cfg, sv, steps[0]);
      LedgerIsPassive(cfg, sv1, Fold(k, sv1.world, sends), Fold(k', sv1.world, sends), steps[1..]);
    }
  }

  /** From any reachable state: a player killed by a step stays dead and in place through every
      continuation of fewer than 50 ticks in which it does not disconnect, its own moves and attacks
      all being dropped ... */
  lemma DeadAndFrozen(cfg: Config, sv: Server, k: Known, kill: Step, s: Sid, steps: seq<Step>)
    requires Reachable(cfg, sv, k) && Enabled(cfg, sv, kill)
    requires Alive(sv.world, s) && Dead(Apply(cfg, sv, kill).0.world, s)
    requires Legal(cfg, Apply(cfg, sv, kill).0, steps) && DoDisconnect(s) !in steps && Ticks(steps) < 50
    ensures var sv2 := After(cfg, sv, kill, steps);
            && Dead(sv2.world, s) && Of(sv2.world, s).pos == Of(sv.world, s).pos
            && Ignored(cfg, sv2, s)
  {
    var (sv1, sends) := Apply(cfg, sv, kill);
    var k1 := Fold(k, sv1.world, sends);
    ReachableOk(cfg, sv, k);
    KilledThenWaits(cfg, sv, k, kill, s, steps);
    LedgerIsPassive(cfg, sv1, {}, k1, steps);
    var (sv2, k2) := Exec(cfg, sv1, k1, steps);
    WaitingIsDead(cfg, sv2, k2, s, Of(sv.world, s).id, Of(sv.world, s).pos, sv.now + 50);
    DeadAreIgnored(cfg, sv2, s);
  }

  /** ... and the 50th tick revives it, announcing the very position at which it died. */
  lemma RespawnOnTheFiftiethTick(cfg: Config, sv: Server, k: Known, kill: Step, s: Sid, steps: seq<Step>)
    requires Reachable(cfg, sv, k) && Enabled(cfg, sv, kill)
    requires Alive(sv.world, s) && Dead(Apply(cfg, sv, kill).0.world, s)
    requires Legal(cfg, Apply(cfg, sv, kill).0, steps) && DoDisconnect(s) !in steps && Ticks(steps) == 49
    ensures var (sv3, out) := Apply(cfg, After(cfg, sv, kill, steps), DoTick);
            && s in sv3.world.players && sv3.world.players[s].hp == 100
            && Send(s, SRespawn(Of(sv.world, s).id, Of(sv.world, s).pos)) in out
  {
    var (sv1, sends) := Apply(cfg, sv, kill);
    var k1 := Fold(k, sv1.world, sends);
    ReachableOk(cfg, sv, k);
    KilledThenWaits(cfg, sv, k, kill, s, steps);
    LedgerIsPassive(cfg, sv1, {}, k1, steps);
    var (sv2, k2) := Exec(cfg, sv1, k1, steps);
    RevivedWhenDue(cfg, sv2, k2, s, Of(sv.world, s).id, Of(sv.world, s).pos);
  }
}
