/** What every step of the server keeps, and hence what holds in every reachable state. */
module Invariants {
  import opened Grid
  import opened Aoi
  import opened Ledger
  import opened TimeWheels
  import opened Servers

  // ----- the invariant -----

  /** Sessions in the game, sessions with a player and sessions in the world are the same. */
  ghost predicate WorldOk(a: Area, w: World)
  {
    && IndexInv(a, w)
    && (forall s :: s in w.players <==> InWorld(w, s))
    && (forall s :: Of(w, s).state == GAME <==> InWorld(w, s))
  }

  /** The id of a session in the lobby is fresh: nothing the server has said or scheduled names it. */
  ghost predicate FreshId(w: World, k: Known, timers: Timers, id: Pid) {
    && id !in w.sessions
    && (forall pair :: pair in k ==> pair.0 != id && pair.1 != id)
    && (forall e :: e in timers ==> e.callback.expectedId != id)
  }

  ghost predicate IdsOk(sv: Server, k: Known) {
    var w := sv.world;
    && (forall id :: id in w.sessions ==> id < sv.nextId)
    && (forall pair :: pair in k ==> pair.0 < sv.nextId && pair.1 < sv.nextId)
    && (forall e :: e in sv.timers ==> e.callback.expectedId < sv.nextId)
    && (forall s :: Of(w, s).state == LOBBY ==> Of(w, s).id < sv.nextId && FreshId(w, k, sv.timers, Of(w, s).id))
    && (forall s, t :: Of(w, s).state == LOBBY && Of(w, t).state == LOBBY && s != t ==> Of(w, s).id != Of(w, t).id)
  }

  /** Whoever knows somebody is known back, and their cells are within twice the vision range. */
  ghost predicate LedgerOk(a: Area, w: World, k: Known)
  {
    forall p, o :: InWorld(w, p) && InWorld(w, o) && (Of(w, p).id, Of(w, o).id) in k ==>
      (Of(w, o).id, Of(w, p).id) in k && Near(CellOf(a, w, p), CellOf(a, w, o), 2 * a.vision)
  }

  function Pending(timers: Timers): multiset<Respawn> {
    if timers == [] then multiset{} else multiset{timers[0].callback} + Pending(timers[1..])
  }

  /** HP is in range, and a player has one pending respawn carrying its session and id if it is dead
      and none otherwise. */
  ghost predicate HpOk(w: World, pending: multiset<Respawn>) {
    forall s :: s in w.players ==>
      && w.players[s].maxHp == FULL_HP
      && 0 <= w.players[s].hp <= FULL_HP
      && pending[Respawn(s, Of(w, s).id)] == if w.players[s].hp == 0 then 1 else 0
  }

  ghost predicate TimersOk(sv: Server) {
    && HpOk(sv.world, Pending(sv.timers))
    && (forall e :: e in sv.timers ==> sv.now < e.due <= sv.now + WHEEL_SIZE)
  }

  ghost predicate Inv(cfg: Config, sv: Server, k: Known)
  {
    WorldOk(cfg.area, sv.world) && IdsOk(sv, k) && LedgerOk(cfg.area, sv.world, k) && TimersOk(sv)
  }

  // ----- pending timers -----

  lemma {:induction false} PendingAppend(t1: Timers, t2: Timers)
    ensures Pending(t1 + t2) == Pending(t1) + Pending(t2)
  {
    if t1 == [] {
      assert t1 + t2 == t2;
    } else {
      assert (t1 + t2)[1..] == t1[1..] + t2;
      PendingAppend(t1[1..], t2);
    }
  }

  lemma Regroup(x: multiset<Respawn>, y: multiset<Respawn>, z: multiset<Respawn>)
    ensures x + (y + z) == (x + y) + z == y + (x + z)
  {
  }

  lemma {:induction false} PendingSplit(timers: Timers, d: int)
    ensures Pending(timers) == multiset(Due(timers, d)) + Pending(NotDue(timers, d))
  {
    if timers != [] {
      var later, kept := Due(timers[1..], d), NotDue(timers[1..], d);
      var first := multiset{timers[0].callback};
      PendingSplit(timers[1..], d);
      Regroup(first, multiset(later), Pending(kept));
      if timers[0].due == d {
        assert multiset(Due(timers, d)) == first + multiset(later);
        assert NotDue(timers, d) == kept;
      } else {
        assert Due(timers, d) == later;
        var rest := [timers[0]] + kept;
        assert NotDue(timers, d) == rest && rest[1..] == kept;
        assert Pending(rest) == first + Pending(kept);
      }
    }
  }

  lemma {:induction false} PendingMembers(timers: Timers, r: Respawn)
    ensures r in Pending(timers) <==> exists e :: e in timers && e.callback == r
  {
    if timers != [] {
      PendingMembers(timers[1..], r);
      assert timers == [timers[0]] + timers[1..];
      assert timers[0] in timers;
    }
  }

  // ----- combat leaves the index and the ledger alone -----

  ghost predicate SameButHp(w: World, w': World) {
    w' == w.(players := w'.players) && w'.players.Keys == w.players.Keys
  }

  ghost predicate Silent(sends: seq<Send>) {
    forall i :: 0 <= i < |sends| ==> !IsNotice(sends[i].packet)
  }

  lemma SilentBroadcast(a: Area, w: World, s: Sid, p: Packet)
    requires !IsNotice(p)
    ensures Silent(Broadcast(a, w, s, p))
  {
    ToAllIs(InOrder(At(w.grids, CellOf(a, w, s))), p);
  }

  /** The index and the ledger speak about the sessions in the world only. */
  ghost predicate SameSessions(w: World, w': World) {
    && w'.grids == w.grids && w'.sessions == w.sessions
    && (forall s :: InWorld(w, s) ==> Of(w', s).id == Of(w, s).id && Of(w', s).pos == Of(w, s).pos)
    && (forall s :: InWorld(w', s) <==> InWorld(w, s))
  }

  lemma SameSessionsIndex(a: Area, w: World, w': World)
    requires IndexInv(a, w) && SameSessions(w, w')
    ensures IndexInv(a, w')
  {
    forall c, s | c in w'.grids
      ensures s in w'.grids[c] <==> InWorld(w', s) && Near(c, CellOf(a, w', s), a.vision)
    {
      assert s in w.grids[c] <==> InWorld(w, s) && Near(c, CellOf(a, w, s), a.vision);
      assert InWorld(w, s) ==> CellOf(a, w', s) == CellOf(a, w, s);
    }
    forall p | p in w'.sessions
      ensures Of(w', w'.sessions[p]).id == p
    {
      assert InWorld(w, w.sessions[p]);
    }
  }

  lemma SameSessionsLedger(a: Area, w: World, w': World, k: Known)
    requires LedgerOk(a, w, k) && SameSessions(w, w')
    ensures LedgerOk(a, w', k)
  {
    forall p, o | InWorld(w', p) && InWorld(w', o) && (Of(w', p).id, Of(w', o).id) in k
      ensures (Of(w', o).id, Of(w', p).id) in k && Near(CellOf(a, w', p), CellOf(a, w', o), 2 * a.vision)
    {
      assert InWorld(w, p) && InWorld(w, o);
      assert CellOf(a, w', p) == CellOf(a, w, p) && CellOf(a, w', o) == CellOf(a, w, o);
    }
  }

  lemma SameButHpKeeps(a: Area, w: World, w': World, k: Known)
    requires SameButHp(w, w') && WorldOk(a, w) && LedgerOk(a, w, k)
    ensures WorldOk(a, w') && LedgerOk(a, w', k)
  {
    forall s
      ensures Of(w', s) == Of(w, s)
      ensures InWorld(w', s) <==> InWorld(w, s)
      ensures s in w'.players <==> s in w.players
    {
      assert s in w'.players <==> s in w'.players.Keys;
    }
    SameSessionsIndex(a, w, w');
    SameSessionsLedger(a, w, w', k);
  }

  /** What any combat function does: at most HP changes, at most timers 50 ticks ahead for current ids are
      added, and no SPAWN or DESPAWN is sent. */
  ghost predicate CombatStep(sv: Server, sv': Server, sends: seq<Send>) {
    && SameButHp(sv.world, sv'.world)
    && sv'.nextId == sv.nextId && sv'.now == sv.now
    && (forall e :: e in sv'.timers ==>
          e in sv.timers || (e.callback.session in sv.world.players
                             && e.callback.expectedId == Of(sv.world, e.callback.session).id
                             && e.due == sv.now + WHEEL_SIZE))
    && (forall e :: e in sv.timers ==> e in sv'.timers)
    && Silent(sends)
  }

  lemma SetHpKeys(w: World, s: Sid, hp: int)
    requires s in w.players
    ensures SameButHp(w, SetHp(w, s, hp))
    ensures forall t :: Of(SetHp(w, s, hp), t) == Of(w, t)
  {
    assert SetHp(w, s, hp).players.Keys == w.players.Keys;
  }

  lemma DieStep(a: Area, sv: Server, s: Sid)
    requires s in sv.world.players && sv.world.players[s].hp > 0 && TimersOk(sv)
    ensures var (sv', sends) := Die(a, sv, s); CombatStep(sv, sv', sends) && TimersOk(sv')
  {
    var (sv', sends) := Die(a, sv, s);
    var w, w', id := sv.world, sv'.world, Of(sv.world, s).id;
    SilentBroadcast(a, w, s, SDie(id));
    SetHpKeys(w, s, 0);
    var e := sv'.timers[|sv.timers|];
    assert sv'.timers == sv.timers + [e];
    PendingAppend(sv.timers, [e]);
    assert [e][1..] == [];
    assert Pending(sv'.timers) == Pending(sv.timers) + multiset{Respawn(s, id)};
  }

  lemma DamageStep(a: Area, sv: Server, s: Sid, damage: int)
    requires s in sv.world.players && TimersOk(sv) && damage >= 0
    ensures var (sv', sends) := OnDamaged(a, sv, s, damage); CombatStep(sv, sv', sends) && TimersOk(sv')
  {
    var hp := sv.world.players[s].hp;
    if hp > 0 && hp - damage <= 0 {
      DieStep(a, sv, s);
    } else if hp > 0 {
      SetHpKeys(sv.world, s, hp - damage);
    }
  }

  lemma HitStep(a: Area, sv: Server, s: Sid, t: Sid, targetId: Pid, damage: int)
    requires TimersOk(sv) && damage >= 0
    ensures var (sv', sends) := Hit(a, sv, s, t, targetId, damage); CombatStep(sv, sv', sends) && TimersOk(sv')
  {
    if t in sv.world.players {
      DamageStep(a, sv, t, damage);
      SilentBroadcast(a, OnDamaged(a, sv, t, damage).0.world, s, SAttack(Of(sv.world, s).id, targetId));
    }
  }

  lemma {:induction false} HitAllStep(a: Area, sv: Server, s: Sid, targets: seq<Sid>)
    requires TimersOk(sv)
    ensures var (sv', sends) := HitAll(a, sv, s, targets); CombatStep(sv, sv', sends) && TimersOk(sv')
    decreases targets
  {
    hide Hit, TimersOk;
    if targets != [] {
      HitStep(a, sv, s, targets[0], Of(sv.world, targets[0]).id, 20);
      var sv1 := Hit(a, sv, s, targets[0], Of(sv.world, targets[0]).id, 20).0;
      HitAllStep(a, sv1, s, targets[1..]);
      assert forall t :: Of(sv1.world, t) == Of(sv.world, t);
    }
  }

  lemma AttackStep(cfg: Config, sv: Server, s: Sid, kind: int, targetId: Pid)
    requires TimersOk(sv)
    ensures var (sv', sends) := Attack(cfg, sv, s, kind, targetId); CombatStep(sv, sv', sends) && TimersOk(sv')
  {
    var w := sv.world;
    if Alive(w, s) {
      if kind == 0 && targetId in w.sessions {
        HitStep(cfg.area, sv, s, w.sessions[targetId], targetId, 10);
      } else if kind == 1 {
        HitAllStep(cfg.area, sv, s, AreaTargets(cfg, w, s));
      }
    }
  }

  /** Running one callback: a timer that carries a stale id changes nothing; a current one revives its
      player, which has no other pending. */
  lemma FireStep(a: Area, w: World, r: Respawn, later: multiset<Respawn>)
    requires HpOk(w, multiset{r} + later)
    ensures var (w', sends) := Fire(a, w, r); SameButHp(w, w') && HpOk(w', later) && Silent(sends)
  {
    var (w', sends) := Fire(a, w, r);
    assert forall t :: Of(w', t) == Of(w, t);
    SilentBroadcast(a, w, r.session, SRespawn(Of(w, r.session).id, Of(w, r.session).pos));
  }

  lemma {:induction false} FireAllStep(a: Area, w: World, rs: seq<Respawn>, later: multiset<Respawn>)
    requires HpOk(w, multiset(rs) + later)
    ensures var (w', sends) := FireAll(a, w, rs); SameButHp(w, w') && HpOk(w', later) && Silent(sends)
    decreases rs
  {
    if rs != [] {
      var rest := multiset(rs[1..]) + later;
      assert rs == [rs[0]] + rs[1..];
      assert multiset(rs) + later == multiset{rs[0]} + rest;
      FireStep(a, w, rs[0], rest);
      FireAllStep(a, Fire(a, w, rs[0]).0, rs[1..], later);
    } else {
      assert multiset(rs) + later == later;
    }
  }

  lemma TickStep(a: Area, sv: Server)
    requires TimersOk(sv)
    ensures var (sv', sends) := Tick(a, sv); SameButHp(sv.world, sv'.world) && TimersOk(sv') && Silent(sends)
  {
    PendingSplit(sv.timers, sv.now + 1);
    FireAllStep(a, sv.world, Due(sv.timers, sv.now + 1), Pending(NotDue(sv.timers, sv.now + 1)));
    forall e | e in NotDue(sv.timers, sv.now + 1)
      ensures sv.now + 1 < e.due <= sv.now + 1 + WHEEL_SIZE
    {
      NotDueMembers(sv.timers, sv.now + 1, e);
    }
  }

  // ----- one lemma per step -----

  lemma LoginKeeps(cfg: Config, sv: Server, k: Known, s: Sid)
    requires Inv(cfg, sv, k) && Of(sv.world, s).state != GAME
    ensures var (sv', sends) := Login(sv, s); Inv(cfg, sv', Fold(k, sv'.world, sends))
  {
    var (sv', sends) := Login(sv, s);
    var w, w' := sv.world, sv'.world;
    FoldSilent(k, w', sends);
    assert !InWorld(w, s) && s !in w.players;
    forall t
      ensures t != s ==> Of(w', t) == Of(w, t)
      ensures InWorld(w', t) <==> InWorld(w, t)
    {
    }
    SameSessionsIndex(cfg.area, w, w');
    SameSessionsLedger(cfg.area, w, w', k);
    forall t | Of(w', t).state == LOBBY
      ensures Of(w', t).id < sv'.nextId && FreshId(w', k, sv'.timers, Of(w', t).id)
    {
      if t != s {
        assert FreshId(w, k, sv.timers, Of(w, t).id);
      } else {
        assert FreshId(w', k, sv.timers, sv.nextId);
      }
    }
  }

  /** Attacks and ticks: only HP and timers change. */
  lemma CombatKeeps(cfg: Config, sv: Server, k: Known, sv': Server, sends: seq<Send>)
    requires Inv(cfg, sv, k) && TimersOk(sv')
    requires SameButHp(sv.world, sv'.world) && Silent(sends) && sv'.nextId == sv.nextId
    requires forall e :: e in sv'.timers ==>
               e in sv.timers || (e.callback.session in sv.world.players
                                  && e.callback.expectedId == Of(sv.world, e.callback.session).id)
    ensures Inv(cfg, sv', Fold(k, sv'.world, sends))
  {
    var w, w' := sv.world, sv'.world;
    FoldSilent(k, w', sends);
    SameButHpKeeps(cfg.area, w, w', k);
    assert forall s :: Of(w', s) == Of(w, s);
    forall e | e in sv'.timers && e !in sv.timers
      ensures e.callback.expectedId in w.sessions
    {
      assert InWorld(w, e.callback.session);
    }
    forall s | Of(w', s).state == LOBBY
      ensures FreshId(w', k, sv'.timers, Of(w', s).id)
    {
      assert FreshId(w, k, sv.timers, Of(w, s).id);
    }
  }

  lemma AttackKeeps(cfg: Config, sv: Server, k: Known, s: Sid, kind: int, targetId: Pid)
    requires Inv(cfg, sv, k)
    ensures var (sv', sends) := Attack(cfg, sv, s, kind, targetId); Inv(cfg, sv', Fold(k, sv'.world, sends))
  {
    var (sv', sends) := Attack(cfg, sv, s, kind, targetId);
    AttackStep(cfg, sv, s, kind, targetId);
    CombatKeeps(cfg, sv, k, sv', sends);
  }

  lemma TickKeeps(cfg: Config, sv: Server, k: Known)
    requires Inv(cfg, sv, k)
    ensures var (sv', sends) := Tick(cfg.area, sv); Inv(cfg, sv', Fold(k, sv'.world, sends))
  {
    var (sv', sends) := Tick(cfg.area, sv);
    TickStep(cfg.area, sv);
    forall e | e in sv'.timers
      ensures e in sv.timers
    {
      NotDueMembers(sv.timers, sv.now + 1, e);
    }
    CombatKeeps(cfg, sv, k, sv', sends);
  }
}
