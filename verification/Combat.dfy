/** What an attack does to whom, and what the players are told of blows, deaths and respawns. */
module Combat {
  import opened Grid
  import opened Aoi
  import opened Ledger
  import opened TimeWheels
  import opened Servers
  import opened Invariants
  import opened Runs
  import opened Theorems
  import opened AreaAttack
  import opened Death

  /** Player o can see the cell of session s. */
  predicate Sees(a: Area, w: World, o: Sid, s: Sid) {
    InWorld(w, o) && Near(CellOf(a, w, s), CellOf(a, w, o), a.vision)
  }

  lemma BroadcastIs(a: Area, w: World, s: Sid, p: Packet, x: Send)
    requires IndexInv(a, w)
    ensures x in Broadcast(a, w, s, p) <==> x.packet == p && Sees(a, w, x.to, s)
  {
    hide GetGridPos, InOrder, Near;
    BroadcastReachesObservers(a, w, s, p, x.to);
    ToAllIs(InOrder(At(w.grids, CellOf(a, w, s))), p);
  }

  lemma SameView(a: Area, w: World, w': World, o: Sid, s: Sid)
    requires SameButHp(w, w')
    ensures Sees(a, w', o, s) <==> Sees(a, w, o, s)
    ensures Of(w', s) == Of(w, s)
  {
  }

  // ----- who is struck -----

  /** The players an attack strikes: kind 0 the one with the given id if it is within melee range, kind 1 every other
      player within vision and within radial range. */
  predicate Struck(cfg: Config, w: World, s: Sid, kind: int, targetId: Pid, t: Sid) {
    if kind == 0 then
      targetId in w.sessions && w.sessions[targetId] == t && InDisc(Of(w, s).pos, Of(w, t).pos, cfg.melee)
    else
      kind == 1 && t != s && Sees(cfg.area, w, t, s) && InDisc(Of(w, s).pos, Of(w, t).pos, cfg.radial)
  }

  function Blow(kind: int): int {
    if kind == 0 then 10 else 20
  }

  /** An attack takes 10 HP (kind 0) or 20 HP (kind 1), not below 0, from exactly the players it strikes, if the
      attacker lives. */
  lemma AttackHp(cfg: Config, sv: Server, k: Known, s: Sid, kind: int, targetId: Pid)
    requires Reachable(cfg, sv, k)
    ensures var w, w' := sv.world, Attack(cfg, sv, s, kind, targetId).0.world;
            && w'.players.Keys == w.players.Keys
            && forall t :: t in w.players ==>
                 w'.players[t].hp == if Alive(w, s) && Struck(cfg, w, s, kind, targetId, t)
                                     then Damaged(w.players[t].hp, Blow(kind)) else w.players[t].hp
  {
    hide Hit, HitAll, AreaTargets, InRange, InDisc, GetGridPos, Near;
    var w := sv.world;
    ReachableOk(cfg, sv, k);
    if Alive(w, s) {
      if kind == 0 && targetId in w.sessions {
        var t := w.sessions[targetId];
        InRangeIsDisc(w, s, t, cfg.melee);
        HitHp(cfg.area, sv, s, t, targetId, 10);
      } else if kind == 1 {
        AreaTargetsAre(cfg, w, s);
        HitAllHp(cfg.area, sv, s, AreaTargets(cfg, w, s));
      }
    }
  }

  /** An attack that strikes nobody, or comes from the dead, changes nothing and is not answered. */
  lemma MissIsSilent(cfg: Config, sv: Server, k: Known, s: Sid, kind: int, targetId: Pid)
    requires Reachable(cfg, sv, k)
    requires !Alive(sv.world, s) || forall t :: !Struck(cfg, sv.world, s, kind, targetId, t)
    ensures Attack(cfg, sv, s, kind, targetId) == (sv, [])
  {
    hide Hit, InRange, InDisc, GetGridPos, Near, AreaTargets;
    var w := sv.world;
    ReachableOk(cfg, sv, k);
    if Alive(w, s) {
      if kind == 0 && targetId in w.sessions {
        var t := w.sessions[targetId];
        InRangeIsDisc(w, s, t, cfg.melee);
        assert !Struck(cfg, w, s, kind, targetId, t);
      } else if kind == 1 {
        AreaTargetsAre(cfg, w, s);
        assert forall t :: t in AreaTargets(cfg, w, s) ==> Struck(cfg, w, s, kind, targetId, t);
        if AreaTargets(cfg, w, s) != [] {
          SomebodyIn(AreaTargets(cfg, w, s));
        }
      }
    }
  }

  lemma SomebodyIn(order: seq<Sid>)
    requires order != []
    ensures exists t :: t in order
  {
    assert order[0] in order;
  }

  // ----- the answers -----

  lemma HitAnswer(a: Area, sv: Server, s: Sid, t: Sid, targetId: Pid, damage: nat, x: Send)
    requires WorldOk(a, sv.world) && TimersOk(sv) && t in sv.world.players && x.packet.SAttack?
    ensures x in Hit(a, sv, s, t, targetId, damage).1 <==>
            x.packet == SAttack(Of(sv.world, s).id, targetId) && Sees(a, sv.world, x.to, s)
  {
    hide GetGridPos, Near, Broadcast;
    var (sv1, s1) := OnDamaged(a, sv, t, damage);
    DamageStep(a, sv, t, damage);
    SameButHpKeeps(a, sv.world, sv1.world, {});
    BroadcastIs(a, sv1.world, s, SAttack(Of(sv.world, s).id, targetId), x);
    BroadcastIs(a, sv.world, t, SDie(Of(sv.world, t).id), x);
    SameView(a, sv.world, sv1.world, x.to, s);
  }

  lemma {:induction false} HitAllAnswers(a: Area, sv: Server, s: Sid, targets: seq<Sid>, x: Send)
    requires WorldOk(a, sv.world) && TimersOk(sv) && x.packet.SAttack?
    requires forall t :: t in targets ==> t in sv.world.players
    ensures x in HitAll(a, sv, s, targets).1 <==>
            && x.packet.attacker == Of(sv.world, s).id && Sees(a, sv.world, x.to, s)
            && exists t :: t in targets && x.packet.target == Of(sv.world, t).id
    decreases targets
  {
    hide GetGridPos, Near, Hit, WorldOk, TimersOk;
    if targets != [] {
      var t := targets[0];
      var id := Of(sv.world, t).id;
      assert t in targets && targets == [t] + targets[1..];
      var sv1 := Hit(a, sv, s, t, id, 20).0;
      HitStep(a, sv, s, t, id, 20);
      HitAnswer(a, sv, s, t, id, 20, x);
      HitKeepsWorld(a, sv, s, t, id, 20);
      forall u
        ensures Of(sv1.world, u) == Of(sv.world, u)
        ensures u in sv1.world.players <==> u in sv.world.players
      {
        assert u in sv1.world.players <==> u in sv1.world.players.Keys;
      }
      SameView(a, sv.world, sv1.world, x.to, s);
      HitAllAnswers(a, sv1, s, targets[1..], x);
    }
  }

  lemma HitKeepsWorld(a: Area, sv: Server, s: Sid, t: Sid, id: Pid, damage: nat)
    requires WorldOk(a, sv.world) && TimersOk(sv)
    ensures WorldOk(a, Hit(a, sv, s, t, id, damage).0.world)
  {
    hide WorldOk, TimersOk;
    HitStep(a, sv, s, t, id, damage);
    NobodyKnown(a, sv.world);
    SameButHpKeeps(a, sv.world, Hit(a, sv, s, t, id, damage).0.world, {});
  }

  lemma NobodyKnown(a: Area, w: World)
    ensures LedgerOk(a, w, {})
  {
  }

  /** Every blow is answered to exactly the players that can see the attacker, naming attacker and target. */
  lemma AttackAnswers(cfg: Config, sv: Server, k: Known, s: Sid, kind: int, targetId: Pid, x: Send)
    requires Reachable(cfg, sv, k) && x.packet.SAttack?
    ensures var w := sv.world;
            x in Attack(cfg, sv, s, kind, targetId).1 <==>
            && Alive(w, s) && x.packet.attacker == Of(w, s).id && Sees(cfg.area, w, x.to, s)
            && exists t :: Struck(cfg, w, s, kind, targetId, t) && x.packet.target == Of(w, t).id
  {
    hide Hit, HitAll, AreaTargets, InRange, InDisc, GetGridPos, Near;
    var w := sv.world;
    ReachableOk(cfg, sv, k);
    if Alive(w, s) {
      if kind == 0 && targetId in w.sessions {
        var t := w.sessions[targetId];
        InRangeIsDisc(w, s, t, cfg.melee);
        HitAnswer(cfg.area, sv, s, t, targetId, 10, x);
        assert Struck(cfg, w, s, kind, targetId, t) <==> InRange(w, s, t, cfg.melee);
      } else if kind == 1 {
        AreaTargetsAre(cfg, w, s);
        var targets := AreaTargets(cfg, w, s);
        HitAllAnswers(cfg.area, sv, s, targets, x);
        assert forall t :: t in targets <==> Struck(cfg, w, s, kind, targetId, t);
      }
    }
  }

  // ----- deaths and respawns -----

  predicate Died(w: World, w': World, s: Sid) {
    Alive(w, s) && Dead(w', s)
  }

  predicate Revived(w: World, w': World, s: Sid) {
    Dead(w, s) && Alive(w', s)
  }

  predicate IsNews(p: Packet) {
    p.SDie? || p.SRespawn?
  }

  /** The packet tells its receiver of a player whose cell it can see that this player died, or has come back at the
      position where it stands, between w and w'. */
  predicate News(a: Area, w: World, w': World, x: Send) {
    match x.packet
    case SDie(id) =>
      id in w.sessions && Died(w, w', w.sessions[id]) && Sees(a, w, x.to, w.sessions[id])
    case SRespawn(id, pos) =>
      id in w.sessions && Revived(w, w', w.sessions[id]) && Sees(a, w, x.to, w.sessions[id])
      && pos == Of(w, w.sessions[id]).pos
    case _ => false
  }

  /** Of such packets, exactly the true ones are sent. */
  ghost predicate Told(a: Area, w: World, w': World, sends: seq<Send>) {
    forall x: Send :: IsNews(x.packet) ==> (x in sends <==> News(a, w, w', x))
  }

  ghost predicate NoNews(sends: seq<Send>) {
    forall x: Send :: x in sends ==> !IsNews(x.packet)
  }

  lemma NothingToTell(a: Area, w: World, w': World, sends: seq<Send>)
    requires NoNews(sends)
    requires forall s :: s in w.players && s in w'.players ==> w'.players[s] == w.players[s]
    ensures Told(a, w, w', sends)
  {
    forall x: Send | IsNews(x.packet)
      ensures !News(a, w, w', x)
    {
    }
  }

  ghost predicate NonNegative(w: World) {
    forall s :: s in w.players ==> w.players[s].hp >= 0
  }

  /** Nobody comes back, or nobody dies. */
  ghost predicate OneWay(w: World, w': World, down: bool) {
    forall s :: if down then Dead(w, s) ==> Dead(w', s) else Alive(w, s) ==> Alive(w', s)
  }

  lemma TellInTurn(a: Area, w: World, w1: World, w2: World, s1: seq<Send>, s2: seq<Send>, down: bool)
    requires SameButHp(w, w1) && SameButHp(w1, w2) && NonNegative(w) && NonNegative(w1) && NonNegative(w2)
    requires OneWay(w, w1, down) && OneWay(w1, w2, down)
    requires Told(a, w, w1, s1) && Told(a, w1, w2, s2)
    ensures Told(a, w, w2, s1 + s2) && OneWay(w, w2, down)
  {
    hide GetGridPos, Near;
    forall s
      ensures Died(w, w2, s) <==> Died(w, w1, s) || Died(w1, w2, s)
      ensures Revived(w, w2, s) <==> Revived(w, w1, s) || Revived(w1, w2, s)
    {
      assert s in w.players.Keys <==> s in w1.players.Keys;
      assert s in w1.players.Keys <==> s in w2.players.Keys;
    }
    forall x: Send | IsNews(x.packet)
      ensures x in s1 + s2 <==> News(a, w, w2, x)
    {
      assert x in s1 <==> News(a, w, w1, x);
      assert x in s2 <==> News(a, w1, w2, x);
      if x.packet.id in w.sessions {
        SameView(a, w, w1, x.to, w.sessions[x.packet.id]);
      }
    }
  }

  lemma DamageTold(a: Area, sv: Server, t: Sid, damage: nat)
    requires WorldOk(a, sv.world) && NonNegative(sv.world) && t in sv.world.players
    ensures var (sv', sends) := OnDamaged(a, sv, t, damage);
            && Told(a, sv.world, sv'.world, sends) && OneWay(sv.world, sv'.world, true)
            && SameButHp(sv.world, sv'.world) && NonNegative(sv'.world)
  {
    hide GetGridPos, Near, Broadcast;
    var (sv', sends) := OnDamaged(a, sv, t, damage);
    var w, w' := sv.world, sv'.world;
    assert InWorld(w, t);
    assert w'.players.Keys == w.players.Keys;
    forall x: Send | IsNews(x.packet)
      ensures x in sends <==> News(a, w, w', x)
    {
      BroadcastIs(a, w, t, SDie(Of(w, t).id), x);
    }
  }

  lemma HitTold(a: Area, sv: Server, s: Sid, t: Sid, id: Pid, damage: nat)
    requires WorldOk(a, sv.world) && NonNegative(sv.world)
    ensures var (sv', sends) := Hit(a, sv, s, t, id, damage);
            && Told(a, sv.world, sv'.world, sends) && OneWay(sv.world, sv'.world, true)
            && SameButHp(sv.world, sv'.world) && NonNegative(sv'.world)
  {
    hide GetGridPos, Near, Broadcast, OnDamaged, News;
    if t in sv.world.players {
      var (sv1, s1) := OnDamaged(a, sv, t, damage);
      DamageTold(a, sv, t, damage);
      NobodyKnown(a, sv.world);
      SameButHpKeeps(a, sv.world, sv1.world, {});
      forall x: Send | IsNews(x.packet)
        ensures x !in Broadcast(a, sv1.world, s, SAttack(Of(sv.world, s).id, id))
      {
        BroadcastIs(a, sv1.world, s, SAttack(Of(sv.world, s).id, id), x);
      }
    } else {
      NothingToTell(a, sv.world, sv.world, []);
    }
  }

  lemma {:induction false} HitAllTold(a: Area, sv: Server, s: Sid, targets: seq<Sid>)
    requires WorldOk(a, sv.world) && NonNegative(sv.world)
    ensures var (sv', sends) := HitAll(a, sv, s, targets);
            && Told(a, sv.world, sv'.world, sends) && OneWay(sv.world, sv'.world, true)
            && SameButHp(sv.world, sv'.world) && NonNegative(sv'.world)
    decreases targets
  {
    hide WorldOk, Hit, Told, OneWay;
    if targets == [] {
      NothingToTell(a, sv.world, sv.world, []);
      StandStill(sv.world);
    } else {
      var id := Of(sv.world, targets[0]).id;
      var (sv1, s1) := Hit(a, sv, s, targets[0], id, 20);
      HitTold(a, sv, s, targets[0], id, 20);
      NobodyKnown(a, sv.world);
      SameButHpKeeps(a, sv.world, sv1.world, {});
      HitAllTold(a, sv1, s, targets[1..]);
      var (sv2, s2) := HitAll(a, sv1, s, targets[1..]);
      TellInTurn(a, sv.world, sv1.world, sv2.world, s1, s2, true);
    }
  }

  lemma StandStill(w: World)
    ensures OneWay(w, w, true) && OneWay(w, w, false)
  {
  }

  lemma FireTold(a: Area, w: World, r: Respawn, later: multiset<Respawn>)
    requires WorldOk(a, w) && HpOk(w, multiset{r} + later)
    ensures var (w', sends) := Fire(a, w, r);
            Told(a, w, w', sends) && OneWay(w, w', false) && SameButHp(w, w') && HpOk(w', later)
  {
    hide GetGridPos, Near, Broadcast;
    FireStep(a, w, r, later);
    var (w', sends) := Fire(a, w, r);
    var s, p := r.session, SRespawn(Of(w, r.session).id, Of(w, r.session).pos);
    if s in w.players && Of(w, s).id == r.expectedId {
      assert (multiset{r} + later)[r] >= 1;
      assert InWorld(w, s) && Dead(w, s);
      NearSymmetric(CellOf(a, w, s), CellOf(a, w, s), a.vision);
      forall x: Send | IsNews(x.packet)
        ensures x in sends <==> News(a, w, w', x)
      {
        BroadcastIs(a, w, s, p, x);
      }
    } else {
      NothingToTell(a, w, w, []);
    }
  }

  lemma {:induction false} FireAllTold(a: Area, w: World, rs: seq<Respawn>, later: multiset<Respawn>)
    requires WorldOk(a, w) && HpOk(w, multiset(rs) + later)
    ensures var (w', sends) := FireAll(a, w, rs);
            Told(a, w, w', sends) && OneWay(w, w', false) && SameButHp(w, w') && HpOk(w', later)
    decreases rs
  {
    hide WorldOk, Fire, Told, OneWay;
    if rs == [] {
      assert multiset(rs) + later == later;
      NothingToTell(a, w, w, []);
      StandStill(w);
    } else {
      var rest := multiset(rs[1..]) + later;
      assert rs == [rs[0]] + rs[1..];
      assert multiset(rs) + later == multiset{rs[0]} + rest;
      var (w1, s1) := Fire(a, w, rs[0]);
      FireTold(a, w, rs[0], rest);
      NobodyKnown(a, w);
      SameButHpKeeps(a, w, w1, {});
      FireAllTold(a, w1, rs[1..], later);
      var (w2, s2) := FireAll(a, w1, rs[1..]);
      TellInTurn(a, w, w1, w2, s1, s2, false);
    }
  }

  lemma TickTold(a: Area, sv: Server)
    requires WorldOk(a, sv.world) && TimersOk(sv)
    ensures var (sv', sends) := Tick(a, sv); Told(a, sv.world, sv'.world, sends)
  {
    hide WorldOk, Told, OneWay;
    PendingSplit(sv.timers, sv.now + 1);
    FireAllTold(a, sv.world, Due(sv.timers, sv.now + 1), Pending(NotDue(sv.timers, sv.now + 1)));
  }

  lemma AttackTold(cfg: Config, sv: Server, s: Sid, kind: int, targetId: Pid)
    requires WorldOk(cfg.area, sv.world) && NonNegative(sv.world)
    ensures var (sv', sends) := Attack(cfg, sv, s, kind, targetId); Told(cfg.area, sv.world, sv'.world, sends)
  {
    hide WorldOk, Told, OneWay, Hit, HitAll, AreaTargets, InRange;
    NothingToTell(cfg.area, sv.world, sv.world, []);
    if kind == 0 && targetId in sv.world.sessions {
      HitTold(cfg.area, sv, s, sv.world.sessions[targetId], targetId, 10);
    } else if kind == 1 {
      HitAllTold(cfg.area, sv, s, AreaTargets(cfg, sv.world, s));
    }
  }

  lemma MoveNoNews(a: Area, w: World, s: Sid, p: Pos)
    requires IndexInv(a, w) && InWorld(w, s)
    ensures NoNews(HandleMove(a, w, s, p).1)
  {
    hide GetGridPos, Pairs, Stripe, Moved, Broadcast;
    var (w', sends) := HandleMove(a, w, s, p);
    MoveKeepsIndex(a, w, s, p);
    forall x | x in sends
      ensures !IsNews(x.packet)
    {
      BroadcastIs(a, w', s, SMove(Of(w, s).id, ClampPos(a, p)), x);
      SpawnsAndDespawnsOnly(w', DespawnPairs(a, w, s, p), SpawnPairs(a, w, s, p), x);
    }
  }

  lemma EnterNoNews(a: Area, w: World, s: Sid, p: Pos)
    ensures NoNews(EnterGame(a, w, s, p).1)
  {
    hide GetGridPos, Entered, PairUp, InOrder;
    forall x | x in EnterGame(a, w, s, p).1
      ensures !IsNews(x.packet)
    {
      SpawnMembers(Entered(a, w, s, p), EnterPairs(a, w, s, p), x);
    }
  }

  /** In every step of every run, the S_DIE and S_RESPAWN packets sent are exactly these: to each player that can see
      the cell of one that died in the step, its death; to each that can see the cell of one that came back in the
      step, its return and the position where it stands. */
  lemma DeathsAndRespawnsAreTold(cfg: Config, sv: Server, k: Known, step: Step)
    requires Reachable(cfg, sv, k) && Enabled(cfg, sv, step)
    ensures var (sv', sends) := Apply(cfg, sv, step); Told(cfg.area, sv.world, sv'.world, sends)
  {
    hide Told, GetGridPos, HandleMove, EnterGame, LeaveGame, Attack, FireAll;
    var a, w := cfg.area, sv.world;
    var (sv', sends) := Apply(cfg, sv, step);
    ReachableOk(cfg, sv, k);
    match step
    case DoLogin(s) => NothingToTell(a, w, sv'.world, sends);
    case DoEnter(s, x, y) => EnterTold(a, sv, s, Pos(x as real, y as real));
    case DoMove(s, p) => MoveTold(a, sv, s, p);
    case DoAttack(s, kind, id) => AttackTold(cfg, sv, s, kind, id);
    case DoDisconnect(s) => DisconnectTold(a, sv, s);
    case DoTick => TickTold(a, sv);
  }

  lemma EnterTold(a: Area, sv: Server, s: Sid, p: Pos)
    requires WorldOk(a, sv.world)
    ensures var (sv', sends) := Enter(a, sv, s, p); Told(a, sv.world, sv'.world, sends)
  {
    hide Told;
    EnterNoNews(a, SetSession(sv.world, s, Of(sv.world, s).(state := GAME)), s, p);
    NothingToTell(a, sv.world, Enter(a, sv, s, p).0.world, Enter(a, sv, s, p).1);
  }

  lemma MoveTold(a: Area, sv: Server, s: Sid, p: Pos)
    requires WorldOk(a, sv.world)
    ensures var (sv', sends) := Move(a, sv, s, p); Told(a, sv.world, sv'.world, sends)
  {
    hide Told, GetGridPos;
    if Alive(sv.world, s) && OnMap(a, p) {
      MoveNoNews(a, sv.world, s, p);
      MovedParts(a, sv.world, s, p);
    }
    NothingToTell(a, sv.world, Move(a, sv, s, p).0.world, Move(a, sv, s, p).1);
  }

  lemma DisconnectTold(a: Area, sv: Server, s: Sid)
    requires WorldOk(a, sv.world)
    ensures var (sv', sends) := Disconnect(a, sv, s); Told(a, sv.world, sv'.world, sends)
  {
    hide Told, LeaveGame;
    var (sv', sends) := Disconnect(a, sv, s);
    DisconnectWorld(a, sv, s);
    forall x | x in sends
      ensures !IsNews(x.packet)
    {
      LeaveIsNoSpawn(a, sv.world, s, x);
    }
    NothingToTell(a, sv.world, sv'.world, sends);
  }
}
