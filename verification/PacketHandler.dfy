/** The packet handlers of PacketHandler.cpp on the mutable world. */
module PacketHandlers {
  import opened Grid
  import opened Aoi
  import opened TimeWheels
  import opened Servers
  import G = GameWorld

  /** CalculateDistance compared with an attack range. */
  method Within(world: G.World, s: Sid, t: Sid, range: Range) returns (hit: bool)
    requires world.Shape()
    ensures hit == InRange(world.WorldOf(), s, t, range)
  {
    var dx := world.SessionOf(s).pos.x - world.SessionOf(t).pos.x;
    var dy := world.SessionOf(s).pos.y - world.SessionOf(t).pos.y;
    hit := dx * dx + dy * dy <= range * range;
  }

  /** Damage one target, then answer the attacker's observers. */
  method HitTarget(world: G.World, s: Sid, t: Sid, targetId: Pid, damage: int)
    requires world.Valid()
    modifies world`sent, world`timers, world.timeWheel.slots, world.players.Values
    ensures world.Valid()
    ensures var (sv, sends) := Hit(world.area, old(world.Abs()), s, t, targetId, damage);
            world.Abs() == sv && world.sent == old(world.sent) + sends
  {
    hide Refines, OnDamaged, Broadcast;
    ghost var sv := world.Abs();
    assert t in sv.world.players <==> t in world.players;
    assert world.sent + [] == world.sent;
    if t in world.players {
      world.players[t].OnDamaged(damage, world);
      ghost var (sv1, s1) := OnDamaged(world.area, sv, t, damage);
      var answer := SAttack(world.SessionOf(s).id, targetId);
      world.BroadcastPacketToObservers(s, answer);
      G.Assoc(old(world.sent), s1, Broadcast(world.area, sv1.world, s, answer));
    }
  }

  /** The snapshot of an area attack, taken from the one cell the attacker stands in. */
  method CollectTargets(cfg: Config, world: G.World, s: Sid) returns (targets: seq<Sid>)
    requires world.Valid() && world.area == cfg.area
    ensures targets == AreaTargets(cfg, world.WorldOf(), s)
  {
    hide Refines, GetGridPos, InRange, Targets, InOrder;
    var pos := GetGridPos(world.area, world.SessionOf(s).pos);
    var rest := world.grids[pos.y, pos.x];
    assert rest == At(world.GridsOf(), pos);
    ghost var w := world.WorldOf();
    targets := [];
    ghost var left := Targets(w, s, cfg.radial, InOrder(rest));
    ghost var goal := left;
    assert targets + left == goal;
    NoTargets(w, s, cfg.radial);
    while rest != {}
      invariant world.WorldOf() == w
      invariant left == Targets(w, s, cfg.radial, InOrder(rest)) && targets + left == goal
      decreases rest
    {
      var other := Least(rest);
      TargetsStep(w, s, cfg.radial, rest);
      left := Targets(w, s, cfg.radial, InOrder(rest - {other}));
      var near := Within(world, s, other, cfg.radial);
      if other != s && near {
        G.Assoc(targets, [other], left);
        targets := targets + [other];
      } else {
        assert [] + left == left;
      }
      rest := rest - {other};
    }
    assert targets + [] == targets;
  }

  lemma TargetsStep(w: World, s: Sid, range: real, rest: set<Sid>)
    requires rest != {}
    ensures var o := Least(rest);
            Targets(w, s, range, InOrder(rest)) ==
            (if o != s && InRange(w, s, o, range) then [o] else []) + Targets(w, s, range, InOrder(rest - {o}))
  {
    G.InOrderStep(rest);
    var tail := InOrder(rest - {Least(rest)});
    assert ([Least(rest)] + tail)[1..] == tail;
  }

  lemma NoTargets(w: World, s: Sid, range: real)
    ensures Targets(w, s, range, InOrder({})) == []
  {
  }

  method HitTargets(world: G.World, s: Sid, targets: seq<Sid>)
    requires world.Valid()
    modifies world`sent, world`timers, world.timeWheel.slots, world.players.Values
    ensures world.Valid()
    ensures var (sv, sends) := HitAll(world.area, old(world.Abs()), s, targets);
            world.Abs() == sv && world.sent == old(world.sent) + sends
  {
    hide Refines, Hit;
    ghost var (goal, out) := HitAll(world.area, world.Abs(), s, targets);
    ghost var start := world.sent;
    assert targets[0..] == targets;
    var i := 0;
    while i < |targets|
      invariant 0 <= i <= |targets| && world.Valid() && world.players == old(world.players)
      invariant HitAll(world.area, world.Abs(), s, targets[i..]).0 == goal
      invariant world.sent + HitAll(world.area, world.Abs(), s, targets[i..]).1 == start + out
    {
      ghost var sv, sent := world.Abs(), world.sent;
      assert targets[i..][1..] == targets[i + 1..];
      ghost var (sv1, s1) := Hit(world.area, sv, s, targets[i], Of(sv.world, targets[i]).id, 20);
      HitTarget(world, s, targets[i], world.SessionOf(targets[i]).id, 20);
      G.Assoc(sent, s1, HitAll(world.area, sv1, s, targets[i + 1..]).1);
      i := i + 1;
    }
  }

  /** Handle_C_ATTACK: kind 0 strikes one player by id, kind 1 everyone around. */
  method HandleAttack(cfg: Config, world: G.World, s: Sid, kind: int, targetId: Pid)
    requires world.Valid() && world.area == cfg.area
    modifies world`sent, world`timers, world.timeWheel.slots, world.players.Values
    ensures world.Valid()
    ensures var (sv, sends) := Attack(cfg, old(world.Abs()), s, kind, targetId);
            world.Abs() == sv && world.sent == old(world.sent) + sends
  {
    hide Refines, Hit, HitAll, AreaTargets, InRange;
    assert s in world.PlayersOf() <==> s in world.players;
    assert world.sent + [] == world.sent;
    if s !in world.players { return; }
    if world.players[s].hp <= 0 { return; }
    if kind == 0 {
      if targetId !in world.sessions { return; }
      var t := world.sessions[targetId];
      var near := Within(world, s, t, cfg.melee);
      if !near { return; }
      HitTarget(world, s, t, targetId, 10);
    } else if kind == 1 {
      var targets := CollectTargets(cfg, world, s);
      HitTargets(world, s, targets);
    }
  }

  /** Handle_C_MOVE: no player, a dead player and coordinates off the map are ignored. */
  method HandleMove(world: G.World, s: Sid, p: Pos)
    requires world.Valid()
    modifies world`ses, world`sent, world.grids
    ensures world.Valid()
    ensures var (sv, sends) := Move(world.area, old(world.Abs()), s, p);
            world.Abs() == sv && world.sent == old(world.sent) + sends
  {
    hide Refines, Aoi.HandleMove;
    assert s in world.PlayersOf() <==> s in world.players;
    assert world.sent + [] == world.sent;
    if s !in world.players { return; }
    if world.players[s].hp <= 0 { return; }
    if !(p.x >= 0.0 && p.x < world.area.mapSize as real && p.y >= 0.0 && p.y < world.area.mapSize as real) { return; }
    world.HandleMove(s, p);
  }

  /** Handle_C_ENTER_GAME: from the lobby only. */
  method HandleEnterGame(world: G.World, s: Sid, startX: int, startY: int)
    requires world.Valid()
    modifies world`players, world`ses, world`sessions, world`sent, world.grids
    ensures world.Valid()
    ensures var (sv, sends) := Enter(world.area, old(world.Abs()), s, Pos(startX as real, startY as real));
            world.Abs() == sv && world.sent == old(world.sent) + sends
  {
    hide Refines, EnterGame;
    ghost var w := world.WorldOf();
    assert world.sent + [] == world.sent;
    if world.SessionOf(s).state != LOBBY { return; }
    world.ses := world.ses[s := world.SessionOf(s).(state := GAME)];
    assert world.WorldOf() == SetSession(w, s, Of(w, s).(state := GAME));
    world.EnterGame(s, startX, startY);
  }

  /** A successful login: the id is taken from the counter and set by Handle_S_LOGIN. */
  method HandleLogin(world: G.World, s: Sid)
    requires world.Valid()
    modifies world`ses, world`nextId, world`sent
    ensures world.Valid()
    ensures var (sv, sends) := Login(old(world.Abs()), s);
            world.Abs() == sv && world.sent == old(world.sent) + sends
  {
    hide Refines;
    ghost var w := world.WorldOf();
    var assignedId := world.nextId;
    world.nextId := assignedId + 1;
    world.sent := world.sent + [Send(s, SLogin(assignedId))];
    world.ses := world.ses[s := world.SessionOf(s).(id := assignedId, state := LOBBY)];
    assert world.PlayersOf() == w.players && world.GridsOf() == w.grids;
  }

  /** The end of a connection. */
  method HandleDisconnect(world: G.World, s: Sid)
    requires world.Valid()
    modifies world`sessions, world`players, world`ses, world`sent, world.grids
    ensures world.Valid()
    ensures var (sv, sends) := Disconnect(world.area, old(world.Abs()), s);
            world.Abs() == sv && world.sent == old(world.sent) + sends
  {
    hide Refines, LeaveGame;
    world.LeaveGame(s);
    ghost var left := world.WorldOf();
    world.players := world.players - {s};
    world.ses := world.ses[s := world.SessionOf(s).(state := NONE)];
    assert world.PlayersOf() == left.players - {s};
    assert world.GridsOf() == left.grids;
  }
}
