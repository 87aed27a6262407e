/** What each request of a client leads to: its effect, when it is refused, and the order of the answers. */
module Requests {
  import opened Grid
  import opened Aoi
  import opened Ledger
  import opened TimeWheels
  import opened Servers
  import opened Invariants
  import opened Runs
  import opened Theorems

  /** A login is answered, to the session alone, with the id the session has from then on; it is no id of a session in
      the world or in the lobby, and nothing sent or scheduled before names it. */
  lemma LoginGivesFreshId(cfg: Config, sv: Server, k: Known, s: Sid)
    requires Reachable(cfg, sv, k) && Of(sv.world, s).state != GAME
    ensures var (sv', sends) := Login(sv, s);
            var id := Of(sv'.world, s).id;
            && sends == [Send(s, SLogin(id))] && Of(sv'.world, s).state == LOBBY
            && FreshId(sv.world, k, sv.timers, id)
            && forall t :: t != s ==>
                 Of(sv'.world, t) == Of(sv.world, t)
                 && (Of(sv.world, t).state == LOBBY || Of(sv.world, t).state == GAME ==> Of(sv.world, t).id != id)
  {
    ReachableOk(cfg, sv, k);
    forall t | Of(sv.world, t).state == GAME
      ensures Of(sv.world, t).id < sv.nextId
    {
      assert InWorld(sv.world, t);
    }
  }

  /** An enter request from the lobby puts the session in the world where it was told to, with 100 of 100 HP; any other
      changes nothing and is not answered. */
  lemma EnterPlaces(cfg: Config, sv: Server, k: Known, s: Sid, x: int, y: int)
    requires Reachable(cfg, sv, k) && Enabled(cfg, sv, DoEnter(s, x, y))
    ensures var (sv', sends) := Apply(cfg, sv, DoEnter(s, x, y));
            if Of(sv.world, s).state == LOBBY then
              && InWorld(sv'.world, s) && Of(sv'.world, s).pos == Pos(x as real, y as real)
              && Of(sv'.world, s).id == Of(sv.world, s).id && Of(sv'.world, s).state == GAME
              && sv'.world.players == sv.world.players[s := Vitals(100, 100)]
              && (forall t :: t != s ==> Of(sv'.world, t) == Of(sv.world, t))
            else
              sv' == sv && sends == []
  {
    hide GetGridPos;
    ReachableOk(cfg, sv, k);
    var p := Pos(x as real, y as real);
    if Of(sv.world, s).state == LOBBY {
      var w := SetSession(sv.world, s, Of(sv.world, s).(state := GAME));
      assert s !in sv.world.players;
      EnteredParts(cfg.area, w, s, p);
      assert Entered(cfg.area, w, s, p).sessions == w.sessions[Of(w, s).id := s];
    }
  }

  /** A move request of a living player to a point of the map puts it there and moves nobody else; from anybody else, or
      to any other point, it changes nothing and is not answered. */
  lemma MoveRequest(cfg: Config, sv: Server, k: Known, s: Sid, p: Pos)
    requires Reachable(cfg, sv, k)
    ensures var (sv', sends) := Apply(cfg, sv, DoMove(s, p));
            var size := cfg.area.mapSize as real;
            if Alive(sv.world, s) && 0.0 <= p.x && p.x < size && 0.0 <= p.y && p.y < size then
              && Of(sv'.world, s) == Of(sv.world, s).(pos := p)
              && (forall t :: t != s ==> Of(sv'.world, t) == Of(sv.world, t))
              && sv'.world.players == sv.world.players && sv'.timers == sv.timers
            else
              sv' == sv && sends == []
  {
    hide GetGridPos, Moved;
    if Alive(sv.world, s) && OnMap(cfg.area, p) {
      MovedParts(cfg.area, sv.world, s, p);
    }
  }

  /** HandleMove itself, whoever calls it, never leaves the map, and does not touch a point on it. */
  lemma ClampStaysOnMap(a: Area, p: Pos)
    ensures var q := ClampPos(a, p);
            && 0.0 <= q.x < a.mapSize as real && 0.0 <= q.y < a.mapSize as real
            && (0.0 <= p.x < a.mapSize as real ==> q.x == p.x)
            && (0.0 <= p.y < a.mapSize as real ==> q.y == p.y)
            && (p.x < 0.0 ==> q.x == 0.0) && (p.x >= a.mapSize as real ==> q.x == a.mapSize as real - 1.0)
            && (p.y < 0.0 ==> q.y == 0.0) && (p.y >= a.mapSize as real ==> q.y == a.mapSize as real - 1.0)
  {
  }

  // ----- order -----

  /** DESPAWN before SPAWN before MOVE. */
  function Rank(p: Packet): nat {
    match p
    case SDespawn(_) => 0
    case SSpawn(_, _) => 1
    case _ => 2
  }

  ghost predicate InRankOrder(sends: seq<Send>) {
    forall i, j :: 0 <= i < j < |sends| ==> Rank(sends[i].packet) <= Rank(sends[j].packet)
  }

  lemma {:induction false} DespawnsRank(w: World, pairs: seq<(Sid, Sid)>)
    ensures forall i :: 0 <= i < |Despawns(w, pairs)| ==> Despawns(w, pairs)[i].packet.SDespawn?
  {
    if pairs != [] {
      DespawnsRank(w, pairs[1..]);
    }
  }

  lemma {:induction false} SpawnsRank(w: World, pairs: seq<(Sid, Sid)>)
    ensures forall i :: 0 <= i < |Spawns(w, pairs)| ==> Spawns(w, pairs)[i].packet.SSpawn?
  {
    if pairs != [] {
      SpawnsRank(w, pairs[1..]);
    }
  }

  /** A move sends all its DESPAWNs, then all its SPAWNs, then the MOVE packets, and nothing else. */
  lemma NoticesBeforeMoves(a: Area, w: World, s: Sid, p: Pos)
    ensures var sends := HandleMove(a, w, s, p).1;
            && InRankOrder(sends)
            && forall i :: 0 <= i < |sends| ==>
                 sends[i].packet.SDespawn? || sends[i].packet.SSpawn? || sends[i].packet == SMove(Of(w, s).id, ClampPos(a, p))
  {
    hide GetGridPos, Moved, Pairs, Stripe, Despawns, Spawns, ToAll, InOrder;
    var w', move := Moved(a, w, s, p), SMove(Of(w, s).id, ClampPos(a, p));
    DespawnsRank(w', DespawnPairs(a, w, s, p));
    SpawnsRank(w', SpawnPairs(a, w, s, p));
    ToAllIs(InOrder(At(w'.grids, CellOf(a, w', s))), move);
  }
}
