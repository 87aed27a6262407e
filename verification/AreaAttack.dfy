/** The area attack reads one cell of the index. It finds everybody in range exactly when the range fits
    the vision. */
module AreaAttack {
  import opened Grid
  import opened Aoi
  import opened Ledger
  import opened TimeWheels
  import opened Servers
  import opened Invariants
  import opened Runs
  import opened Theorems
  import opened Witnesses

  lemma {:induction false} TargetsMembers(w: World, s: Sid, range: real, order: seq<Sid>, o: Sid)
    ensures o in Targets(w, s, range, order) <==> o in order && o != s && InRange(w, s, o, range)
  {
    if order != [] {
      TargetsMembers(w, s, range, order[1..], o);
      assert order == [order[0]] + order[1..];
    }
  }

  ghost predicate Ascending(order: seq<Sid>) {
    forall i, j :: 0 <= i < j < |order| ==> order[i] < order[j]
  }

  lemma {:induction false} TargetsAscend(w: World, s: Sid, range: real, order: seq<Sid>)
    requires Ascending(order)
    ensures Ascending(Targets(w, s, range, order))
  {
    if order != [] {
      var rest := Targets(w, s, range, order[1..]);
      TargetsAscend(w, s, range, order[1..]);
      forall i | 0 <= i < |rest|
        ensures order[0] < rest[i]
      {
        TargetsMembers(w, s, range, order[1..], rest[i]);
        assert rest[i] in order[1..];
      }
    }
  }

  lemma SquareMonotone(u: real, v: real)
    requires 0.0 <= u <= v
    ensures u * u <= v * v && (-u) * (-u) == u * u
  {
    assert (v - u) * (v + u) >= 0.0;
  }

  lemma SquareGrows(u: real, v: real)
    requires 0.0 <= u < v
    ensures u * u < v * v
  {
    SquareMonotone(u, v);
    assert v * v - u * v == (v - u) * v && u * v - u * u == (v - u) * u;
    assert (v - u) * v > 0.0 && (v - u) * u >= 0.0;
  }

  lemma SquareBound(d: real, r: real)
    requires r >= 0.0 && d * d <= r * r
    ensures -r <= d <= r
  {
    assert (-d) * (-d) == d * d;
    if d > r {
      SquareGrows(r, d);
    } else if d < -r {
      SquareGrows(r, -d);
    }
  }

  lemma InRangeIsNear(cfg: Config, w: World, s: Sid, o: Sid)
    requires InRange(w, s, o, cfg.radial)
    requires cfg.radial <= (cfg.area.vision * cfg.area.gridSize) as real
    ensures Near(CellOf(cfg.area, w, s), CellOf(cfg.area, w, o), cfg.area.vision)
  {
    var p, q, r := Of(w, s).pos, Of(w, o).pos, cfg.radial;
    assert (p.x - q.x) * (p.x - q.x) <= r * r && (p.y - q.y) * (p.y - q.y) <= r * r by {
      assert (p.x - q.x) * (p.x - q.x) >= 0.0 && (p.y - q.y) * (p.y - q.y) >= 0.0;
    }
    SquareBound(p.x - q.x, r);
    SquareBound(p.y - q.y, r);
    AxisContracts(cfg.area, p.x, q.x, cfg.area.vision);
    AxisContracts(cfg.area, p.y, q.y, cfg.area.vision);
  }

  /** The range fits the vision, or everybody sees the whole map. */
  predicate RadialFits(cfg: Config)
  {
    cfg.radial <= (cfg.area.vision * cfg.area.gridSize) as real || Count(cfg.area) <= cfg.area.vision + 1
  }

  /** What the attack tests is the Euclidean distance. */
  lemma InRangeIsDisc(w: World, s: Sid, t: Sid, range: real)
    ensures InRange(w, s, t, range) <==> InDisc(Of(w, s).pos, Of(w, t).pos, range)
  {
    var p, q := Of(w, s).pos, Of(w, t).pos;
    assert (q.x - p.x) * (q.x - p.x) == (p.x - q.x) * (p.x - q.x);
    assert (q.y - p.y) * (q.y - p.y) == (p.y - q.y) * (p.y - q.y);
  }

  /** Whatever the range: the targets are the other players in the world that are within vision and within range,
      each once. */
  lemma AreaTargetsAre(cfg: Config, w: World, s: Sid)
    requires IndexInv(cfg.area, w)
    ensures forall o :: o in AreaTargets(cfg, w, s) <==>
                        InWorld(w, o) && o != s && Near(CellOf(cfg.area, w, s), CellOf(cfg.area, w, o), cfg.area.vision)
                        && InDisc(Of(w, s).pos, Of(w, o).pos, cfg.radial)
    ensures Ascending(AreaTargets(cfg, w, s))
  {
    hide GetGridPos, InRange, InDisc;
    var a, cell := cfg.area, CellOf(cfg.area, w, s);
    var order := InOrder(At(w.grids, cell));
    TargetsAscend(w, s, cfg.radial, order);
    forall o
      ensures o in AreaTargets(cfg, w, s) <==>
              InWorld(w, o) && o != s && Near(cell, CellOf(a, w, o), a.vision) && InDisc(Of(w, s).pos, Of(w, o).pos, cfg.radial)
    {
      TargetsMembers(w, s, cfg.radial, order, o);
      InRangeIsDisc(w, s, o, cfg.radial);
      assert cell in w.grids;
    }
  }

  /** The targets found in the attacker's one cell are all other players in the world within range, each once. */
  lemma AreaAttackFindsAll(cfg: Config, sv: Server, k: Known, s: Sid)
    requires RadialFits(cfg) && Reachable(cfg, sv, k)
    ensures forall o :: o in AreaTargets(cfg, sv.world, s) <==>
                        InWorld(sv.world, o) && o != s && InDisc(Of(sv.world, s).pos, Of(sv.world, o).pos, cfg.radial)
    ensures Ascending(AreaTargets(cfg, sv.world, s))
  {
    hide GetGridPos, AreaTargets, InRange, InDisc;
    var w := sv.world;
    ReachableOk(cfg, sv, k);
    AreaTargetsAre(cfg, w, s);
    forall o | InDisc(Of(w, s).pos, Of(w, o).pos, cfg.radial)
      ensures Near(CellOf(cfg.area, w, s), CellOf(cfg.area, w, o), cfg.area.vision)
    {
      InRangeIsDisc(w, s, o, cfg.radial);
      if cfg.radial <= (cfg.area.vision * cfg.area.gridSize) as real {
        InRangeIsNear(cfg, w, s, o);
      } else {
        WholeMapIsNear(cfg.area, CellOf(cfg.area, w, s), CellOf(cfg.area, w, o));
      }
    }
  }

  lemma WholeMapIsNear(a: Area, c: Cell, d: Cell)
    requires Count(a) <= a.vision + 1 && !IsInvalid(a, c) && !IsInvalid(a, d)
    ensures Near(c, d, a.vision)
  {
  }

  // ----- the damage -----

  function Damaged(hp: int, damage: int): int {
    if hp - damage > 0 then hp - damage else 0
  }

  ghost predicate HpAre(w: World, w': World, hit: set<Sid>, damage: int) {
    && w'.players.Keys == w.players.Keys
    && (forall t :: t in w.players ==>
          w'.players[t].hp == if t in hit then Damaged(w.players[t].hp, damage) else w.players[t].hp)
  }

  lemma HitHp(a: Area, sv: Server, s: Sid, t: Sid, id: Pid, damage: nat)
    requires forall u :: u in sv.world.players ==> sv.world.players[u].hp >= 0
    ensures HpAre(sv.world, Hit(a, sv, s, t, id, damage).0.world, {t}, damage)
  {
    hide Broadcast;
  }

  lemma {:induction false} HitAllHp(a: Area, sv: Server, s: Sid, targets: seq<Sid>)
    requires Ascending(targets) && forall u :: u in sv.world.players ==> sv.world.players[u].hp >= 0
    ensures HpAre(sv.world, HitAll(a, sv, s, targets).0.world, set t | t in targets, 20)
    decreases targets
  {
    hide Hit, Broadcast;
    if targets != [] {
      var id := Of(sv.world, targets[0]).id;
      var sv1 := Hit(a, sv, s, targets[0], id, 20).0;
      HitHp(a, sv, s, targets[0], id, 20);
      assert targets[0] !in targets[1..] && targets == [targets[0]] + targets[1..];
      HitAllHp(a, sv1, s, targets[1..]);
      assert forall t :: t in sv1.world.players.Keys <==> t in sv.world.players.Keys;
    }
  }

  /** An area attack by a living player takes 20 HP, down to 0, from every other player in the world within range,
      once, and from nobody else. */
  lemma AreaAttackDamages(cfg: Config, sv: Server, k: Known, s: Sid, targetId: Pid)
    requires RadialFits(cfg) && Reachable(cfg, sv, k) && Alive(sv.world, s)
    ensures var w, w' := sv.world, Attack(cfg, sv, s, 1, targetId).0.world;
            && w'.players.Keys == w.players.Keys
            && forall t :: t in w.players ==>
                 w'.players[t].hp == if t != s && InDisc(Of(w, s).pos, Of(w, t).pos, cfg.radial) then Damaged(w.players[t].hp, 20)
                                     else w.players[t].hp
  {
    hide HitAll, AreaTargets, InDisc;
    ReachableOk(cfg, sv, k);
    AreaAttackFindsAll(cfg, sv, k, s);
    HitAllHp(cfg.area, sv, s, AreaTargets(cfg, sv.world, s));
  }

  lemma AxisJustBelow(a: Area, d: real)
    requires 0.0 < d <= 1.0
    ensures Axis(a, a.gridSize as real - d) == 0
  {
    var v := a.gridSize as real - d;
    assert 0 <= v.Floor < a.gridSize;
    assert v.Floor / a.gridSize == 0;
  }

  lemma JustOutOfView(a: Area, radial: Range) returns (p: Pos, x: int)
    requires radial > (a.vision * a.gridSize) as real && Count(a) > a.vision + 1
    ensures OnMap(a, p) && 0 <= x < a.mapSize && p.y == 0.0
    ensures Axis(a, p.x) == 0 && Axis(a, x as real) == a.vision + 1
    ensures 0.0 <= x as real - p.x <= radial
  {
    var g, r := a.gridSize, a.vision;
    var slack := radial - (r * g) as real;
    var d := if slack < 1.0 then slack else 1.0;
    CellOfMultiple(a, r + 1);
    AxisJustBelow(a, d);
    x := (r + 1) * g;
    p := Pos(g as real - d, 0.0);
    RowArithmetic(g, r);
  }

  lemma RowArithmetic(g: int, r: nat)
    requires g > 0
    ensures (r + 1) * g == r * g + g && r * g >= 0
  {
  }

  /** One player just left of the first cell border, one at the border just out of view, and a range that
      reaches across: the attack misses a player within range. */
  lemma RadialMisses(cfg: Config) returns (sv: Server, k: Known)
    requires !RadialFits(cfg)
    ensures Reachable(cfg, sv, k) && InWorld(sv.world, 1) && InWorld(sv.world, 2)
    ensures InDisc(Of(sv.world, 1).pos, Of(sv.world, 2).pos, cfg.radial) && 2 !in AreaTargets(cfg, sv.world, 1)
  {
    var p, x := JustOutOfView(cfg.area, cfg.radial);
    var sv0, k0 := TwoPlayers(cfg, 0, x, 0);
    sv, k := FirstMovesTo(cfg, sv0, k0, p);
    InDiscOnRow(cfg, sv.world);
    MissedBySnapshot(cfg, sv, k);
  }

  lemma FirstMovesTo(cfg: Config, sv0: Server, k0: Known, p: Pos) returns (sv: Server, k: Known)
    requires Reachable(cfg, sv0, k0) && OnMap(cfg.area, p)
    requires InWorld(sv0.world, 1) && InWorld(sv0.world, 2) && Alive(sv0.world, 1)
    ensures Reachable(cfg, sv, k) && InWorld(sv.world, 1) && InWorld(sv.world, 2)
    ensures Of(sv.world, 1).pos == p && Of(sv.world, 2) == Of(sv0.world, 2)
  {
    ReachableOk(cfg, sv0, k0);
    sv, k := ReachableNext(cfg, sv0, k0, DoMove(1, p));
    MoveKeepsIndex(cfg.area, sv0.world, 1, p);
    assert ClampPos(cfg.area, p) == p;
  }

  lemma InDiscOnRow(cfg: Config, w: World)
    requires Of(w, 1).pos.y == Of(w, 2).pos.y
    requires 0.0 <= Of(w, 2).pos.x - Of(w, 1).pos.x <= cfg.radial
    ensures InDisc(Of(w, 1).pos, Of(w, 2).pos, cfg.radial)
  {
    SquareMonotone(Of(w, 2).pos.x - Of(w, 1).pos.x, cfg.radial);
  }

  lemma MissedBySnapshot(cfg: Config, sv: Server, k: Known)
    requires Reachable(cfg, sv, k)
    requires Dist(Axis(cfg.area, Of(sv.world, 1).pos.x), Axis(cfg.area, Of(sv.world, 2).pos.x)) > cfg.area.vision
    ensures 2 !in AreaTargets(cfg, sv.world, 1)
  {
    var cell := CellOf(cfg.area, sv.world, 1);
    TargetsMembers(sv.world, 1, cfg.radial, InOrder(At(sv.world.grids, cell)), 2);
    IndexIsExact(cfg, sv, k, cell, 2);
  }

  /** In every reachable state the area attack loses nobody within range, iff the range fits. */
  lemma RadialCoversIff(cfg: Config)
    ensures (forall sv, k, s, o :: Reachable(cfg, sv, k) && InWorld(sv.world, s) && InWorld(sv.world, o) && o != s
                                   && InDisc(Of(sv.world, s).pos, Of(sv.world, o).pos, cfg.radial)
                                   ==> o in AreaTargets(cfg, sv.world, s))
            <==> RadialFits(cfg)
  {
    if RadialFits(cfg) {
      forall sv, k, s | Reachable(cfg, sv, k)
        ensures forall o :: InWorld(sv.world, o) && o != s && InDisc(Of(sv.world, s).pos, Of(sv.world, o).pos, cfg.radial)
                            ==> o in AreaTargets(cfg, sv.world, s)
      {
        AreaAttackFindsAll(cfg, sv, k, s);
      }
    } else {
      var sv, k := RadialMisses(cfg);
      assert Reachable(cfg, sv, k) && InWorld(sv.world, 1) && InWorld(sv.world, 2);
    }
  }
}
