/** Runs of two players that show where the promises about knowledge end, and the exact condition
    on the map under which the clients know precisely whom they can see. */
module Witnesses {
  import opened Grid
  import opened Aoi
  import opened Ledger
  import opened TimeWheels
  import opened Servers
  import opened Invariants
  import opened Runs
  import opened Theorems

  lemma {:induction false} ExecAppend(cfg: Config, sv: Server, k: Known, steps: seq<Step>, step: Step)
    requires Legal(cfg, sv, steps) && Enabled(cfg, Exec(cfg, sv, k, steps).0, step)
    ensures Legal(cfg, sv, steps + [step])
    ensures var (sv1, k1) := Exec(cfg, sv, k, steps);
            var (sv2, sends) := Apply(cfg, sv1, step);
            Exec(cfg, sv, k, steps + [step]) == (sv2, Fold(k1, sv2.world, sends))
    decreases steps
  {
    if steps == [] {
      assert steps + [step] == [step] && [step][1..] == [];
    } else {
      var (sv1, sends) := Apply(cfg, sv, steps[0]);
      assert (steps + [step])[1..] == steps[1..] + [step];
      ExecAppend(cfg, sv1, Fold(k, sv1.world, sends), steps[1..], step);
    }
  }

  lemma ReachableNext(cfg: Config, sv: Server, k: Known, step: Step) returns (sv': Server, k': Known)
    requires Reachable(cfg, sv, k) && Enabled(cfg, sv, step)
    ensures sv' == Apply(cfg, sv, step).0 && k' == Fold(k, sv'.world, Apply(cfg, sv, step).1)
    ensures Reachable(cfg, sv', k') && Inv(cfg, sv', k')
  {
    var steps :| Legal(cfg, Init(cfg.area), steps) && Exec(cfg, Init(cfg.area), {}, steps) == (sv, k);
    ExecAppend(cfg, Init(cfg.area), {}, steps, step);
    sv' := Apply(cfg, sv, step).0;
    k' := Fold(k, sv'.world, Apply(cfg, sv, step).1);
    ReachableOk(cfg, sv', k');
  }

  lemma TwoLogins(cfg: Config) returns (sv: Server, k: Known)
    ensures Reachable(cfg, sv, k) && Inv(cfg, sv, k) && sv.world.players == map[]
    ensures sv.world.ses == map[1 := Session(1, Pos(0.0, 0.0), LOBBY), 2 := Session(2, Pos(0.0, 0.0), LOBBY)]
  {
    var init := Init(cfg.area);
    assert Legal(cfg, init, []) && Exec(cfg, init, {}, []) == (init, {});
    var sv1, k1 := ReachableNext(cfg, init, {}, DoLogin(1));
    sv, k := ReachableNext(cfg, sv1, k1, DoLogin(2));
  }

  /** Sessions 1 and 2 log in, and the first enters. */
  lemma OnePlayer(cfg: Config, x: int, y: int) returns (sv: Server, k: Known)
    requires 0 <= x < cfg.area.mapSize && 0 <= y < cfg.area.mapSize
    ensures Reachable(cfg, sv, k) && Inv(cfg, sv, k) && sv.world.players == map[1 := Vitals(FULL_HP, FULL_HP)]
    ensures Of(sv.world, 1) == Session(1, Pos(x as real, y as real), GAME)
    ensures Of(sv.world, 2) == Session(2, Pos(0.0, 0.0), LOBBY)
  {
    var sv0, k0 := TwoLogins(cfg);
    sv, k := ReachableNext(cfg, sv0, k0, DoEnter(1, x, y));
  }

  /** Sessions 1 and 2 log in and enter at the given places. */
  lemma TwoPlayers(cfg: Config, x1: int, x2: int, y: int) returns (sv: Server, k: Known)
    requires 0 <= x1 < cfg.area.mapSize && 0 <= x2 < cfg.area.mapSize && 0 <= y < cfg.area.mapSize
    ensures Reachable(cfg, sv, k) && InWorld(sv.world, 1) && InWorld(sv.world, 2)
    ensures Of(sv.world, 1) == Session(1, Pos(x1 as real, y as real), GAME)
    ensures Of(sv.world, 2) == Session(2, Pos(x2 as real, y as real), GAME)
    ensures sv.world.players == map[1 := Vitals(FULL_HP, FULL_HP), 2 := Vitals(FULL_HP, FULL_HP)]
    ensures var a := cfg.area;
            (1, 2) in k <==> Near(GetGridPos(a, Pos(x1 as real, y as real)), GetGridPos(a, Pos(x2 as real, y as real)), a.vision)
  {
    hide Fold, GetGridPos, Insert, Near;
    var sv0, k0 := OnePlayer(cfg, x1, y);
    var w := SetSession(sv0.world, 2, Of(sv0.world, 2).(state := GAME));
    assert FreshId(sv0.world, k0, sv0.timers, 2);
    assert 1 in sv0.world.players;
    sv, k := ReachableNext(cfg, sv0, k0, DoEnter(2, x2, y));
    forall t
      ensures t != 2 ==> Of(w, t) == Of(sv0.world, t)
      ensures InWorld(w, t) <==> InWorld(sv0.world, t)
    {
    }
    SameSessionsIndex(cfg.area, sv0.world, w);
    EnterLaw(cfg.area, k0, w, 2, Pos(x2 as real, y as real), 1, 1);
    EnterKeepsIndex(cfg.area, w, 2, Pos(x2 as real, y as real));
  }

  lemma CellOfMultiple(a: Area, n: int)
    requires 0 <= n < Count(a)
    ensures 0 <= n * a.gridSize < a.mapSize && Axis(a, (n * a.gridSize) as real) == n
  {
    var g := a.gridSize;
    assert a.mapSize == g * Count(a) + a.mapSize % g;
    MulMonotone(g, n + 1, Count(a));
    assert g * (n + 1) == n * g + g;
    MulMonotone(g, 0, n);
    QuotientOfMultiple(g, n);
  }

  lemma QuotientOfMultiple(g: int, n: int)
    requires g > 0
    ensures n * g / g == n
  {
    var q := n * g / g;
    assert n * g == g * q + n * g % g;
    assert g * (q + 1) == g * q + g;
    assert g * (n + 1) == n * g + g;
    SmallerFactor(g, n, q + 1);
    SmallerFactor(g, q, n + 1);
  }

  lemma CornerCell(a: Area, n: int)
    requires 0 <= n < Count(a)
    ensures 0 <= n * a.gridSize < a.mapSize
    ensures GetGridPos(a, Pos((n * a.gridSize) as real, 0.0)) == Cell(n, 0)
  {
    CellOfMultiple(a, n);
    CellOfMultiple(a, 0);
  }

  /** Two players enter in columns c1 and c2 of the bottom row, then the first moves to column c3. */
  lemma MeetAndMove(cfg: Config, c1: int, c2: int, c3: int) returns (sv: Server, k: Known)
    requires 0 <= c1 < Count(cfg.area) && 0 <= c2 < Count(cfg.area) && 0 <= c3 < Count(cfg.area)
    ensures Reachable(cfg, sv, k) && InWorld(sv.world, 1) && InWorld(sv.world, 2)
    ensures Of(sv.world, 1).id == 1 && Of(sv.world, 2).id == 2
    ensures CellOf(cfg.area, sv.world, 1) == Cell(c3, 0) && CellOf(cfg.area, sv.world, 2) == Cell(c2, 0)
    ensures var a, o, from, to := cfg.area, Cell(c2, 0), Cell(c1, 0), Cell(c3, 0);
            (1, 2) in k <==> Touches(a, o, to, from) || (Near(from, o, a.vision) && !Touches(a, o, from, to))
  {
    hide Touches, Fold, GetGridPos, Reindex;
    var a, g := cfg.area, cfg.area.gridSize;
    CornerCell(a, c1);
    CornerCell(a, c2);
    CornerCell(a, c3);
    var sv0, k0 := TwoPlayers(cfg, c1 * g, c2 * g, 0);
    var p := Pos((c3 * g) as real, 0.0);
    ReachableOk(cfg, sv0, k0);
    assert ClampPos(a, p) == p && MoveTarget(a, p) == Cell(c3, 0);
    sv, k := ReachableNext(cfg, sv0, k0, DoMove(1, p));
    MoveLaw(a, k0, sv0.world, 1, p, 2, 2);
    MovedParts(a, sv0.world, 1, p);
    MoveKeepsIndex(a, sv0.world, 1, p);
  }

  /** The bound of twice the vision range is reached, on every map with room for it. */
  lemma TwiceVisionIsTight(cfg: Config) returns (sv: Server, k: Known)
    requires Count(cfg.area) >= 2 * cfg.area.vision + 2
    ensures Reachable(cfg, sv, k) && InWorld(sv.world, 1) && InWorld(sv.world, 2)
    ensures (Of(sv.world, 1).id, Of(sv.world, 2).id) in k
    ensures Dist(CellOf(cfg.area, sv.world, 1).x, CellOf(cfg.area, sv.world, 2).x) == 2 * cfg.area.vision
  {
    sv, k := MeetAndMove(cfg, 0, 2 * cfg.area.vision + 1, 1);
  }

  /** Two players stand in one cell; one steps to the next cell. The other is still in view and is
      forgotten. */
  lemma VisibleButForgotten(cfg: Config) returns (sv: Server, k: Known)
    requires !TrivialVision(cfg.area)
    ensures Reachable(cfg, sv, k) && InWorld(sv.world, 1) && InWorld(sv.world, 2)
    ensures Near(CellOf(cfg.area, sv.world, 1), CellOf(cfg.area, sv.world, 2), cfg.area.vision)
    ensures (Of(sv.world, 1).id, Of(sv.world, 2).id) !in k
  {
    var r := cfg.area.vision;
    sv, k := MeetAndMove(cfg, r, r, r + 1);
  }

  /** In every reachable state each client knows exactly the players it can see, iff the map makes vision
      trivial. With the shipped constants (10 x 10 cells, range 1) it does not hold. */
  lemma KnownIsVisibleIff(cfg: Config)
    ensures (forall sv, k :: Reachable(cfg, sv, k) ==> AllAgree(cfg.area, sv.world, k)) <==> TrivialVision(cfg.area)
  {
    if TrivialVision(cfg.area) {
      forall sv, k | Reachable(cfg, sv, k)
        ensures AllAgree(cfg.area, sv.world, k)
      {
        var steps :| Legal(cfg, Init(cfg.area), steps) && Exec(cfg, Init(cfg.area), {}, steps) == (sv, k);
        InitOk(cfg);
        RunAgrees(cfg, Init(cfg.area), {}, steps);
      }
    } else {
      var sv, k := VisibleButForgotten(cfg);
      assert Reachable(cfg, sv, k) && !Agree(cfg.area, sv.world, k, 1, 2);
    }
  }
}
