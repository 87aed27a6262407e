/** The running server: the world, the id counter and the respawn timers, driven by the packet
    handlers (PacketHandler.cpp), the death and respawn of players (Player.h, Player.cpp) and
    the time wheel. Every handler is one atomic step. The timers are the pending list that the
    time wheel is proved to behave as (TimeWheel.dfy). */
module Servers {
  import opened Grid
  import opened Aoi
  import opened Ledger
  import opened TimeWheels

  type Range = r: real | r >= 0.0

  /** ATTACK_RANGE_MEL and ATTACK_RANGE_RADIAL come with the map constants. */
  datatype Config = Config(area: Area, melee: Range, radial: Range)

  /** The closure Die hands to the time wheel. */
  datatype Respawn = Respawn(session: Sid, expectedId: Pid)

  type Timers = seq<Entry<Respawn>>

  datatype Server = Server(world: World, nextId: Pid, now: int, timers: Timers)

  const RESPAWN_DELAY := 5000

  // ----- Player -----

  function SetHp(w: World, s: Sid, hp: int): World
    requires s in w.players
  {
    w.(players := w.players[s := w.players[s].(hp := hp)])
  }

  function Die(a: Area, sv: Server, s: Sid): (Server, seq<Send>)
    requires s in sv.world.players
  {
    var id := Of(sv.world, s).id;
    var entry := Entry(sv.now + Lap(RESPAWN_DELAY / WHEEL_TICK), Respawn(s, id));
    (sv.(world := SetHp(sv.world, s, 0), timers := sv.timers + [entry]),
     Broadcast(a, sv.world, s, SDie(id)))
  }

  function OnDamaged(a: Area, sv: Server, s: Sid, damage: int): (Server, seq<Send>)
    requires s in sv.world.players
  {
    var hp := sv.world.players[s].hp;
    if hp <= 0 then (sv, [])
    else if hp - damage <= 0 then Die(a, sv, s)
    else (sv.(world := SetHp(sv.world, s, hp - damage)), [])
  }

  function RespawnNow(a: Area, w: World, s: Sid): (World, seq<Send>)
    requires s in w.players
  {
    var p := SRespawn(Of(w, s).id, Of(w, s).pos);
    (SetHp(w, s, w.players[s].maxHp), [Send(s, p)] + Broadcast(a, w, s, p))
  }

  /** The timer callback: nothing happens when the player is gone or the session carries another id. */
  function Fire(a: Area, w: World, r: Respawn): (World, seq<Send>)
  {
    if r.session !in w.players || Of(w, r.session).id != r.expectedId then (w, [])
    else RespawnNow(a, w, r.session)
  }

  function FireAll(a: Area, w: World, rs: seq<Respawn>): (World, seq<Send>)
    decreases rs
  {
    if rs == [] then (w, [])
    else
      var (w1, s1) := Fire(a, w, rs[0]);
      var (w2, s2) := FireAll(a, w1, rs[1..]);
      (w2, s1 + s2)
  }

  /** One advance of the time wheel. */
  function Tick(a: Area, sv: Server): (Server, seq<Send>)
  {
    var (w, sends) := FireAll(a, sv.world, Due(sv.timers, sv.now + 1));
    (Server(w, sv.nextId, sv.now + 1, NotDue(sv.timers, sv.now + 1)), sends)
  }

  function TickMany(a: Area, sv: Server, n: nat): (Server, seq<Send>)
    decreases n
  {
    if n == 0 then (sv, [])
    else
      var (sv1, s1) := Tick(a, sv);
      var (sv2, s2) := TickMany(a, sv1, n - 1);
      (sv2, s1 + s2)
  }

  /** World::Update when the clock reads `clock`: as many ticks as the wheel is behind, and the wheel's new lastTick. */
  function UpdateAt(a: Area, sv: Server, lastTick: int, clock: int): (Server, int, seq<Send>)
    requires lastTick <= clock
  {
    var n := (clock - lastTick) / WHEEL_TICK;
    var (sv1, sends) := TickMany(a, sv, n);
    (sv1, lastTick + n * WHEEL_TICK, sends)
  }

  lemma {:induction false} FireAllAppend(a: Area, w: World, r1: seq<Respawn>, r2: seq<Respawn>)
    ensures var (w1, s1) := FireAll(a, w, r1);
            var (w2, s2) := FireAll(a, w1, r2);
            FireAll(a, w, r1 + r2) == (w2, s1 + s2)
    decreases r1
  {
    if r1 == [] {
      assert r1 + r2 == r2;
      assert [] + FireAll(a, w, r2).1 == FireAll(a, w, r2).1;
    } else {
      var (w1, s1) := Fire(a, w, r1[0]);
      assert (r1 + r2)[0] == r1[0] && (r1 + r2)[1..] == r1[1..] + r2;
      FireAllAppend(a, w1, r1[1..], r2);
      var (w2, s2) := FireAll(a, w1, r1[1..]);
      assert s1 + (s2 + FireAll(a, w2, r2).1) == (s1 + s2) + FireAll(a, w2, r2).1;
    }
  }

  lemma FireNone(a: Area, w: World)
    ensures FireAll(a, w, []) == (w, [])
  {
  }

  /** Ticks in a row run the callbacks of all of them in a row. */
  lemma {:induction false} TickManyRuns(a: Area, sv: Server, n: nat)
    ensures var (w, sends) := FireAll(a, sv.world, DueThrough(sv.timers, sv.now, n));
            TickMany(a, sv, n) == (Server(w, sv.nextId, sv.now + n, NotDueThrough(sv.timers, sv.now, n)), sends)
    decreases n
  {
    hide FireAll, Due, NotDue;
    if n == 0 {
      FireNone(a, sv.world);
    } else {
      var now := Due(sv.timers, sv.now + 1);
      var later := DueThrough(NotDue(sv.timers, sv.now + 1), sv.now + 1, n - 1);
      FireAllAppend(a, sv.world, now, later);
      TickManyRuns(a, Tick(a, sv).0, n - 1);
    }
  }

  // ----- attacks -----

  /** CalculateDistance(s, t) <= range, without the square root. */
  predicate InRange(w: World, s: Sid, t: Sid, range: real) {
    var dx, dy := Of(w, s).pos.x - Of(w, t).pos.x, Of(w, s).pos.y - Of(w, t).pos.y;
    dx * dx + dy * dy <= range * range
  }

  function Targets(w: World, s: Sid, range: real, order: seq<Sid>): seq<Sid> {
    if order == [] then []
    else (if order[0] != s && InRange(w, s, order[0], range) then [order[0]] else [])
         + Targets(w, s, range, order[1..])
  }

  /** The snapshot of the area attack: one read of the attacker's own cell. */
  function AreaTargets(cfg: Config, w: World, s: Sid): seq<Sid>
  {
    Targets(w, s, cfg.radial, InOrder(At(w.grids, CellOf(cfg.area, w, s))))
  }

  /** Damage one target that has a player, then tell the attacker's observers. */
  function Hit(a: Area, sv: Server, s: Sid, t: Sid, targetId: Pid, damage: int): (Server, seq<Send>)
  {
    if t !in sv.world.players then (sv, [])
    else
      var (sv1, s1) := OnDamaged(a, sv, t, damage);
      (sv1, s1 + Broadcast(a, sv1.world, s, SAttack(Of(sv.world, s).id, targetId)))
  }

  function HitAll(a: Area, sv: Server, s: Sid, targets: seq<Sid>): (Server, seq<Send>)
    decreases targets
  {
    if targets == [] then (sv, [])
    else
      var (sv1, s1) := Hit(a, sv, s, targets[0], Of(sv.world, targets[0]).id, 20);
      var (sv2, s2) := HitAll(a, sv1, s, targets[1..]);
      (sv2, s1 + s2)
  }

  predicate Alive(w: World, s: Sid) {
    s in w.players && w.players[s].hp > 0
  }

  /** Handle_C_ATTACK */
  function Attack(cfg: Config, sv: Server, s: Sid, kind: int, targetId: Pid): (Server, seq<Send>)
  {
    var w := sv.world;
    if !Alive(w, s) then (sv, [])
    else if kind == 0 then
      if targetId !in w.sessions || !InRange(w, s, w.sessions[targetId], cfg.melee) then (sv, [])
      else Hit(cfg.area, sv, s, w.sessions[targetId], targetId, 10)
    else if kind == 1 then HitAll(cfg.area, sv, s, AreaTargets(cfg, w, s))
    else (sv, [])
  }

  // ----- the other handlers -----

  predicate OnMap(a: Area, p: Pos) {
    0.0 <= p.x < a.mapSize as real && 0.0 <= p.y < a.mapSize as real
  }

  function SetSession(w: World, s: Sid, ses: Session): World {
    w.(ses := w.ses[s := ses])
  }

  /** A successful login: a fresh id from g_IdCounter, set by Handle_S_LOGIN. */
  function Login(sv: Server, s: Sid): (Server, seq<Send>) {
    (sv.(world := SetSession(sv.world, s, Of(sv.world, s).(id := sv.nextId, state := LOBBY)), nextId := sv.nextId + 1),
     [Send(s, SLogin(sv.nextId))])
  }

  /** Handle_C_ENTER_GAME */
  function Enter(a: Area, sv: Server, s: Sid, p: Pos): (Server, seq<Send>)
  {
    if Of(sv.world, s).state != LOBBY then (sv, [])
    else
      var (w, sends) := EnterGame(a, SetSession(sv.world, s, Of(sv.world, s).(state := GAME)), s, p);
      (sv.(world := w), sends)
  }

  /** Handle_C_MOVE */
  function Move(a: Area, sv: Server, s: Sid, p: Pos): (Server, seq<Send>)
  {
    if !Alive(sv.world, s) || !OnMap(a, p) then (sv, [])
    else
      var (w, sends) := HandleMove(a, sv.world, s, p);
      (sv.(world := w), sends)
  }

  /** The connection ends: LeaveGame, the player is gone, and the session object is free again. */
  function Disconnect(a: Area, sv: Server, s: Sid): (Server, seq<Send>)
  {
    var (w, sends) := LeaveGame(a, sv.world, s);
    (sv.(world := SetSession(w.(players := w.players - {s}), s, Of(w, s).(state := NONE))), sends)
  }

  // ----- runs -----

  datatype Step =
    | DoLogin(s: Sid)
    | DoEnter(s: Sid, spawnX: int, spawnY: int)
    | DoMove(s: Sid, pos: Pos)
    | DoAttack(s: Sid, kind: int, targetId: Pid)
    | DoDisconnect(s: Sid)
    | DoTick

  /** A login is not repeated by a session in the game, and rand() % MAP_SIZE is on the map. Everything
      else is guarded by the handlers themselves. */
  predicate Enabled(cfg: Config, sv: Server, step: Step) {
    match step
    case DoLogin(s) => Of(sv.world, s).state != GAME
    case DoEnter(s, x, y) => 0 <= x < cfg.area.mapSize && 0 <= y < cfg.area.mapSize
    case _ => true
  }

  function Apply(cfg: Config, sv: Server, step: Step): (Server, seq<Send>)
  {
    match step
    case DoLogin(s) => Login(sv, s)
    case DoEnter(s, x, y) => Enter(cfg.area, sv, s, Pos(x as real, y as real))
    case DoMove(s, p) => Move(cfg.area, sv, s, p)
    case DoAttack(s, kind, id) => Attack(cfg, sv, s, kind, id)
    case DoDisconnect(s) => Disconnect(cfg.area, sv, s)
    case DoTick => Tick(cfg.area, sv)
  }

  function AllCells(n: int): set<Cell> {
    set x, y | 0 <= x < n && 0 <= y < n :: Cell(x, y)
  }

  function Init(a: Area): Server
  {
    Server(World(map c | c in AllCells(Count(a)) :: {}, map[], map[], map[]), 1, 0, [])
  }

  /** The server and the ledger after a sequence of steps. */
  function Exec(cfg: Config, sv: Server, k: Known, steps: seq<Step>): (Server, Known)
    decreases steps
  {
    if steps == [] then (sv, k)
    else
      var (sv1, sends) := Apply(cfg, sv, steps[0]);
      Exec(cfg, sv1, Fold(k, sv1.world, sends), steps[1..])
  }

  predicate Legal(cfg: Config, sv: Server, steps: seq<Step>)
    decreases steps
  {
    steps == [] || (Enabled(cfg, sv, steps[0]) && Legal(cfg, Apply(cfg, sv, steps[0]).0, steps[1..]))
  }

  function Ticks(steps: seq<Step>): nat {
    if steps == [] then 0 else (if steps[0].DoTick? then 1 else 0) + Ticks(steps[1..])
  }
}
