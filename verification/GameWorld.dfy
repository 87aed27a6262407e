/** World, Player and the packet handlers as the source has them: objects updated in place. Each method is
    proved to do what the value-level function of the same operation says, to the state and to the packets
    sent. */
module GameWorld {
  import opened Grid
  import opened Aoi
  import opened TimeWheels
  import opened Servers

  // ----- one iteration of a loop, on values -----

  lemma InOrderStep(rest: set<Sid>)
    requires rest != {}
    ensures InOrder(rest) == [Least(rest)] + InOrder(rest - {Least(rest)})
  {
  }

  lemma PairUpStep(rest: set<Sid>, s: Sid)
    requires rest != {}
    ensures var other := Least(rest);
            PairUp(InOrder(rest), s) ==
            (if other == s then [] else [(other, s), (s, other)]) + PairUp(InOrder(rest - {other}), s)
  {
    InOrderStep(rest);
    var tail := InOrder(rest - {Least(rest)});
    assert ([Least(rest)] + tail)[1..] == tail;
  }

  lemma ExceptStep(rest: set<Sid>, s: Sid)
    requires rest != {}
    ensures var other := Least(rest);
            Except(InOrder(rest), s) == (if other == s then [] else [other]) + Except(InOrder(rest - {other}), s)
  {
    InOrderStep(rest);
    var tail := InOrder(rest - {Least(rest)});
    assert ([Least(rest)] + tail)[1..] == tail;
  }

  lemma ToAllStep(rest: set<Sid>, p: Packet)
    requires rest != {}
    ensures ToAll(InOrder(rest), p) == [Send(Least(rest), p)] + ToAll(InOrder(rest - {Least(rest)}), p)
  {
    InOrderStep(rest);
    var tail := InOrder(rest - {Least(rest)});
    assert ([Least(rest)] + tail)[1..] == tail;
  }

  /** What the collection loop still has to add when it stands at offset (dx, dy). */
  ghost function LeftOver(a: Area, g: Cells, s: Sid, from: Cell, to: Cell, dy: int, dx: int): seq<(Sid, Sid)> {
    Pairs(g, s, StripeFrom(a, from, to, dy, dx))
  }

  /** What it adds there. */
  function CellPairs(a: Area, g: Cells, s: Sid, from: Cell, to: Cell, c: Cell): seq<(Sid, Sid)> {
    if InStripe(a, c, from, to) then PairUp(InOrder(At(g, c)), s) else []
  }

  lemma LeftOverStep(a: Area, g: Cells, s: Sid, from: Cell, to: Cell, dy: int, dx: int)
    requires dy <= a.vision && dx <= a.vision
    ensures LeftOver(a, g, s, from, to, dy, dx) ==
            CellPairs(a, g, s, from, to, Cell(from.x + dx, from.y + dy)) + LeftOver(a, g, s, from, to, dy, dx + 1)
  {
    var c, rest := Cell(from.x + dx, from.y + dy), StripeFrom(a, from, to, dy, dx + 1);
    if InStripe(a, c, from, to) {
      assert StripeFrom(a, from, to, dy, dx) == [c] + rest && ([c] + rest)[1..] == rest;
    } else {
      assert StripeFrom(a, from, to, dy, dx) == rest;
    }
  }

  lemma LeftOverRow(a: Area, g: Cells, s: Sid, from: Cell, to: Cell, dy: int)
    requires dy <= a.vision
    ensures LeftOver(a, g, s, from, to, dy, a.vision + 1) == LeftOver(a, g, s, from, to, dy + 1, -a.vision)
  {
  }

  lemma LeftOverEnds(a: Area, g: Cells, s: Sid, from: Cell, to: Cell)
    ensures LeftOver(a, g, s, from, to, -a.vision, -a.vision) == Pairs(g, s, Stripe(a, from, to))
    ensures LeftOver(a, g, s, from, to, a.vision + 1, -a.vision) == []
  {
  }

  lemma BroadcastIgnoresHp(a: Area, w: Aoi.World, s: Sid, hp: int, p: Packet)
    requires s in w.players
    ensures Broadcast(a, SetHp(w, s, hp), s, p) == Broadcast(a, w, s, p)
  {
  }

  lemma DieIgnoresHp(a: Area, sv: Server, s: Sid, hp: int)
    requires s in sv.world.players
    ensures Servers.Die(a, sv.(world := SetHp(sv.world, s, hp)), s) == Servers.Die(a, sv, s)
  {
    assert SetHp(SetHp(sv.world, s, hp), s, 0) == SetHp(sv.world, s, 0);
  }

  lemma Assoc<T>(x: seq<T>, y: seq<T>, z: seq<T>)
    ensures x + (y + z) == (x + y) + z
  {
  }

  lemma ThreeParts<T>(s: seq<T>, x: seq<T>, y: seq<T>, z: seq<T>)
    ensures s + x + y + z == s + (x + y + z)
    ensures x == [] && y == [] ==> s + x + y + z == s + z
  {
  }

  class Player {
    var hp: int
    var maxHp: int
    const session: Sid

    constructor (session: Sid)
      ensures this.session == session && hp == FULL_HP && maxHp == FULL_HP
    {
      this.session := session;
      hp, maxHp := FULL_HP, FULL_HP;
    }

    method OnDamaged(damage: int, world: World)
      requires world.Valid() && session in world.players && world.players[session] == this
      modifies this, world`sent, world`timers, world.timeWheel.slots
      ensures world.Valid()
      ensures var (sv, sends) := Servers.OnDamaged(world.area, old(world.Abs()), session, damage);
              world.Abs() == sv && world.sent == old(world.sent) + sends
    {
      ghost var w := world.WorldOf();
      assert world.sent + [] == world.sent;
      if hp <= 0 {
        return;
      }
      hp := hp - damage;
      world.OnlyHpChanged(session, w, hp);
      if hp <= 0 {
        hp := 0;
        world.OnlyHpChanged(session, w, 0);
        DieIgnoresHp(world.area, old(world.Abs()), session, 0);
        Die(world);
      }
    }

    /** Tells the observers and schedules the respawn with the id the session has now. */
    method Die(world: World)
      requires world.Valid() && session in world.players && world.players[session] == this
      modifies this, world`sent, world`timers, world.timeWheel.slots
      ensures world.Valid()
      ensures var (sv, sends) := Servers.Die(world.area, old(world.Abs()), session);
              world.Abs() == sv && world.sent == old(world.sent) + sends
    {
      hide Broadcast, Refines;
      ghost var w := world.WorldOf();
      hp := 0;
      world.OnlyHpChanged(session, w, 0);
      BroadcastIgnoresHp(world.area, w, session, 0, SDie(Of(w, session).id));
      world.BroadcastPacketToObservers(session, SDie(world.SessionOf(session).id));
      world.Schedule(Servers.Respawn(session, world.SessionOf(session).id));
      assert world.WorldOf() == SetHp(w, session, 0);
    }

    method Respawn(world: World)
      requires world.Valid() && session in world.players && world.players[session] == this
      modifies this, world`sent
      ensures world.Valid()
      ensures var (w, sends) := RespawnNow(world.area, old(world.WorldOf()), session);
              world.WorldOf() == w && world.sent == old(world.sent) + sends
    {
      hide Broadcast, Refines;
      ghost var w := world.WorldOf();
      hp := maxHp;
      world.OnlyHpChanged(session, w, maxHp);
      BroadcastIgnoresHp(world.area, w, session, maxHp, SRespawn(Of(w, session).id, Of(w, session).pos));
      var pkt := SRespawn(world.SessionOf(session).id, world.SessionOf(session).pos);
      world.sent := world.sent + [Send(session, pkt)];
      world.BroadcastPacketToObservers(session, pkt);
    }
  }

  class World {
    const area: Area
    const grids: array2<set<Sid>>
    var sessions: map<Pid, Sid>
    var ses: map<Sid, Session>
    var players: map<Sid, Player>
    const timeWheel: TimeWheel<Servers.Respawn>
    var nextId: Pid
    var sent: seq<Send>
    ghost var timers: Timers
    ghost var now: int

    ghost predicate Shape() {
      grids.Length0 == Count(area) && grids.Length1 == Count(area)
    }

    ghost predicate Valid()
      reads this`players, this`timers, this`now, timeWheel, timeWheel.slots, players.Values
    {
      && Shape()
      && timeWheel.Valid() && Refines(timeWheel.Value(), timers, now)
      && forall s :: s in players ==> players[s].session == s
    }

    ghost function GridsOf(): Cells
      requires Shape()
      reads grids
    {
      map c | c in AllCells(Count(area)) :: grids[c.y, c.x]
    }

    ghost function PlayersOf(): map<Sid, Vitals>
      reads this`players, players.Values
    {
      map s | s in players :: Vitals(players[s].hp, players[s].maxHp)
    }

    ghost function WorldOf(): Aoi.World
      requires Shape()
      reads this`sessions, this`ses, this`players, grids, players.Values
    {
      World(GridsOf(), sessions, ses, PlayersOf())
    }

    ghost function Abs(): Server
      requires Shape()
      reads this`sessions, this`ses, this`players, this`nextId, this`now, this`timers, grids, players.Values
    {
      Server(WorldOf(), nextId, now, timers)
    }

    function SessionOf(s: Sid): (r: Session)
      requires Shape()
      reads this`sessions, this`ses, this`players, grids, players.Values
      ensures r == Of(WorldOf(), s)
    {
      if s in ses then ses[s] else Session(0, Pos(0.0, 0.0), NONE)
    }

    constructor (area: Area, clock: int)
      ensures Valid() && this.area == area && Abs() == Init(area) && sent == []
      ensures fresh(grids) && fresh(timeWheel) && fresh(timeWheel.slots)
    {
      this.area := area;
      grids := new set<Sid>[Count(area), Count(area)]((y, x) => {});
      sessions, ses, players := map[], map[], map[];
      timeWheel := new TimeWheel(clock);
      nextId, sent := 1, [];
      timers, now := [], 0;
    }

    lemma WorldIs()
      requires Shape()
      ensures WorldOf() == World(GridsOf(), sessions, ses, PlayersOf())
      ensures forall s :: s in PlayersOf() <==> s in players
    {
    }

    /** The world is `w` but for the HP of one session. */
    lemma OnlyHpChanged(s: Sid, w: Aoi.World, hp: int)
      requires Shape() && s in players && s in w.players
      requires GridsOf() == w.grids && sessions == w.sessions && ses == w.ses && players.Keys == w.players.Keys
      requires players[s].hp == hp && players[s].maxHp == w.players[s].maxHp
      requires forall t :: t in players && t != s ==> Vitals(players[t].hp, players[t].maxHp) == w.players[t]
      ensures WorldOf() == SetHp(w, s, hp)
    {
      assert PlayersOf() == SetHp(w, s, hp).players;
    }

    /** AddTimer(5000, callback), and the entry it stands for. */
    method Schedule(callback: Servers.Respawn)
      requires Valid()
      modifies `timers, timeWheel.slots
      ensures Valid()
      ensures timers == old(timers) + [Entry(now + Lap(RESPAWN_DELAY / WHEEL_TICK), callback)]
    {
      AddRefines(timeWheel.Value(), timers, now, RESPAWN_DELAY, callback);
      timeWheel.AddTimer(RESPAWN_DELAY, callback);
      timers := timers + [Entry(now + Lap(RESPAWN_DELAY / WHEEL_TICK), callback)];
    }

    // ----- the index -----

    method InsertToVisionGrids(session: Sid, centre: Cell)
      requires Shape()
      modifies grids
      ensures GridsOf() == Insert(area, old(GridsOf()), session, centre)
    {
      var r := area.vision;
      for dy := -r to r + 1
        invariant forall y, x :: 0 <= y < Count(area) && 0 <= x < Count(area) ==>
          grids[y, x] == if Near(Cell(x, y), centre, r) && y - centre.y < dy
                         then old(grids[y, x]) + {session} else old(grids[y, x])
      {
        for dx := -r to r + 1
          invariant forall y, x :: 0 <= y < Count(area) && 0 <= x < Count(area) ==>
            grids[y, x] == if Near(Cell(x, y), centre, r)
                              && (y - centre.y < dy || (y - centre.y == dy && x - centre.x < dx))
                           then old(grids[y, x]) + {session} else old(grids[y, x])
        {
          var pos := Cell(centre.x + dx, centre.y + dy);
          if !IsInvalid(area, pos) {
            grids[pos.y, pos.x] := grids[pos.y, pos.x] + {session};
          }
        }
      }
    }

    method RemoveFromVisionGrids(session: Sid, centre: Cell)
      requires Shape()
      modifies grids
      ensures GridsOf() == Remove(area, old(GridsOf()), session, centre)
    {
      var r := area.vision;
      for dy := -r to r + 1
        invariant forall y, x :: 0 <= y < Count(area) && 0 <= x < Count(area) ==>
          grids[y, x] == if Near(Cell(x, y), centre, r) && y - centre.y < dy
                         then old(grids[y, x]) - {session} else old(grids[y, x])
      {
        for dx := -r to r + 1
          invariant forall y, x :: 0 <= y < Count(area) && 0 <= x < Count(area) ==>
            grids[y, x] == if Near(Cell(x, y), centre, r)
                              && (y - centre.y < dy || (y - centre.y == dy && x - centre.x < dx))
                           then old(grids[y, x]) - {session} else old(grids[y, x])
        {
          var pos := Cell(centre.x + dx, centre.y + dy);
          if !IsInvalid(area, pos) {
            grids[pos.y, pos.x] := grids[pos.y, pos.x] - {session};
          }
        }
      }
    }

    /** First erase in the old box outside the new one, then insert in the new box outside the old one. */
    method UpdateVisionGrids(session: Sid, from: Cell, to: Cell)
      requires Shape()
      modifies grids
      ensures GridsOf() == Reindex(area, old(GridsOf()), session, from, to)
    {
      EraseStripe(session, from, to);
      InsertStripe(session, to, from);
    }

    method EraseStripe(session: Sid, from: Cell, to: Cell)
      requires Shape()
      modifies grids
      ensures forall y, x :: 0 <= y < Count(area) && 0 <= x < Count(area) ==>
        grids[y, x] == if InStripe(area, Cell(x, y), from, to)
                       then old(grids[y, x]) - {session} else old(grids[y, x])
    {
      var r := area.vision;
      for dy := -r to r + 1
        invariant forall y, x :: 0 <= y < Count(area) && 0 <= x < Count(area) ==>
          grids[y, x] == if InStripe(area, Cell(x, y), from, to) && y - from.y < dy
                         then old(grids[y, x]) - {session} else old(grids[y, x])
      {
        for dx := -r to r + 1
          invariant forall y, x :: 0 <= y < Count(area) && 0 <= x < Count(area) ==>
            grids[y, x] == if InStripe(area, Cell(x, y), from, to)
                              && (y - from.y < dy || (y - from.y == dy && x - from.x < dx))
                           then old(grids[y, x]) - {session} else old(grids[y, x])
        {
          var pos := Cell(from.x + dx, from.y + dy);
          if !IsInvalid(area, pos) && (Dist(pos.x, to.x) > r || Dist(pos.y, to.y) > r) {
            grids[pos.y, pos.x] := grids[pos.y, pos.x] - {session};
          }
        }
      }
    }

    method InsertStripe(session: Sid, from: Cell, to: Cell)
      requires Shape()
      modifies grids
      ensures forall y, x :: 0 <= y < Count(area) && 0 <= x < Count(area) ==>
        grids[y, x] == if InStripe(area, Cell(x, y), from, to)
                       then old(grids[y, x]) + {session} else old(grids[y, x])
    {
      var r := area.vision;
      for dy := -r to r + 1
        invariant forall y, x :: 0 <= y < Count(area) && 0 <= x < Count(area) ==>
          grids[y, x] == if InStripe(area, Cell(x, y), from, to) && y - from.y < dy
                         then old(grids[y, x]) + {session} else old(grids[y, x])
      {
        for dx := -r to r + 1
          invariant forall y, x :: 0 <= y < Count(area) && 0 <= x < Count(area) ==>
            grids[y, x] == if InStripe(area, Cell(x, y), from, to)
                              && (y - from.y < dy || (y - from.y == dy && x - from.x < dx))
                           then old(grids[y, x]) + {session} else old(grids[y, x])
        {
          var pos := Cell(from.x + dx, from.y + dy);
          if !IsInvalid(area, pos) && (Dist(pos.x, to.x) > r || Dist(pos.y, to.y) > r) {
            grids[pos.y, pos.x] := grids[pos.y, pos.x] + {session};
          }
        }
      }
    }

    /** What the grids hold is `g`, cell by cell. */
    ghost predicate Holds(g: Cells)
      requires Shape()
      reads grids
    {
      forall y, x :: 0 <= y < Count(area) && 0 <= x < Count(area) ==> At(g, Cell(x, y)) == grids[y, x]
    }

    /** The double loop that fills despawnPairs, and with the cells swapped, spawnPairs. */
    method CollectPairs(session: Sid, from: Cell, to: Cell) returns (pairs: seq<(Sid, Sid)>)
      requires Shape()
      ensures pairs == Pairs(GridsOf(), session, Stripe(area, from, to))
    {
      hide LeftOver;
      pairs := [];
      var r := area.vision;
      ghost var g := GridsOf();
      ghost var goal := LeftOver(area, g, session, from, to, -r, -r);
      assert pairs + goal == goal;
      LeftOverEnds(area, g, session, from, to);
      for dy := -r to r + 1
        invariant Holds(g) && pairs + LeftOver(area, g, session, from, to, dy, -r) == goal
      {
        var row := CollectRow(session, from, to, dy, g);
        Assoc(pairs, row, LeftOver(area, g, session, from, to, dy + 1, -r));
        pairs := pairs + row;
      }
      assert pairs + [] == pairs;
    }

    method CollectRow(session: Sid, from: Cell, to: Cell, dy: int, ghost g: Cells) returns (pairs: seq<(Sid, Sid)>)
      requires Shape() && Holds(g) && -area.vision <= dy <= area.vision
      ensures LeftOver(area, g, session, from, to, dy, -area.vision)
              == pairs + LeftOver(area, g, session, from, to, dy + 1, -area.vision)
    {
      hide LeftOver, CellPairs;
      pairs := [];
      var r := area.vision;
      ghost var goal := LeftOver(area, g, session, from, to, dy, -r);
      assert pairs + goal == goal;
      for dx := -r to r + 1
        invariant Holds(g) && pairs + LeftOver(area, g, session, from, to, dy, dx) == goal
      {
        var more := CollectAt(session, from, to, Cell(from.x + dx, from.y + dy), g);
        LeftOverStep(area, g, session, from, to, dy, dx);
        Assoc(pairs, more, LeftOver(area, g, session, from, to, dy, dx + 1));
        pairs := pairs + more;
      }
      LeftOverRow(area, g, session, from, to, dy);
    }

    /** The body of that loop. */
    method CollectAt(session: Sid, from: Cell, to: Cell, pos: Cell, ghost g: Cells) returns (pairs: seq<(Sid, Sid)>)
      requires Shape() && Holds(g) && Near(pos, from, area.vision)
      ensures pairs == CellPairs(area, g, session, from, to, pos)
    {
      pairs := [];
      if !IsInvalid(area, pos) && (Dist(pos.x, to.x) > area.vision || Dist(pos.y, to.y) > area.vision) {
        pairs := CollectCell(session, grids[pos.y, pos.x]);
      }
    }

    /** The range-for over one cell, in address order. */
    static method CollectCell(session: Sid, cell: set<Sid>) returns (pairs: seq<(Sid, Sid)>)
      ensures pairs == PairUp(InOrder(cell), session)
    {
      pairs := [];
      var rest := cell;
      ghost var left := PairUp(InOrder(cell), session);
      ghost var goal := left;
      assert pairs + left == goal;
      while rest != {}
        invariant left == PairUp(InOrder(rest), session) && pairs + left == goal
        decreases rest
      {
        var other := Least(rest);
        PairUpStep(rest, session);
        left := PairUp(InOrder(rest - {other}), session);
        if other != session {
          Assoc(pairs, [(other, session), (session, other)], left);
          pairs := pairs + [(other, session), (session, other)];
        } else {
          assert [] + left == left;
        }
        rest := rest - {other};
      }
    }

    /** The observers of a cell other than `session`, in address order. */
    static method OthersIn(session: Sid, cell: set<Sid>) returns (targets: seq<Sid>)
      ensures targets == Except(InOrder(cell), session)
    {
      targets := [];
      var rest := cell;
      ghost var left := Except(InOrder(cell), session);
      ghost var goal := left;
      assert targets + left == goal;
      while rest != {}
        invariant left == Except(InOrder(rest), session) && targets + left == goal
        decreases rest
      {
        var other := Least(rest);
        ExceptStep(rest, session);
        left := Except(InOrder(rest - {other}), session);
        if other != session {
          Assoc(targets, [other], left);
          targets := targets + [other];
        } else {
          assert [] + left == left;
        }
        rest := rest - {other};
      }
    }

    // ----- sending -----

    method SendSpawns(pairs: seq<(Sid, Sid)>)
      requires Shape()
      modifies `sent
      ensures sent == old(sent) + Spawns(old(WorldOf()), pairs)
    {
      ghost var w := WorldOf();
      var i := 0;
      while i < |pairs|
        invariant 0 <= i <= |pairs|
        invariant WorldOf() == w
        invariant sent + Spawns(w, pairs[i..]) == old(sent) + Spawns(w, pairs)
      {
        var (target, obj) := pairs[i];
        var send := Send(target, SSpawn(SessionOf(obj).id, SessionOf(obj).pos));
        assert pairs[i..][1..] == pairs[i + 1..];
        assert sent + ([send] + Spawns(w, pairs[i + 1..])) == (sent + [send]) + Spawns(w, pairs[i + 1..]);
        sent := sent + [send];
        i := i + 1;
      }
    }

    method SendDespawns(pairs: seq<(Sid, Sid)>)
      requires Shape()
      modifies `sent
      ensures sent == old(sent) + Despawns(old(WorldOf()), pairs)
    {
      ghost var w := WorldOf();
      var i := 0;
      while i < |pairs|
        invariant 0 <= i <= |pairs|
        invariant WorldOf() == w
        invariant sent + Despawns(w, pairs[i..]) == old(sent) + Despawns(w, pairs)
      {
        var (target, obj) := pairs[i];
        var send := Send(target, SDespawn(SessionOf(obj).id));
        assert pairs[i..][1..] == pairs[i + 1..];
        assert sent + ([send] + Despawns(w, pairs[i + 1..])) == (sent + [send]) + Despawns(w, pairs[i + 1..]);
        sent := sent + [send];
        i := i + 1;
      }
    }

    /** One packet to everyone registered in a cell, in address order. */
    method SendToCell(cell: set<Sid>, p: Packet)
      modifies `sent
      ensures sent == old(sent) + ToAll(InOrder(cell), p)
    {
      var rest := cell;
      while rest != {}
        invariant sent + ToAll(InOrder(rest), p) == old(sent) + ToAll(InOrder(cell), p)
        decreases rest
      {
        var observer := Least(rest);
        ToAllStep(rest, p);
        Assoc(sent, [Send(observer, p)], ToAll(InOrder(rest - {observer}), p));
        sent := sent + [Send(observer, p)];
        rest := rest - {observer};
      }
    }

    method SendToList(targets: seq<Sid>, p: Packet)
      modifies `sent
      ensures sent == old(sent) + ToAll(targets, p)
    {
      var i := 0;
      while i < |targets|
        invariant 0 <= i <= |targets| && sent + ToAll(targets[i..], p) == old(sent) + ToAll(targets, p)
      {
        assert targets[i..][1..] == targets[i + 1..];
        Assoc(sent, [Send(targets[i], p)], ToAll(targets[i + 1..], p));
        sent := sent + [Send(targets[i], p)];
        i := i + 1;
      }
    }

    method BroadcastPacketToObservers(session: Sid, p: Packet)
      requires Shape()
      modifies `sent
      ensures sent == old(sent) + Broadcast(area, old(WorldOf()), session, p)
    {
      var pos := GetGridPos(area, SessionOf(session).pos);
      SendToCell(grids[pos.y, pos.x], p);
    }

    // ----- EnterGame, LeaveGame, HandleMove -----

    /** `startX`, `startY` are the two rand() % MAP_SIZE draws. */
    method EnterGame(session: Sid, startX: int, startY: int)
      requires Valid()
      modifies `players, `ses, `sessions, `sent, grids
      ensures Valid()
      ensures var (w, sends) := Aoi.EnterGame(area, old(WorldOf()), session, Pos(startX as real, startY as real));
              WorldOf() == w && sent == old(sent) + sends
      ensures nextId == old(nextId)
      ensures forall s :: s in old(players) ==> s in players && players[s] == old(players[s])
      ensures forall s :: s in players && s !in old(players) ==> s == session && fresh(players[s])
    {
      hide GetGridPos, PairUp, Spawns, Refines, InOrder, WorldOf, PlayersOf, GridsOf, Entered;
      ghost var w := WorldOf();
      var p := Pos(startX as real, startY as real);
      WorldIs();
      CreatePlayer(session);
      var centre := GetGridPos(area, p);
      Register(session, p, centre, w);
      WorldIs();
      var others := CollectCell(session, grids[centre.y, centre.x]);
      SendEnterNotices(session, p, others);
    }

    /** The position, the vision box and the sessions entry of a session that has a player. */
    method Register(session: Sid, p: Pos, centre: Cell, ghost w: Aoi.World)
      requires Valid() && centre == GetGridPos(area, p)
      requires GridsOf() == w.grids && sessions == w.sessions && ses == w.ses
      requires PlayersOf() == if session in w.players then w.players
                              else w.players[session := Vitals(FULL_HP, FULL_HP)]
      modifies `ses, `sessions, grids
      ensures Valid() && WorldOf() == Entered(area, w, session, p)
      ensures grids[centre.y, centre.x] == At(GridsOf(), centre)
      ensures SessionOf(session).id == Of(w, session).id
    {
      hide GetGridPos, Insert, Refines;
      ses := ses[session := SessionOf(session).(pos := p)];
      InsertToVisionGrids(session, centre);
      sessions := sessions[SessionOf(session).id := session];
    }

    method SendEnterNotices(session: Sid, p: Pos, others: seq<(Sid, Sid)>)
      requires Shape()
      modifies `sent
      ensures var w := old(WorldOf());
              sent == old(sent) + ([Send(session, SSpawn(Of(w, session).id, p))] + Spawns(w, others))
    {
      hide WorldOf, PlayersOf, GridsOf, Spawns;
      ghost var w := WorldOf();
      SendOne(Send(session, SSpawn(SessionOf(session).id, p)));
      SendSpawns(others);
      Assoc(old(sent), [Send(session, SSpawn(Of(w, session).id, p))], Spawns(w, others));
    }

    method SendOne(send: Send)
      modifies `sent
      ensures sent == old(sent) + [send]
    {
      sent := sent + [send];
    }

    /** A Player object unless there is one. */
    method CreatePlayer(session: Sid)
      requires Valid()
      modifies `players
      ensures Valid()
      ensures PlayersOf() == if session in old(players) then old(PlayersOf())
                             else old(PlayersOf())[session := Vitals(FULL_HP, FULL_HP)]
      ensures forall s :: s in old(players) ==> s in players && players[s] == old(players[s])
      ensures forall s :: s in players && s !in old(players) ==> s == session && fresh(players[s])
    {
      hide Refines;
      if session !in players {
        var player := new Player(session);
        players := players[session := player];
      }
    }

    method LeaveGame(session: Sid)
      requires Valid()
      modifies `sessions, `sent, grids
      ensures Valid()
      ensures var (w, sends) := Aoi.LeaveGame(area, old(WorldOf()), session);
              WorldOf() == w && sent == old(sent) + sends
    {
      hide GetGridPos, Remove, Except, ToAll, Refines, InOrder;
      ghost var w := WorldOf();
      if session !in players {
        assert session !in w.players && sent + [] == sent;
        return;
      }
      var leavePlayerId := SessionOf(session).id;
      var pos := GetGridPos(area, SessionOf(session).pos);
      assert grids[pos.y, pos.x] == At(w.grids, pos);
      var targets := OthersIn(session, grids[pos.y, pos.x]);
      RemoveFromVisionGrids(session, pos);
      sessions := sessions - {leavePlayerId};
      assert session in w.players && PlayersOf() == w.players;
      assert WorldOf() == Aoi.LeaveGame(area, w, session).0;
      SendToList(targets, SDespawn(leavePlayerId));
    }

    /** Coordinates are clamped to the map first; DESPAWNs go out before SPAWNs, then the MOVE. */
    method HandleMove(session: Sid, p: Pos)
      requires Valid()
      modifies `ses, `sent, grids
      ensures Valid()
      ensures var (w, sends) := Aoi.HandleMove(area, old(WorldOf()), session, p);
              WorldOf() == w && sent == old(sent) + sends
    {
      hide GetGridPos, Reindex, Pairs, Stripe, Refines, InOrder, Broadcast, Moved, WorldOf, PlayersOf, GridsOf;
      ghost var w := WorldOf();
      var q := ClampToMap(p);
      var from := GetGridPos(area, SessionOf(session).pos);
      var to := GetGridPos(area, q);
      Relocate(session, p, q, from, to);
      WorldIs();
      ghost var w' := Moved(area, w, session, p);
      var despawnPairs, spawnPairs := [], [];
      if from != to {
        despawnPairs := CollectPairs(session, from, to);
        spawnPairs := CollectPairs(session, to, from);
      }
      SendMoveNotices(session, despawnPairs, spawnPairs, SMove(SessionOf(session).id, q));
      assert Of(w', session).id == Of(w, session).id;
    }

    /** Outside the lock: all DESPAWNs, then all SPAWNs, then the MOVE to the observers. */
    method SendMoveNotices(session: Sid, despawnPairs: seq<(Sid, Sid)>, spawnPairs: seq<(Sid, Sid)>, move: Packet)
      requires Shape()
      modifies `sent
      ensures var w := old(WorldOf());
              var notices := Despawns(w, despawnPairs) + Spawns(w, spawnPairs);
              && sent == old(sent) + (notices + Broadcast(area, w, session, move))
              && (despawnPairs == [] && spawnPairs == [] ==> sent == old(sent) + Broadcast(area, w, session, move))
    {
      hide WorldOf, PlayersOf, GridsOf, Broadcast;
      ghost var w := WorldOf();
      SendDespawns(despawnPairs);
      SendSpawns(spawnPairs);
      BroadcastPacketToObservers(session, move);
      ThreeParts(old(sent), Despawns(w, despawnPairs), Spawns(w, spawnPairs), Broadcast(area, w, session, move));
    }

    /** The new position, and the index if the cell changed. */
    method Relocate(session: Sid, ghost p: Pos, q: Pos, from: Cell, to: Cell)
      requires Valid() && q == ClampPos(area, p) && from == CellOf(area, WorldOf(), session) && to == MoveTarget(area, p)
      modifies `ses, grids
      ensures Valid() && WorldOf() == Moved(area, old(WorldOf()), session, p)
      ensures Of(WorldOf(), session).id == old(SessionOf(session).id)
    {
      hide GetGridPos, Reindex, Refines;
      ses := ses[session := SessionOf(session).(pos := q)];
      assert PlayersOf() == old(PlayersOf());
      if from != to {
        UpdateVisionGrids(session, from, to);
      }
    }

    method ClampToMap(p: Pos) returns (q: Pos)
      ensures q == ClampPos(area, p)
    {
      var x, y := p.x, p.y;
      if x < 0.0 { x := 0.0; }
      if x >= area.mapSize as real { x := area.mapSize as real - 1.0; }
      if y < 0.0 { y := 0.0; }
      if y >= area.mapSize as real { y := area.mapSize as real - 1.0; }
      q := Pos(x, y);
    }

    // ----- the timers -----

    /** The time wheel catches up with the clock; the callbacks run in the order in which it hands them out. */
    method Update(clock: int)
      requires Valid() && timeWheel.lastTick <= clock
      modifies `sent, `timers, `now, timeWheel, timeWheel.slots, players.Values
      ensures Valid() && players == old(players)
      ensures var (sv, last, sends) := UpdateAt(area, old(Abs()), old(timeWheel.lastTick), clock);
              Abs() == sv && timeWheel.lastTick == last && sent == old(sent) + sends
    {
      hide TickMany, FireAll, Refines, DueThrough, NotDueThrough, CatchUp;
      ghost var sv := Abs();
      ghost var n := (clock - timeWheel.lastTick) / WHEEL_TICK;
      CatchUpRefines(timeWheel.Value(), timeWheel.lastTick, clock, timers, now);
      CatchUpClock(timeWheel.Value(), timeWheel.lastTick, clock);
      TickManyRuns(area, sv, n);
      var fired := timeWheel.Update(clock);
      timers, now := NotDueThrough(timers, now, n), now + n;
      assert WorldOf() == sv.world;
      RunCallbacks(fired);
    }

    method RunCallbacks(fired: seq<Servers.Respawn>)
      requires Valid()
      modifies `sent, players.Values
      ensures Valid()
      ensures var (w, sends) := FireAll(area, old(WorldOf()), fired);
              WorldOf() == w && sent == old(sent) + sends
    {
      hide Fire, Refines, PlayersOf, GridsOf, WorldOf;
      ghost var goal := FireAll(area, WorldOf(), fired);
      ghost var start := sent;
      var i := 0;
      assert fired[0..] == fired;
      assert sent + goal.1 == start + goal.1;
      while i < |fired|
        invariant 0 <= i <= |fired| && Valid()
        invariant FireAll(area, WorldOf(), fired[i..]).0 == goal.0
        invariant sent + FireAll(area, WorldOf(), fired[i..]).1 == start + goal.1
      {
        ghost var w := WorldOf();
        assert fired[i..][1..] == fired[i + 1..];
        Callback(fired[i]);
        Assoc(start + [], Fire(area, w, fired[i]).1, FireAll(area, WorldOf(), fired[i + 1..]).1);
        i := i + 1;
      }
    }

    /** The closure that Die scheduled. */
    method Callback(r: Servers.Respawn)
      requires Valid()
      modifies `sent, players.Values
      ensures Valid()
      ensures var (w, sends) := Fire(area, old(WorldOf()), r);
              WorldOf() == w && sent == old(sent) + sends
    {
      hide RespawnNow, Refines;
      ghost var w := WorldOf();
      assert r.session in w.players <==> r.session in players;
      assert sent + [] == sent;
      if r.session !in players { return; }
      if SessionOf(r.session).id != r.expectedId { return; }
      players[r.session].Respawn(this);
    }
  }
}
