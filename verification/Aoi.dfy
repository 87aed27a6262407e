/** The world of World.cpp as a value: the observer index `grids`, the `sessions` map and the
    session fields it reads and writes. EnterGame, HandleMove and LeaveGame are functions from
    a world to the next world and the packets sent, in sending order. */
module Aoi {
  import opened Grid

  /** The address of a Session object in the session pool. */
  type Sid = nat

  type Pid = int

  datatype PlayerState = NONE | CONNECTED | LOGGED_IN | LOBBY | GAME

  datatype Session = Session(id: Pid, pos: Pos, state: PlayerState)

  /** m_Hp and m_maxHp of a Player. */
  datatype Vitals = Vitals(hp: int, maxHp: int)

  const FULL_HP := 100

  datatype Packet =
    | SLogin(id: Pid)
    | SSpawn(id: Pid, pos: Pos)
    | SDespawn(id: Pid)
    | SMove(id: Pid, pos: Pos)
    | SDie(id: Pid)
    | SRespawn(id: Pid, pos: Pos)
    | SAttack(attacker: Pid, target: Pid)

  datatype Send = Send(to: Sid, packet: Packet)

  type Cells = map<Cell, set<Sid>>

  datatype World = World(grids: Cells, sessions: map<Pid, Sid>, ses: map<Sid, Session>, players: map<Sid, Vitals>)

  // ----- accessors -----

  /** A session nobody has touched yet has id 0 and state NONE. */
  function Of(w: World, s: Sid): Session {
    if s in w.ses then w.ses[s] else Session(0, Pos(0.0, 0.0), NONE)
  }

  function At(g: Cells, c: Cell): set<Sid> {
    if c in g then g[c] else {}
  }

  function CellOf(a: Area, w: World, s: Sid): Cell
  {
    GetGridPos(a, Of(w, s).pos)
  }

  predicate InWorld(w: World, s: Sid) {
    Of(w, s).id in w.sessions && w.sessions[Of(w, s).id] == s
  }

  // ----- the iteration order of std::set<Session*> -----

  lemma LeastExists(s: set<nat>)
    requires s != {}
    ensures exists m: nat :: m in s && forall k: nat :: k in s ==> m <= k
  {
    var x :| x in s;
    if rest: nat :| rest in s && rest != x {
      var t := s - {x};
      assert rest in t;
      LeastExists(t);
      var m: nat :| m in t && forall k: nat :: k in t ==> m <= k;
      var least := if m < x then m else x;
      assert forall k: nat :: k in s ==> k == x || k in t;
      assert least in s && forall k: nat :: k in s ==> least <= k;
    } else {
      assert x in s && forall k: nat :: k in s ==> x <= k;
    }
  }

  function Least(s: set<nat>): (m: nat)
    requires s != {}
    ensures m in s && forall k: nat :: k in s ==> m <= k
  {
    LeastExists(s);
    var m: nat :| m in s && forall k: nat :: k in s ==> m <= k;
    m
  }

  /** The elements in ascending address order, each once. */
  function InOrder(s: set<nat>): (r: seq<nat>)
    ensures forall k: nat :: k in r <==> k in s
    ensures forall i, j :: 0 <= i < j < |r| ==> r[i] < r[j]
  {
    if s == {} then [] else
      var m := Least(s);
      var rest := InOrder(s - {m});
      assert forall i :: 0 <= i < |rest| ==> rest[i] in rest;
      [m] + rest
  }

  // ----- the index -----

  /** InsertToVisionGrids */
  function Insert(a: Area, g: Cells, s: Sid, centre: Cell): Cells {
    map c | c in g :: if Near(c, centre, a.vision) then g[c] + {s} else g[c]
  }

  /** RemoveFromVisionGrids */
  function Remove(a: Area, g: Cells, s: Sid, centre: Cell): Cells {
    map c | c in g :: if Near(c, centre, a.vision) then g[c] - {s} else g[c]
  }

  /** UpdateVisionGrids: erase in V(from) \ V(to), then insert in V(to) \ V(from). */
  function Reindex(a: Area, g: Cells, s: Sid, from: Cell, to: Cell): Cells {
    map c | c in g ::
      if Near(c, from, a.vision) && !Near(c, to, a.vision) then g[c] - {s}
      else if Near(c, to, a.vision) && !Near(c, from, a.vision) then g[c] + {s}
      else g[c]
  }

  // ----- target collection -----

  /** One cell of the collection loops: both directions for everyone registered in it but `s`. */
  function PairUp(order: seq<Sid>, s: Sid): seq<(Sid, Sid)> {
    if order == [] then []
    else (if order[0] == s then [] else [(order[0], s), (s, order[0])]) + PairUp(order[1..], s)
  }

  function Pairs(g: Cells, s: Sid, cells: seq<Cell>): seq<(Sid, Sid)> {
    if cells == [] then []
    else PairUp(InOrder(At(g, cells[0])), s) + Pairs(g, s, cells[1..])
  }

  function DespawnOf(w: World, p: (Sid, Sid)): Send {
    Send(p.0, SDespawn(Of(w, p.1).id))
  }

  function SpawnOf(w: World, p: (Sid, Sid)): Send {
    Send(p.0, SSpawn(Of(w, p.1).id, Of(w, p.1).pos))
  }

  function Despawns(w: World, pairs: seq<(Sid, Sid)>): seq<Send> {
    if pairs == [] then [] else [DespawnOf(w, pairs[0])] + Despawns(w, pairs[1..])
  }

  function Spawns(w: World, pairs: seq<(Sid, Sid)>): seq<Send> {
    if pairs == [] then [] else [SpawnOf(w, pairs[0])] + Spawns(w, pairs[1..])
  }

  function ToAll(targets: seq<Sid>, p: Packet): seq<Send> {
    if targets == [] then [] else [Send(targets[0], p)] + ToAll(targets[1..], p)
  }

  /** BroadcastPacketToObservers: everyone registered in the session's own cell, itself included. */
  function Broadcast(a: Area, w: World, s: Sid, p: Packet): seq<Send>
  {
    ToAll(InOrder(At(w.grids, CellOf(a, w, s))), p)
  }

  function Except(order: seq<Sid>, s: Sid): seq<Sid> {
    if order == [] then []
    else (if order[0] == s then [] else [order[0]]) + Except(order[1..], s)
  }

  // ----- the three operations -----

  function SetPos(w: World, s: Sid, p: Pos): World {
    w.(ses := w.ses[s := Of(w, s).(pos := p)])
  }

  /** The world after EnterGame: an existing Player object is kept. */
  function Entered(a: Area, w: World, s: Sid, p: Pos): World
  {
    var w1 := SetPos(if s in w.players then w else w.(players := w.players[s := Vitals(FULL_HP, FULL_HP)]), s, p);
    w1.(grids := Insert(a, w.grids, s, GetGridPos(a, p)), sessions := w.sessions[Of(w, s).id := s])
  }

  function EnterGame(a: Area, w: World, s: Sid, p: Pos): (World, seq<Send>)
  {
    var w1 := Entered(a, w, s, p);
    var others := PairUp(InOrder(At(w1.grids, GetGridPos(a, p))), s);
    (w1, [Send(s, SSpawn(Of(w, s).id, p))] + Spawns(w1, others))
  }

  function LeaveGame(a: Area, w: World, s: Sid): (World, seq<Send>)
  {
    if s !in w.players then (w, [])
    else
      var cell := CellOf(a, w, s);
      var observers := Except(InOrder(At(w.grids, cell)), s);
      (w.(grids := Remove(a, w.grids, s, cell), sessions := w.sessions - {Of(w, s).id}),
       ToAll(observers, SDespawn(Of(w, s).id)))
  }

  function Clamp(a: Area, v: real): real {
    var v := if v < 0.0 then 0.0 else v;
    if v >= a.mapSize as real then a.mapSize as real - 1.0 else v
  }

  function ClampPos(a: Area, p: Pos): Pos {
    Pos(Clamp(a, p.x), Clamp(a, p.y))
  }

  function MoveTarget(a: Area, p: Pos): Cell
  {
    GetGridPos(a, ClampPos(a, p))
  }

  /** The world after HandleMove. */
  function Moved(a: Area, w: World, s: Sid, p: Pos): World
  {
    var from, to := CellOf(a, w, s), MoveTarget(a, p);
    var w1 := SetPos(w, s, ClampPos(a, p));
    if from == to then w1 else w1.(grids := Reindex(a, w.grids, s, from, to))
  }

  function HandleMove(a: Area, w: World, s: Sid, p: Pos): (World, seq<Send>)
  {
    var from, to, w1 := CellOf(a, w, s), MoveTarget(a, p), Moved(a, w, s, p);
    var moves := Broadcast(a, w1, s, SMove(Of(w, s).id, ClampPos(a, p)));
    if from == to then (w1, moves)
    else (w1, Despawns(w1, Pairs(w1.grids, s, Stripe(a, from, to)))
              + Spawns(w1, Pairs(w1.grids, s, Stripe(a, to, from)))
              + moves)
  }

  // ----- what an operation leaves alone -----

  lemma EnteredParts(a: Area, w: World, s: Sid, p: Pos)
    ensures var w' := Entered(a, w, s, p);
            && Of(w', s) == Of(w, s).(pos := p) && CellOf(a, w', s) == GetGridPos(a, p)
            && (forall t :: t != s ==> Of(w', t) == Of(w, t) && CellOf(a, w', t) == CellOf(a, w, t))
            && (forall t :: t in w'.players <==> t in w.players || t == s)
  {
  }

  lemma MovedParts(a: Area, w: World, s: Sid, p: Pos)
    ensures var w', from, to := Moved(a, w, s, p), CellOf(a, w, s), MoveTarget(a, p);
            && w'.grids == (if from == to then w.grids else Reindex(a, w.grids, s, from, to))
            && w'.sessions == w.sessions && w'.players == w.players
            && Of(w', s) == Of(w, s).(pos := ClampPos(a, p)) && CellOf(a, w', s) == to
            && (forall t :: t != s ==> Of(w', t) == Of(w, t) && CellOf(a, w', t) == CellOf(a, w, t))
  {
  }

  // ----- the index invariant -----

  /** A session is registered in a cell exactly when it is in the world and its own cell is
      within the vision range: the brute-force definition of "observer". */
  ghost predicate IndexInv(a: Area, w: World)
  {
    && (forall c :: c in w.grids <==> !IsInvalid(a, c))
    && (forall c, s :: c in w.grids ==> (s in w.grids[c] <==> InWorld(w, s) && Near(c, CellOf(a, w, s), a.vision)))
    && (forall p :: p in w.sessions ==> Of(w, w.sessions[p]).id == p)
  }

  lemma EnterKeepsIndex(a: Area, w: World, s: Sid, p: Pos)
    requires IndexInv(a, w) && Of(w, s).id !in w.sessions
    ensures IndexInv(a, Entered(a, w, s, p))
    ensures forall t :: InWorld(Entered(a, w, s, p), t) <==> InWorld(w, t) || t == s
  {
    var w' := Entered(a, w, s, p);
    var to := GetGridPos(a, p);
    assert CellOf(a, w', s) == to && Of(w', s).id == Of(w, s).id;
    forall t
      ensures t != s ==> Of(w', t) == Of(w, t)
      ensures InWorld(w', t) <==> InWorld(w, t) || t == s
    {
    }
    assert w'.grids == Insert(a, w.grids, s, to);
    forall c, t | c in w'.grids
      ensures t in w'.grids[c] <==> InWorld(w', t) && Near(c, CellOf(a, w', t), a.vision)
    {
      assert t in w.grids[c] <==> InWorld(w, t) && Near(c, CellOf(a, w, t), a.vision);
    }
  }

  lemma MoveKeepsIndex(a: Area, w: World, s: Sid, p: Pos)
    requires IndexInv(a, w) && InWorld(w, s)
    ensures IndexInv(a, Moved(a, w, s, p))
    ensures forall t :: InWorld(Moved(a, w, s, p), t) <==> InWorld(w, t)
  {
    var w' := Moved(a, w, s, p);
    var from, to := CellOf(a, w, s), MoveTarget(a, p);
    assert Of(w', s) == Of(w, s).(pos := ClampPos(a, p));
    assert CellOf(a, w', s) == to;
    forall t
      ensures t != s ==> Of(w', t) == Of(w, t)
      ensures InWorld(w', t) <==> InWorld(w, t)
    {
    }
    assert w'.grids == if from == to then w.grids else Reindex(a, w.grids, s, from, to);
    forall c, t | c in w'.grids
      ensures t in w'.grids[c] <==> InWorld(w', t) && Near(c, CellOf(a, w', t), a.vision)
    {
      assert t in w.grids[c] <==> InWorld(w, t) && Near(c, CellOf(a, w, t), a.vision);
    }
  }

  lemma LeaveKeepsIndex(a: Area, w: World, s: Sid)
    requires IndexInv(a, w)
    requires s in w.players && (InWorld(w, s) || Of(w, s).id !in w.sessions)
    ensures IndexInv(a, LeaveGame(a, w, s).0)
    ensures forall t :: InWorld(LeaveGame(a, w, s).0, t) <==> InWorld(w, t) && t != s
  {
    var w' := LeaveGame(a, w, s).0;
    forall t
      ensures Of(w', t) == Of(w, t)
      ensures InWorld(w', t) <==> InWorld(w, t) && t != s
    {
    }
    forall c, t | c in w'.grids
      ensures t in w'.grids[c] <==> InWorld(w', t) && Near(c, CellOf(a, w', t), a.vision)
    {
      assert t in w.grids[c] <==> InWorld(w, t) && Near(c, CellOf(a, w, t), a.vision);
    }
  }
}
