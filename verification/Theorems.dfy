/** What holds of the area of interest in every reachable state of the server. */
module Theorems {
  import opened Grid
  import opened Aoi
  import opened Ledger
  import opened TimeWheels
  import opened Servers
  import opened Invariants
  import opened Runs

  lemma InitOk(cfg: Config)
    ensures Inv(cfg, Init(cfg.area), {})
  {
    var n := Count(cfg.area);
    forall c: Cell
      ensures c in AllCells(n) <==> !IsInvalid(cfg.area, c)
    {
      if !IsInvalid(cfg.area, c) {
        assert c == Cell(c.x, c.y);
      }
    }
  }

  lemma StepKeeps(cfg: Config, sv: Server, k: Known, step: Step)
    requires Inv(cfg, sv, k) && Enabled(cfg, sv, step)
    ensures var (sv', sends) := Apply(cfg, sv, step); Inv(cfg, sv', Fold(k, sv'.world, sends))
  {
    match step
    case DoLogin(s) => LoginKeeps(cfg, sv, k, s);
    case DoEnter(s, x, y) => EnterKeeps(cfg, sv, k, s, Pos(x as real, y as real));
    case DoMove(s, p) => MoveKeeps(cfg, sv, k, s, p);
    case DoAttack(s, kind, id) => AttackKeeps(cfg, sv, k, s, kind, id);
    case DoDisconnect(s) => DisconnectKeeps(cfg, sv, k, s);
    case DoTick => TickKeeps(cfg, sv, k);
  }

  lemma {:induction false} RunKeeps(cfg: Config, sv: Server, k: Known, steps: seq<Step>)
    requires Inv(cfg, sv, k) && Legal(cfg, sv, steps)
    ensures var (sv', k') := Exec(cfg, sv, k, steps); Inv(cfg, sv', k')
    decreases steps
  {
    if steps != [] {
      StepKeeps(cfg, sv, k, steps[0]);
      var (sv1, sends) := Apply(cfg, sv, steps[0]);
      RunKeeps(cfg, sv1, Fold(k, sv1.world, sends), steps[1..]);
    }
  }

  // ----- every reachable state -----

  ghost predicate Reachable(cfg: Config, sv: Server, k: Known)
  {
    exists steps :: Legal(cfg, Init(cfg.area), steps) && Exec(cfg, Init(cfg.area), {}, steps) == (sv, k)
  }

  lemma ReachableOk(cfg: Config, sv: Server, k: Known)
    requires Reachable(cfg, sv, k)
    ensures Inv(cfg, sv, k)
  {
    var steps :| Legal(cfg, Init(cfg.area), steps) && Exec(cfg, Init(cfg.area), {}, steps) == (sv, k);
    InitOk(cfg);
    RunKeeps(cfg, Init(cfg.area), {}, steps);
  }

  /** Reading one cell gives exactly the sessions in the world whose own cell is within the vision range of
      it. */
  lemma IndexIsExact(cfg: Config, sv: Server, k: Known, c: Cell, s: Sid)
    requires Reachable(cfg, sv, k) && !IsInvalid(cfg.area, c)
    ensures s in At(sv.world.grids, c) <==>
            InWorld(sv.world, s) && Near(c, CellOf(cfg.area, sv.world, s), cfg.area.vision)
  {
    ReachableOk(cfg, sv, k);
  }

  /** Knowing somebody bounds the distance, and goes both ways. */
  lemma KnownWithinTwiceVision(cfg: Config, sv: Server, k: Known, p: Sid, o: Sid)
    requires Reachable(cfg, sv, k) && InWorld(sv.world, p) && InWorld(sv.world, o)
    ensures var (idP, idO) := (Of(sv.world, p).id, Of(sv.world, o).id);
            && ((idP, idO) in k ==> Near(CellOf(cfg.area, sv.world, p), CellOf(cfg.area, sv.world, o), 2 * cfg.area.vision))
            && ((idP, idO) in k <==> (idO, idP) in k)
  {
    ReachableOk(cfg, sv, k);
  }

  /** Whoever leaves view is told and told about; whoever enters view is known in both directions after
      the move. */
  lemma MoveCoverage(cfg: Config, sv: Server, k: Known, s: Sid, p: Pos, o: Sid)
    requires Reachable(cfg, sv, k) && o != s
    requires Alive(sv.world, s) && OnMap(cfg.area, p) && InWorld(sv.world, o)
    ensures var a, w := cfg.area, sv.world;
            var (sv', sends) := Move(a, sv, s, p);
            var oc, from, to := CellOf(a, w, o), CellOf(a, w, s), MoveTarget(a, p);
            && (Near(oc, from, a.vision) && !Near(oc, to, a.vision) ==>
                  (o, s) in DespawnPairs(a, w, s, p) && (s, o) in DespawnPairs(a, w, s, p))
            && (Near(oc, to, a.vision) && !Near(oc, from, a.vision) ==>
                  && (Of(w, s).id, Of(w, o).id) in Fold(k, sv'.world, sends)
                  && (Of(w, o).id, Of(w, s).id) in Fold(k, sv'.world, sends))
  {
    var a, w := cfg.area, sv.world;
    var oc, from, to := CellOf(a, w, o), CellOf(a, w, s), MoveTarget(a, p);
    ReachableOk(cfg, sv, k);
    MoveNotifies(a, w, s, p, o);
    MoveLaw(a, k, w, s, p, o, o);
    if Near(oc, from, a.vision) && !Near(oc, to, a.vision) {
      SharedCellTouches(a, oc, from, to, oc);
    }
    if Near(oc, to, a.vision) && !Near(oc, from, a.vision) {
      SharedCellTouches(a, oc, to, from, oc);
    }
  }

  // ----- what the packets say -----

  lemma {:induction false} ToAllMembers(targets: seq<Sid>, p: Packet, o: Sid)
    ensures Send(o, p) in ToAll(targets, p) <==> o in targets
  {
    if targets != [] {
      ToAllMembers(targets[1..], p, o);
      assert targets == [targets[0]] + targets[1..];
    }
  }

  /** A broadcast about a session reaches exactly the players in the world that can see its cell, each once. */
  lemma BroadcastReachesObservers(a: Area, w: World, s: Sid, p: Packet, o: Sid)
    requires IndexInv(a, w)
    ensures Send(o, p) in Broadcast(a, w, s, p) <==>
            InWorld(w, o) && Near(CellOf(a, w, s), CellOf(a, w, o), a.vision)
    ensures var sends := Broadcast(a, w, s, p); forall i, j :: 0 <= i < j < |sends| ==> sends[i].to < sends[j].to
  {
    hide GetGridPos;
    var cell := CellOf(a, w, s);
    ToAllMembers(InOrder(At(w.grids, cell)), p, o);
    ToAllIs(InOrder(At(w.grids, cell)), p);
    assert cell in w.grids;
  }

  /** A move is shown, with the new position, to exactly the players that can see the new cell, the mover included. */
  lemma MoveIsSeen(cfg: Config, sv: Server, k: Known, s: Sid, p: Pos, o: Sid)
    requires Reachable(cfg, sv, k) && Alive(sv.world, s) && OnMap(cfg.area, p)
    ensures var (sv', sends) := Move(cfg.area, sv, s, p);
            var move := Send(o, SMove(Of(sv.world, s).id, p));
            move in sends <==> InWorld(sv'.world, o) && Near(GetGridPos(cfg.area, p), CellOf(cfg.area, sv'.world, o), cfg.area.vision)
  {
    hide GetGridPos, Near, Pairs, Stripe, Moved;
    var a, w := cfg.area, sv.world;
    var w' := Moved(a, w, s, p);
    ReachableOk(cfg, sv, k);
    MoveKeepsIndex(a, w, s, p);
    MovedParts(a, w, s, p);
    assert ClampPos(a, p) == p;
    BroadcastReachesObservers(a, w', s, SMove(Of(w, s).id, p), o);
    SpawnsAndDespawnsOnly(w', DespawnPairs(a, w, s, p), SpawnPairs(a, w, s, p), Send(o, SMove(Of(w, s).id, p)));
  }

  lemma SpawnsAndDespawnsOnly(w: World, ds: seq<(Sid, Sid)>, ss: seq<(Sid, Sid)>, x: Send)
    ensures x in Despawns(w, ds) + Spawns(w, ss) ==> x.packet.SDespawn? || x.packet.SSpawn?
  {
    DespawnMembers(w, ds, x);
    SpawnMembers(w, ss, x);
  }

  lemma {:induction false} DespawnMembers(w: World, pairs: seq<(Sid, Sid)>, x: Send)
    ensures x in Despawns(w, pairs) <==> exists q :: q in pairs && x == DespawnOf(w, q)
  {
    if pairs != [] {
      DespawnMembers(w, pairs[1..], x);
      assert pairs == [pairs[0]] + pairs[1..];
      assert pairs[0] in pairs;
    }
  }

  lemma {:induction false} SpawnMembers(w: World, pairs: seq<(Sid, Sid)>, x: Send)
    ensures x in Spawns(w, pairs) <==> exists q :: q in pairs && x == SpawnOf(w, q)
  {
    if pairs != [] {
      SpawnMembers(w, pairs[1..], x);
      assert pairs == [pairs[0]] + pairs[1..];
      assert pairs[0] in pairs;
    }
  }

  /** A SPAWN names a session in the world and gives its position. */
  ghost predicate TrueOf(w: World, p: Packet) {
    p.SSpawn? ==> p.id in w.sessions && Of(w, w.sessions[p.id]).pos == p.pos
  }

  /** Every SPAWN ever sent is true of the world at the end of its step. */
  lemma SpawnsTellTheTruth(cfg: Config, sv: Server, k: Known, step: Step, x: Send)
    requires Reachable(cfg, sv, k) && Enabled(cfg, sv, step)
    ensures var (sv', sends) := Apply(cfg, sv, step); x in sends ==> TrueOf(sv'.world, x.packet)
  {
    hide GetGridPos, Pairs, Stripe, Moved, Entered;
    var a, w := cfg.area, sv.world;
    ReachableOk(cfg, sv, k);
    match step
    case DoLogin(s) =>
    case DoEnter(s, x1, y1) =>
      if Of(w, s).state == LOBBY {
        EnterTellsTheTruth(a, sv, k, s, Pos(x1 as real, y1 as real), x);
      }
    case DoMove(s, p) =>
      if Alive(w, s) && OnMap(a, p) {
        MoveTellsTheTruth(a, w, s, p, x);
      }
    case DoAttack(s, kind, id) => AttackStep(cfg, sv, s, kind, id);
    case DoDisconnect(s) => LeaveIsNoSpawn(a, w, s, x);
    case DoTick => TickStep(a, sv);
  }

  lemma LeaveIsNoSpawn(a: Area, w: World, s: Sid, x: Send)
    ensures x in LeaveGame(a, w, s).1 ==> x.packet.SDespawn?
  {
    hide GetGridPos;
    if s in w.players {
      ToAllIs(Except(InOrder(At(w.grids, CellOf(a, w, s))), s), SDespawn(Of(w, s).id));
    }
  }

  lemma MoveTellsTheTruth(a: Area, w: World, s: Sid, p: Pos, x: Send)
    requires IndexInv(a, w) && InWorld(w, s)
    ensures var (w', sends) := HandleMove(a, w, s, p); x in sends ==> TrueOf(w', x.packet)
  {
    hide GetGridPos, Pairs, Stripe, Moved;
    var w' := Moved(a, w, s, p);
    var move := SMove(Of(w, s).id, ClampPos(a, p));
    MoveKeepsIndex(a, w, s, p);
    MovePairsInWorld(a, w, s, p);
    DespawnMembers(w', DespawnPairs(a, w, s, p), x);
    SpawnMembers(w', SpawnPairs(a, w, s, p), x);
    ToAllIs(InOrder(At(w'.grids, CellOf(a, w', s))), move);
  }

  lemma EnterTellsTheTruth(a: Area, sv: Server, k: Known, s: Sid, p: Pos, x: Send)
    requires WorldOk(a, sv.world) && IdsOk(sv, k) && Of(sv.world, s).state == LOBBY
    ensures var (sv', sends) := Enter(a, sv, s, p); x in sends ==> TrueOf(sv'.world, x.packet)
  {
    hide GetGridPos, Entered, PairUp;
    var w := SetSession(sv.world, s, Of(sv.world, s).(state := GAME));
    assert FreshId(sv.world, k, sv.timers, Of(sv.world, s).id);
    forall t
      ensures t != s ==> Of(w, t) == Of(sv.world, t)
      ensures InWorld(w, t) <==> InWorld(sv.world, t)
    {
    }
    SameSessionsIndex(a, sv.world, w);
    EnteredParts(a, w, s, p);
    EnterKeepsIndex(a, w, s, p);
    EnterPairsInWorld(a, w, s, p);
    SpawnMembers(Entered(a, w, s, p), EnterPairs(a, w, s, p), x);
    assert InWorld(Entered(a, w, s, p), s);
  }

  // ----- when "known" is "visible" -----

  /** What a move gets wrong about a player at `o`: one who stays visible is dropped, or one who is
      not visible is announced. */
  predicate Blurred(a: Area, o: Cell, from: Cell, to: Cell)
  {
    if Near(o, to, a.vision) then Touches(a, o, from, to) && !Touches(a, o, to, from)
    else Touches(a, o, to, from)
  }

  ghost predicate Agree(a: Area, w: World, k: Known, p: Sid, o: Sid)
  {
    (Of(w, p).id, Of(w, o).id) in k <==> Near(CellOf(a, w, o), CellOf(a, w, p), a.vision)
  }

  /** From a mover that knows exactly whom it sees, a move leads to one that still does iff nobody stands
      where the move blurs. */
  lemma MoveAgreesIff(cfg: Config, sv: Server, k: Known, s: Sid, p: Pos)
    requires Inv(cfg, sv, k) && Alive(sv.world, s) && OnMap(cfg.area, p)
    requires forall o :: InWorld(sv.world, o) && o != s ==> Agree(cfg.area, sv.world, k, s, o)
    ensures var a, w := cfg.area, sv.world;
            var (sv', sends) := Move(a, sv, s, p);
            (forall o :: InWorld(w, o) && o != s ==> Agree(a, sv'.world, Fold(k, sv'.world, sends), s, o)) <==>
            (forall o :: InWorld(w, o) && o != s ==> !Blurred(a, CellOf(a, w, o), CellOf(a, w, s), MoveTarget(a, p)))
  {
    forall o | InWorld(sv.world, o) && o != s
      ensures var (sv', sends) := Move(cfg.area, sv, s, p);
              Agree(cfg.area, sv'.world, Fold(k, sv'.world, sends), s, o) <==>
              !Blurred(cfg.area, CellOf(cfg.area, sv.world, o), CellOf(cfg.area, sv.world, s), MoveTarget(cfg.area, p))
    {
      MoveAgreesWith(cfg.area, k, sv.world, s, p, o);
    }
  }

  /** The law of a move, for one who knew `o` iff it saw it. */
  lemma BlurLaw(a: Area, o: Cell, from: Cell, to: Cell)
    requires !IsInvalid(a, o)
    ensures var saw, sees := Near(o, from, a.vision), Near(o, to, a.vision);
            var knows := Touches(a, o, to, from) || (saw && !Touches(a, o, from, to));
            (knows <==> sees) <==> !Blurred(a, o, from, to)
  {
    if Near(o, from, a.vision) && !Near(o, to, a.vision) {
      SharedCellTouches(a, o, from, to, o);
    }
    if Near(o, to, a.vision) && !Near(o, from, a.vision) {
      SharedCellTouches(a, o, to, from, o);
    }
  }

  lemma MoveAgreesWith(a: Area, k: Known, w: World, s: Sid, p: Pos, o: Sid)
    requires IndexInv(a, w) && InWorld(w, s) && InWorld(w, o) && o != s && Agree(a, w, k, s, o)
    ensures var (w', sends) := HandleMove(a, w, s, p);
            Agree(a, w', Fold(k, w', sends), s, o) <==> !Blurred(a, CellOf(a, w, o), CellOf(a, w, s), MoveTarget(a, p))
  {
    var oc, from, to := CellOf(a, w, o), CellOf(a, w, s), MoveTarget(a, p);
    var (w', sends) := HandleMove(a, w, s, p);
    var pair := (Of(w, s).id, Of(w, o).id);
    MovedParts(a, w, s, p);
    assert Agree(a, w', Fold(k, w', sends), s, o) <==> (pair in Fold(k, w', sends) <==> Near(oc, to, a.vision));
    assert pair in k <==> Near(oc, from, a.vision);
    assert pair in Fold(k, w', sends) <==> Touches(a, oc, to, from) || (pair in k && !Touches(a, oc, from, to)) by {
      MoveLaw(a, k, w, s, p, o, o);
    }
    BlurLaw(a, oc, from, to);
  }

  ghost predicate AllAgree(a: Area, w: World, k: Known)
  {
    forall p, o :: InWorld(w, p) && InWorld(w, o) && p != o ==> Agree(a, w, k, p, o)
  }

  /** A map on which vision is trivial: one sees only one's own cell, or the whole map. */
  predicate TrivialVision(a: Area)
  {
    a.vision == 0 || Count(a) <= a.vision + 1
  }

  lemma NothingBlurs(a: Area, o: Cell, from: Cell, to: Cell)
    requires TrivialVision(a) && !IsInvalid(a, o) && !IsInvalid(a, from) && !IsInvalid(a, to)
    ensures !Blurred(a, o, from, to)
  {
    TouchesMeansSharedCell(a, o, from, to);
    TouchesMeansSharedCell(a, o, to, from);
  }

  lemma StepAgrees(cfg: Config, sv: Server, k: Known, step: Step)
    requires TrivialVision(cfg.area) && Inv(cfg, sv, k) && Enabled(cfg, sv, step)
    requires AllAgree(cfg.area, sv.world, k)
    ensures var (sv', sends) := Apply(cfg, sv, step); AllAgree(cfg.area, sv'.world, Fold(k, sv'.world, sends))
  {
    var a, w := cfg.area, sv.world;
    match step {
      case DoLogin(s) =>
        LoginAgrees(a, sv, k, s);
      case DoEnter(s, x, y) =>
        if Of(w, s).state == LOBBY {
          EnterAgrees(a, sv, k, s, Pos(x as real, y as real));
        }
      case DoMove(s, p) =>
        if Alive(w, s) && OnMap(a, p) {
          MoveAgreesAll(a, k, w, s, p);
        }
      case DoAttack(s, kind, id) =>
        AttackStep(cfg, sv, s, kind, id);
        SameButHpAgrees(a, w, Attack(cfg, sv, s, kind, id).0.world, k, Attack(cfg, sv, s, kind, id).1);
      case DoDisconnect(s) =>
        DisconnectAgrees(a, sv, k, s);
      case DoTick =>
        TickStep(a, sv);
        SameButHpAgrees(a, w, Tick(a, sv).0.world, k, Tick(a, sv).1);
    }
  }

  lemma LoginAgrees(a: Area, sv: Server, k: Known, s: Sid)
    requires WorldOk(a, sv.world) && AllAgree(a, sv.world, k) && Of(sv.world, s).state != GAME
    requires forall id :: id in sv.world.sessions ==> id < sv.nextId
    ensures var (sv', sends) := Login(sv, s); AllAgree(a, sv'.world, Fold(k, sv'.world, sends))
  {
    var (sv', sends) := Login(sv, s);
    var w, w' := sv.world, sv'.world;
    FoldSilent(k, w', sends);
    forall p, o | InWorld(w', p) && InWorld(w', o) && p != o
      ensures Agree(a, w', k, p, o)
    {
      assert p != s && o != s && InWorld(w, p) && InWorld(w, o);
      assert Agree(a, w, k, p, o);
    }
  }

  lemma SameButHpAgrees(a: Area, w: World, w': World, k: Known, sends: seq<Send>)
    requires SameButHp(w, w') && AllAgree(a, w, k) && Silent(sends)
    ensures AllAgree(a, w', Fold(k, w', sends))
  {
    FoldSilent(k, w', sends);
    forall p, o | InWorld(w', p) && InWorld(w', o) && p != o
      ensures Agree(a, w', k, p, o)
    {
      assert InWorld(w, p) && InWorld(w, o);
      assert CellOf(a, w', p) == CellOf(a, w, p) && CellOf(a, w', o) == CellOf(a, w, o);
    }
  }

  lemma MoveAgreesAll(a: Area, k: Known, w: World, s: Sid, p: Pos)
    requires TrivialVision(a) && IndexInv(a, w) && InWorld(w, s)
    requires AllAgree(a, w, k) && LedgerOk(a, w, k)
    ensures var (w', sends) := HandleMove(a, w, s, p); AllAgree(a, w', Fold(k, w', sends))
  {
    hide GetGridPos, Moved, Touches, Fold, Blurred;
    var (w', sends) := HandleMove(a, w, s, p);
    var k' := Fold(k, w', sends);
    MovedParts(a, w, s, p);
    MoveKeepsIndex(a, w, s, p);
    MoveKeepsLedger(a, k, w, s, p);
    forall q, o | InWorld(w', q) && InWorld(w', o) && q != o
      ensures Agree(a, w', k', q, o)
    {
      if q == s || o == s {
        var t := if q == s then o else q;
        MoveAgreesWith(a, k, w, s, p, t);
        NothingBlurs(a, CellOf(a, w, t), CellOf(a, w, s), MoveTarget(a, p));
        assert Agree(a, w', k', s, t);
      } else {
        MoveLaw(a, k, w, s, p, o, q);
        assert Agree(a, w, k, q, o);
      }
    }
  }

  lemma EnterGameAgrees(a: Area, k: Known, w: World, s: Sid, p: Pos)
    requires IndexInv(a, w) && AllAgree(a, w, k)
    requires Of(w, s).id !in w.sessions
    requires forall q :: q in k ==> q.0 != Of(w, s).id && q.1 != Of(w, s).id
    ensures var (w', sends) := EnterGame(a, w, s, p); AllAgree(a, w', Fold(k, w', sends))
  {
    var (w', sends) := EnterGame(a, w, s, p);
    EnterKeepsIndex(a, w, s, p);
    forall q, o | InWorld(w', q) && InWorld(w', o) && q != o
      ensures Agree(a, w', Fold(k, w', sends), q, o)
    {
      EnterAgreesOn(a, k, w, s, p, q, o);
    }
  }

  lemma EnterAgreesOn(a: Area, k: Known, w: World, s: Sid, p: Pos, q: Sid, o: Sid)
    requires IndexInv(a, w) && q != o && (q == s || InWorld(w, q)) && (o == s || InWorld(w, o))
    requires q != s && o != s ==> Agree(a, w, k, q, o)
    requires Of(w, s).id !in w.sessions
    requires forall q :: q in k ==> q.0 != Of(w, s).id && q.1 != Of(w, s).id
    ensures var (w', sends) := EnterGame(a, w, s, p); Agree(a, w', Fold(k, w', sends), q, o)
  {
    EnteredParts(a, w, s, p);
    if q == s {
      EnterLaw(a, k, w, s, p, o, o);
    } else if o == s {
      EnterLaw(a, k, w, s, p, q, q);
      NearSymmetric(CellOf(a, w, q), GetGridPos(a, p), a.vision);
    } else {
      EnterLaw(a, k, w, s, p, o, q);
    }
  }

  lemma EnterAgrees(a: Area, sv: Server, k: Known, s: Sid, p: Pos)
    requires WorldOk(a, sv.world) && IdsOk(sv, k) && AllAgree(a, sv.world, k)
    requires Of(sv.world, s).state == LOBBY
    ensures var (sv', sends) := Enter(a, sv, s, p); AllAgree(a, sv'.world, Fold(k, sv'.world, sends))
  {
    var w := SetSession(sv.world, s, Of(sv.world, s).(state := GAME));
    assert FreshId(sv.world, k, sv.timers, Of(sv.world, s).id);
    forall t
      ensures t != s ==> Of(w, t) == Of(sv.world, t)
      ensures InWorld(w, t) <==> InWorld(sv.world, t)
    {
    }
    SameSessionsIndex(a, sv.world, w);
    forall q, o | InWorld(w, q) && InWorld(w, o) && q != o
      ensures Agree(a, w, k, q, o)
    {
      assert Agree(a, sv.world, k, q, o);
    }
    EnterGameAgrees(a, k, w, s, p);
  }

  lemma DisconnectAgrees(a: Area, sv: Server, k: Known, s: Sid)
    requires WorldOk(a, sv.world) && AllAgree(a, sv.world, k)
    ensures var (sv', sends) := Disconnect(a, sv, s); AllAgree(a, sv'.world, Fold(k, sv'.world, sends))
  {
    var (sv', sends) := Disconnect(a, sv, s);
    var w, w' := sv.world, sv'.world;
    DisconnectWorld(a, sv, s);
    LeaveLedger(a, k, w, s);
    FoldSameIds(k, LeaveGame(a, w, s).0, w', sends);
    forall p, o | InWorld(w', p) && InWorld(w', o) && p != o
      ensures Agree(a, w', Fold(k, w', sends), p, o)
    {
      assert Agree(a, w, k, p, o);
      assert CellOf(a, w', p) == CellOf(a, w, p) && CellOf(a, w', o) == CellOf(a, w, o);
      if s !in w.players {
        assert sends == [];
      }
    }
  }

  lemma {:induction false} RunAgrees(cfg: Config, sv: Server, k: Known, steps: seq<Step>)
    requires TrivialVision(cfg.area) && Inv(cfg, sv, k) && Legal(cfg, sv, steps)
    requires AllAgree(cfg.area, sv.world, k)
    ensures var (sv', k') := Exec(cfg, sv, k, steps); AllAgree(cfg.area, sv'.world, k')
    decreases steps
  {
    if steps != [] {
      StepKeeps(cfg, sv, k, steps[0]);
      StepAgrees(cfg, sv, k, steps[0]);
      var (sv1, sends) := Apply(cfg, sv, steps[0]);
      RunAgrees(cfg, sv1, Fold(k, sv1.world, sends), steps[1..]);
    }
  }
}
