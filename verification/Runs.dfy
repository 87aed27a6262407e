/** Entering, moving and leaving keep the invariant; then the invariant over every run, and what it
    says about the index and about who knows whom. */
module Runs {
  import opened Grid
  import opened Aoi
  import opened Ledger
  import opened TimeWheels
  import opened Servers
  import opened Invariants

  ghost predicate AllInWorld(w: World, pairs: seq<(Sid, Sid)>) {
    forall p :: p in pairs ==> InWorld(w, p.0) && InWorld(w, p.1)
  }

  /** Ids identify the sessions in the world. */
  lemma IdsInWorld(w: World, pairs: seq<(Sid, Sid)>, p: Sid, o: Sid)
    requires AllInWorld(w, pairs) && InWorld(w, p) && InWorld(w, o)
    ensures (Of(w, p).id, Of(w, o).id) in Ids(w, pairs) <==> (p, o) in pairs
    ensures forall q :: q in Ids(w, pairs) ==> q.0 in w.sessions && q.1 in w.sessions
  {
    forall q | q in pairs && (Of(w, q.0).id, Of(w, q.1).id) == (Of(w, p).id, Of(w, o).id)
      ensures q == (p, o)
    {
      assert InWorld(w, q.0) && InWorld(w, q.1);
    }
  }

  // ----- logins -----

  /** A login keeps the invariant iff the session is not in the game: a second login in the game changes the id of a
      session that stays registered, so the index then holds somebody who is not in the world. */
  lemma LoginKeepsIff(cfg: Config, sv: Server, k: Known, s: Sid)
    requires Inv(cfg, sv, k)
    ensures var (sv', sends) := Login(sv, s);
            Inv(cfg, sv', Fold(k, sv'.world, sends)) <==> Of(sv.world, s).state != GAME
  {
    if Of(sv.world, s).state != GAME {
      LoginKeeps(cfg, sv, k, s);
    } else {
      StrandedByLogin(cfg.area, sv, s);
    }
  }

  lemma StrandedByLogin(a: Area, sv: Server, s: Sid)
    requires WorldOk(a, sv.world) && Of(sv.world, s).state == GAME
    requires forall id :: id in sv.world.sessions ==> id < sv.nextId
    ensures !IndexInv(a, Login(sv, s).0.world)
  {
    var w, w', c := sv.world, Login(sv, s).0.world, CellOf(a, sv.world, s);
    NearSymmetric(c, c, a.vision);
    assert c in w.grids && s in w.grids[c];
    assert w'.grids == w.grids && Of(w', s).id == sv.nextId && !InWorld(w', s);
  }

  // ----- moves -----

  lemma MovePairsInWorld(a: Area, w: World, s: Sid, p: Pos)
    requires IndexInv(a, w) && InWorld(w, s)
    ensures AllInWorld(Moved(a, w, s, p), DespawnPairs(a, w, s, p))
    ensures AllInWorld(Moved(a, w, s, p), SpawnPairs(a, w, s, p))
  {
    var from, to, w' := CellOf(a, w, s), MoveTarget(a, p), Moved(a, w, s, p);
    MoveKeepsIndex(a, w, s, p);
    forall q | q in DespawnPairs(a, w, s, p)
      ensures InWorld(w', q.0) && InWorld(w', q.1)
    {
      PairsMembers(w'.grids, s, Stripe(a, from, to), q.0, q.1);
      StripeRegistrations(a, w', from, to, q.0);
      StripeRegistrations(a, w', from, to, q.1);
    }
    forall q | q in SpawnPairs(a, w, s, p)
      ensures InWorld(w', q.0) && InWorld(w', q.1)
    {
      PairsMembers(w'.grids, s, Stripe(a, to, from), q.0, q.1);
      StripeRegistrations(a, w', to, from, q.0);
      StripeRegistrations(a, w', to, from, q.1);
    }
  }

  /** The law of a move. Between the mover and anybody else in the world, knowledge after the move is:
      gained if the other's box touches V(new) \ V(old), else lost if it touches V(old) \ V(new), else
      unchanged; in both directions alike. Between others nothing changes. */
  lemma MoveLaw(a: Area, k: Known, w: World, s: Sid, p: Pos, o: Sid, u: Sid)
    requires IndexInv(a, w) && InWorld(w, s) && InWorld(w, o) && InWorld(w, u)
    requires o != s && u != s
    ensures var (w', sends) := HandleMove(a, w, s, p);
            var k' := Fold(k, w', sends);
            var from, to := CellOf(a, w, s), MoveTarget(a, p);
            var gained := Touches(a, CellOf(a, w, o), to, from);
            var lost := Touches(a, CellOf(a, w, o), from, to);
            && ((Of(w, s).id, Of(w, o).id) in k' <==> gained || ((Of(w, s).id, Of(w, o).id) in k && !lost))
            && ((Of(w, o).id, Of(w, s).id) in k' <==> gained || ((Of(w, o).id, Of(w, s).id) in k && !lost))
            && ((Of(w, u).id, Of(w, o).id) in k' <==> (Of(w, u).id, Of(w, o).id) in k)
  {
    var w' := Moved(a, w, s, p);
    var from, to := CellOf(a, w, s), MoveTarget(a, p);
    var ds, ss := DespawnPairs(a, w, s, p), SpawnPairs(a, w, s, p);
    MoveLedger(a, k, w, s, p);
    if from != to {
      MoveKeepsIndex(a, w, s, p);
      MovePairsInWorld(a, w, s, p);
      MoveNotifies(a, w, s, p, o);
      assert Of(w', s).id == Of(w, s).id && Of(w', o) == Of(w, o) && Of(w', u) == Of(w, u);
      IdsInWorld(w', ds, s, o);
      IdsInWorld(w', ds, o, s);
      IdsInWorld(w', ds, u, o);
      IdsInWorld(w', ss, s, o);
      IdsInWorld(w', ss, o, s);
      IdsInWorld(w', ss, u, o);
      PairsMembers(w'.grids, s, Stripe(a, from, to), u, o);
      PairsMembers(w'.grids, s, Stripe(a, to, from), u, o);
    } else {
      NoStripe(a, CellOf(a, w, o), from);
    }
  }

  lemma NoStripe(a: Area, o: Cell, c: Cell)
    requires !IsInvalid(a, o) && !IsInvalid(a, c)
    ensures !Touches(a, o, c, c)
  {
    TouchesMeansSharedCell(a, o, c, c);
  }

  /** Every id the ledger mentions after a move is one it mentioned before or one of a session in the
      world. */
  lemma MoveIds(a: Area, k: Known, w: World, s: Sid, p: Pos)
    requires IndexInv(a, w) && InWorld(w, s)
    ensures var (w', sends) := HandleMove(a, w, s, p);
            forall q :: q in Fold(k, w', sends) ==> q in k || (q.0 in w.sessions && q.1 in w.sessions)
  {
    var w' := Moved(a, w, s, p);
    MoveLedger(a, k, w, s, p);
    MoveKeepsIndex(a, w, s, p);
    MovePairsInWorld(a, w, s, p);
    IdsInWorld(w', SpawnPairs(a, w, s, p), s, s);
  }

  lemma MoveKeepsLedger(a: Area, k: Known, w: World, s: Sid, p: Pos)
    requires IndexInv(a, w) && InWorld(w, s) && LedgerOk(a, w, k)
    ensures var (w', sends) := HandleMove(a, w, s, p); LedgerOk(a, w', Fold(k, w', sends))
  {
    hide GetGridPos, Moved, Touches, Fold, Near;
    var (w', sends) := HandleMove(a, w, s, p);
    var k' := Fold(k, w', sends);
    var from, to := CellOf(a, w, s), MoveTarget(a, p);
    MoveKeepsIndex(a, w, s, p);
    MovedParts(a, w, s, p);
    forall q, o | InWorld(w', q) && InWorld(w', o) && (Of(w', q).id, Of(w', o).id) in k'
      ensures (Of(w', o).id, Of(w', q).id) in k' && Near(CellOf(a, w', q), CellOf(a, w', o), 2 * a.vision)
    {
      if q == s && o == s {
        NearSymmetric(to, to, 2 * a.vision);
      } else if q == s || o == s {
        var t := if q == s then o else q;
        MoveLaw(a, k, w, s, p, t, t);
        if Touches(a, CellOf(a, w, t), to, from) {
          TouchedIsNear(a, CellOf(a, w, t), to, from);
        } else {
          NearSymmetric(CellOf(a, w, t), from, 2 * a.vision);
          UntouchedStaysNear(a, CellOf(a, w, t), from, to);
        }
        NearSymmetric(CellOf(a, w, t), to, 2 * a.vision);
      } else {
        MoveLaw(a, k, w, s, p, o, q);
        MoveLaw(a, k, w, s, p, q, o);
      }
    }
  }

  lemma MoveKeeps(cfg: Config, sv: Server, k: Known, s: Sid, p: Pos)
    requires Inv(cfg, sv, k)
    ensures var (sv', sends) := Move(cfg.area, sv, s, p); Inv(cfg, sv', Fold(k, sv'.world, sends))
  {
    var (sv', sends) := Move(cfg.area, sv, s, p);
    if Alive(sv.world, s) && OnMap(cfg.area, p) {
      var w, w' := sv.world, sv'.world;
      MoveKeepsIndex(cfg.area, w, s, p);
      MoveKeepsLedger(cfg.area, k, w, s, p);
      MoveIds(cfg.area, k, w, s, p);
      forall t
        ensures Of(w', t).id == Of(w, t).id && Of(w', t).state == Of(w, t).state
      {
      }
      forall t | Of(w', t).state == LOBBY
        ensures FreshId(w', Fold(k, w', sends), sv'.timers, Of(w', t).id)
      {
        assert FreshId(w, k, sv.timers, Of(w, t).id);
      }
    }
  }

  // ----- entering -----

  lemma EnterPairsInWorld(a: Area, w: World, s: Sid, p: Pos)
    requires IndexInv(a, w) && Of(w, s).id !in w.sessions
    ensures AllInWorld(Entered(a, w, s, p), EnterPairs(a, w, s, p))
  {
    var w', to := Entered(a, w, s, p), GetGridPos(a, p);
    EnterKeepsIndex(a, w, s, p);
    forall q | q in EnterPairs(a, w, s, p)
      ensures InWorld(w', q.0) && InWorld(w', q.1)
    {
      PairUpMembers(InOrder(At(w'.grids, to)), s, q.0, q.1);
      ObserverInWorld(a, w', to, if q.0 == s then q.1 else q.0);
    }
  }

  lemma ObserverInWorld(a: Area, w: World, c: Cell, x: Sid)
    requires IndexInv(a, w)
    ensures x in At(w.grids, c) ==> InWorld(w, x) && Near(c, CellOf(a, w, x), a.vision)
  {
  }

  /** A newcomer with a fresh id and those who see its cell know each other, and nobody else is told. */
  lemma EnterLaw(a: Area, k: Known, w: World, s: Sid, p: Pos, o: Sid, u: Sid)
    requires IndexInv(a, w) && InWorld(w, o) && InWorld(w, u) && o != s && u != s
    requires Of(w, s).id !in w.sessions
    requires forall q :: q in k ==> q.0 != Of(w, s).id && q.1 != Of(w, s).id
    ensures var (w', sends) := EnterGame(a, w, s, p);
            var k' := Fold(k, w', sends);
            var seen := Near(CellOf(a, w, o), GetGridPos(a, p), a.vision);
            && ((Of(w, s).id, Of(w, o).id) in k' <==> seen)
            && ((Of(w, o).id, Of(w, s).id) in k' <==> seen)
            && ((Of(w, u).id, Of(w, o).id) in k' <==> (Of(w, u).id, Of(w, o).id) in k)
  {
    hide GetGridPos, Fold, InOrder;
    var w', to := Entered(a, w, s, p), GetGridPos(a, p);
    var es := EnterPairs(a, w, s, p);
    EnterLedger(a, k, w, s, p);
    EnterKeepsIndex(a, w, s, p);
    EnterPairsInWorld(a, w, s, p);
    EnterNotifies(a, w, s, p, o);
    assert Of(w', s).id == Of(w, s).id && Of(w', o) == Of(w, o) && Of(w', u) == Of(w, u);
    IdsInWorld(w', es, s, o);
    IdsInWorld(w', es, o, s);
    IdsInWorld(w', es, u, o);
    PairUpMembers(InOrder(At(w'.grids, to)), s, u, o);
  }

  lemma EnterIds(a: Area, k: Known, w: World, s: Sid, p: Pos)
    requires IndexInv(a, w) && Of(w, s).id !in w.sessions
    ensures var (w', sends) := EnterGame(a, w, s, p);
            forall q :: q in Fold(k, w', sends) ==> q in k || (q.0 in w'.sessions && q.1 in w'.sessions)
  {
    var w' := Entered(a, w, s, p);
    EnterLedger(a, k, w, s, p);
    EnterKeepsIndex(a, w, s, p);
    EnterPairsInWorld(a, w, s, p);
    IdsInWorld(w', EnterPairs(a, w, s, p), s, s);
  }

  lemma EnterKeepsLedger(a: Area, k: Known, w: World, s: Sid, p: Pos)
    requires IndexInv(a, w) && LedgerOk(a, w, k)
    requires Of(w, s).id !in w.sessions
    requires forall q :: q in k ==> q.0 != Of(w, s).id && q.1 != Of(w, s).id
    ensures var (w', sends) := EnterGame(a, w, s, p); LedgerOk(a, w', Fold(k, w', sends))
  {
    hide GetGridPos, Entered, Fold;
    var (w', sends) := EnterGame(a, w, s, p);
    var k' := Fold(k, w', sends);
    EnterKeepsIndex(a, w, s, p);
    EnteredParts(a, w, s, p);
    forall q, o | InWorld(w', q) && InWorld(w', o) && (Of(w', q).id, Of(w', o).id) in k'
      ensures (Of(w', o).id, Of(w', q).id) in k' && Near(CellOf(a, w', q), CellOf(a, w', o), 2 * a.vision)
    {
      if q == s && o == s {
      } else if q == s || o == s {
        var t := if q == s then o else q;
        EnterLaw(a, k, w, s, p, t, t);
      } else {
        EnterLaw(a, k, w, s, p, o, q);
        EnterLaw(a, k, w, s, p, q, o);
      }
    }
  }

  lemma EnterKeeps(cfg: Config, sv: Server, k: Known, s: Sid, p: Pos)
    requires Inv(cfg, sv, k)
    ensures var (sv', sends) := Enter(cfg.area, sv, s, p); Inv(cfg, sv', Fold(k, sv'.world, sends))
  {
    var (sv', sends) := Enter(cfg.area, sv, s, p);
    if Of(sv.world, s).state == LOBBY {
      var a, w, w' := cfg.area, SetSession(sv.world, s, Of(sv.world, s).(state := GAME)), sv'.world;
      var id := Of(sv.world, s).id;
      assert FreshId(sv.world, k, sv.timers, id) && s !in sv.world.players;
      forall t
        ensures t != s ==> Of(w, t) == Of(sv.world, t)
        ensures InWorld(w, t) <==> InWorld(sv.world, t)
      {
      }
      SameSessionsIndex(a, sv.world, w);
      SameSessionsLedger(a, sv.world, w, k);
      EnterKeepsIndex(a, w, s, p);
      EnterKeepsLedger(a, k, w, s, p);
      EnterIds(a, k, w, s, p);
      EnteredParts(a, w, s, p);
      EnterKeepsFresh(sv, k, s, w', Fold(k, w', sends));
      EnterKeepsTimers(sv, s, w');
    }
  }

  lemma EnterKeepsFresh(sv: Server, k: Known, s: Sid, w': World, k': Known)
    requires IdsOk(sv, k) && Of(sv.world, s).state == LOBBY
    requires forall t :: t != s ==> Of(w', t) == Of(sv.world, t)
    requires Of(w', s).id == Of(sv.world, s).id && Of(w', s).state == GAME
    requires w'.sessions == sv.world.sessions[Of(w', s).id := s]
    requires forall q :: q in k' ==> q in k || (q.0 in w'.sessions && q.1 in w'.sessions)
    ensures IdsOk(sv.(world := w'), k')
  {
    forall t | Of(w', t).state == LOBBY
      ensures Of(w', t).id < sv.nextId && FreshId(w', k', sv.timers, Of(w', t).id)
    {
      assert FreshId(sv.world, k, sv.timers, Of(sv.world, t).id);
    }
  }

  lemma EnterKeepsTimers(sv: Server, s: Sid, w': World)
    requires TimersOk(sv) && s !in sv.world.players
    requires forall t :: t != s ==> Of(w', t) == Of(sv.world, t)
    requires w'.players == sv.world.players[s := Vitals(FULL_HP, FULL_HP)]
    requires forall e :: e in sv.timers ==> e.callback.expectedId != Of(w', s).id
    ensures TimersOk(sv.(world := w'))
  {
    PendingMembers(sv.timers, Respawn(s, Of(w', s).id));
  }

  // ----- leaving -----

  /** Who is in the world after a disconnect, and what has become of the sessions. */
  lemma DisconnectWorld(a: Area, sv: Server, s: Sid)
    requires WorldOk(a, sv.world)
    ensures var w, w' := sv.world, Disconnect(a, sv, s).0.world;
            && WorldOk(a, w')
            && (forall t :: InWorld(w', t) <==> InWorld(w, t) && t != s)
            && (forall t :: Of(w', t).id == Of(w, t).id && Of(w', t).pos == Of(w, t).pos)
            && (forall t :: t != s ==> Of(w', t) == Of(w, t))
            && Of(w', s).state == NONE
            && w'.players == w.players - {s}
            && (forall id :: id in w'.sessions ==> id in w.sessions)
  {
    var w, w', left := sv.world, Disconnect(a, sv, s).0.world, LeaveGame(a, sv.world, s).0;
    forall t
      ensures Of(left, t) == Of(w, t)
      ensures Of(w', t).id == Of(w, t).id && Of(w', t).pos == Of(w, t).pos
      ensures t != s ==> Of(w', t) == Of(w, t)
    {
    }
    if s in w.players {
      LeaveKeepsIndex(a, w, s);
    }
    forall t
      ensures InWorld(left, t) <==> InWorld(w, t) && t != s
      ensures InWorld(w', t) <==> InWorld(left, t)
    {
    }
    SameSessionsIndex(a, left, w');
  }

  lemma DisconnectKeepsLedger(a: Area, sv: Server, k: Known, s: Sid)
    requires WorldOk(a, sv.world) && LedgerOk(a, sv.world, k)
    ensures var (sv', sends) := Disconnect(a, sv, s);
            LedgerOk(a, sv'.world, Fold(k, sv'.world, sends)) && Fold(k, sv'.world, sends) <= k
  {
    var (sv', sends) := Disconnect(a, sv, s);
    var w, w' := sv.world, sv'.world;
    var k' := Fold(k, w', sends);
    DisconnectWorld(a, sv, s);
    LeaveLedger(a, k, w, s);
    FoldSameIds(k, LeaveGame(a, w, s).0, w', sends);
    forall p, o | InWorld(w', p) && InWorld(w', o) && (Of(w', p).id, Of(w', o).id) in k'
      ensures (Of(w', o).id, Of(w', p).id) in k' && Near(CellOf(a, w', p), CellOf(a, w', o), 2 * a.vision)
    {
      assert InWorld(w, p) && InWorld(w, o) && p != s;
      assert (Of(w, o).id, Of(w, p).id) in k;
      if s !in w.players {
        assert sends == [] && k' == k;
      }
    }
  }

  lemma DisconnectKeeps(cfg: Config, sv: Server, k: Known, s: Sid)
    requires Inv(cfg, sv, k)
    ensures var (sv', sends) := Disconnect(cfg.area, sv, s); Inv(cfg, sv', Fold(k, sv'.world, sends))
  {
    var (sv', sends) := Disconnect(cfg.area, sv, s);
    var k' := Fold(k, sv'.world, sends);
    DisconnectWorld(cfg.area, sv, s);
    DisconnectKeepsLedger(cfg.area, sv, k, s);
    forall t | Of(sv'.world, t).state == LOBBY
      ensures FreshId(sv'.world, k', sv'.timers, Of(sv'.world, t).id)
    {
      assert FreshId(sv.world, k, sv.timers, Of(sv.world, t).id);
    }
  }
}
