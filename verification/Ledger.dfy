/** What the clients are told: a ledger of who knows whom, folded from the SPAWN and DESPAWN
    packets in the order they are sent, and how each world operation changes it. */
module Ledger {
  import opened Grid
  import opened Aoi

  /** (p, o) is in the ledger when the last SPAWN or DESPAWN of o sent to p was a SPAWN. */
  type Known = set<(Pid, Pid)>

  function Hear(k: Known, to: Pid, p: Packet): Known {
    match p
    case SSpawn(id, _) => k + {(to, id)}
    case SDespawn(id) => k - {(to, id)}
    case _ => k
  }

  function Fold(k: Known, w: World, sends: seq<Send>): Known
    decreases sends
  {
    if sends == [] then k
    else Fold(Hear(k, Of(w, sends[0].to).id, sends[0].packet), w, sends[1..])
  }

  lemma {:induction false} FoldAppend(k: Known, w: World, s1: seq<Send>, s2: seq<Send>)
    ensures Fold(k, w, s1 + s2) == Fold(Fold(k, w, s1), w, s2)
    decreases s1
  {
    if s1 == [] {
      assert s1 + s2 == s2;
    } else {
      assert (s1 + s2)[1..] == s1[1..] + s2;
      FoldAppend(Hear(k, Of(w, s1[0].to).id, s1[0].packet), w, s1[1..], s2);
    }
  }

  /** Folding depends on the ids in the world only. */
  lemma {:induction false} FoldSameIds(k: Known, w: World, w': World, sends: seq<Send>)
    requires forall s :: Of(w, s).id == Of(w', s).id
    ensures Fold(k, w, sends) == Fold(k, w', sends)
    decreases sends
  {
    if sends != [] {
      FoldSameIds(Hear(k, Of(w, sends[0].to).id, sends[0].packet), w, w', sends[1..]);
    }
  }

  predicate IsNotice(p: Packet) {
    p.SSpawn? || p.SDespawn?
  }

  lemma {:induction false} FoldSilent(k: Known, w: World, sends: seq<Send>)
    requires forall i :: 0 <= i < |sends| ==> !IsNotice(sends[i].packet)
    ensures Fold(k, w, sends) == k
    decreases sends
  {
    if sends != [] {
      assert !IsNotice(sends[0].packet);
      FoldSilent(k, w, sends[1..]);
    }
  }

  lemma {:induction false} ToAllIs(targets: seq<Sid>, p: Packet)
    ensures |ToAll(targets, p)| == |targets|
    ensures forall i :: 0 <= i < |targets| ==> ToAll(targets, p)[i] == Send(targets[i], p)
  {
    if targets != [] {
      ToAllIs(targets[1..], p);
    }
  }

  /** The ids named by a list of (target, object) pairs. */
  function Ids(w: World, pairs: seq<(Sid, Sid)>): Known {
    set p | p in pairs :: (Of(w, p.0).id, Of(w, p.1).id)
  }

  lemma IdsTail(w: World, pairs: seq<(Sid, Sid)>)
    requires pairs != []
    ensures Ids(w, pairs) == {(Of(w, pairs[0].0).id, Of(w, pairs[0].1).id)} + Ids(w, pairs[1..])
  {
    assert pairs == [pairs[0]] + pairs[1..];
    forall p | p in pairs
      ensures p == pairs[0] || p in pairs[1..]
    {
    }
    assert pairs[0] in pairs;
  }

  lemma {:induction false} FoldDespawns(k: Known, w: World, pairs: seq<(Sid, Sid)>)
    ensures Fold(k, w, Despawns(w, pairs)) == k - Ids(w, pairs)
    decreases pairs
  {
    if pairs != [] {
      IdsTail(w, pairs);
      var first := DespawnOf(w, pairs[0]);
      assert Despawns(w, pairs)[1..] == Despawns(w, pairs[1..]);
      FoldDespawns(Hear(k, Of(w, first.to).id, first.packet), w, pairs[1..]);
    }
  }

  lemma {:induction false} FoldSpawns(k: Known, w: World, pairs: seq<(Sid, Sid)>)
    ensures Fold(k, w, Spawns(w, pairs)) == k + Ids(w, pairs)
    decreases pairs
  {
    if pairs != [] {
      IdsTail(w, pairs);
      var first := SpawnOf(w, pairs[0]);
      assert Spawns(w, pairs)[1..] == Spawns(w, pairs[1..]);
      FoldSpawns(Hear(k, Of(w, first.to).id, first.packet), w, pairs[1..]);
    }
  }

  // ----- who is collected -----

  lemma {:induction false} PairUpMembers(order: seq<Sid>, s: Sid, t: Sid, o: Sid)
    ensures (t, o) in PairUp(order, s) <==> (o == s && t != s && t in order) || (t == s && o != s && o in order)
  {
    if order != [] {
      PairUpMembers(order[1..], s, t, o);
      assert order == [order[0]] + order[1..];
    }
  }

  /** `o` is registered in one of the cells. */
  ghost predicate Registered(g: Cells, cells: seq<Cell>, o: Sid) {
    exists c :: c in cells && o in At(g, c)
  }

  lemma {:induction false} PairsMembers(g: Cells, s: Sid, cells: seq<Cell>, t: Sid, o: Sid)
    ensures (t, o) in Pairs(g, s, cells) <==>
            (o == s && t != s && Registered(g, cells, t)) || (t == s && o != s && Registered(g, cells, o))
  {
    if cells != [] {
      PairsMembers(g, s, cells[1..], t, o);
      PairUpMembers(InOrder(At(g, cells[0])), s, t, o);
      assert cells == [cells[0]] + cells[1..];
      assert forall x: Sid :: Registered(g, cells, x) <==> x in At(g, cells[0]) || Registered(g, cells[1..], x);
    }
  }

  /** In a world with a correct index, the sessions registered in the stripe V(from) \ V(to) are
      those in the world whose own box reaches into it. */
  lemma StripeRegistrations(a: Area, w: World, from: Cell, to: Cell, o: Sid)
    requires IndexInv(a, w) && !IsInvalid(a, from)
    ensures Registered(w.grids, Stripe(a, from, to), o) <==> InWorld(w, o) && Touches(a, CellOf(a, w, o), from, to)
  {
    var oc := CellOf(a, w, o);
    TouchesMeansSharedCell(a, oc, from, to);
    if InWorld(w, o) && Touches(a, oc, from, to) {
      var c: Cell :| InStripe(a, c, from, to) && InBox(a, c, oc);
      StripeMembers(a, from, to, c);
      assert o in At(w.grids, c);
    }
    if Registered(w.grids, Stripe(a, from, to), o) {
      var c :| c in Stripe(a, from, to) && o in At(w.grids, c);
      StripeMembers(a, from, to, c);
      assert InBox(a, c, oc);
    }
  }

  // ----- what one operation does to the ledger -----

  /** The pairs a grid-changing move takes out of the ledger, then the pairs it puts in. */
  function DespawnPairs(a: Area, w: World, s: Sid, p: Pos): seq<(Sid, Sid)>
  {
    Pairs(Moved(a, w, s, p).grids, s, Stripe(a, CellOf(a, w, s), MoveTarget(a, p)))
  }

  function SpawnPairs(a: Area, w: World, s: Sid, p: Pos): seq<(Sid, Sid)>
  {
    Pairs(Moved(a, w, s, p).grids, s, Stripe(a, MoveTarget(a, p), CellOf(a, w, s)))
  }

  /** Exact characterisation of the move notifications: another session is in the despawn list, in
      both directions, iff it is in the world and its box touches V(old) \ V(new); it is in the
      spawn list iff its box touches V(new) \ V(old). */
  lemma MoveNotifies(a: Area, w: World, s: Sid, p: Pos, o: Sid)
    requires IndexInv(a, w) && InWorld(w, s) && o != s
    ensures var oc, from, to := CellOf(a, w, o), CellOf(a, w, s), MoveTarget(a, p);
            && ((o, s) in DespawnPairs(a, w, s, p) <==> InWorld(w, o) && Touches(a, oc, from, to))
            && ((s, o) in DespawnPairs(a, w, s, p) <==> InWorld(w, o) && Touches(a, oc, from, to))
            && ((o, s) in SpawnPairs(a, w, s, p) <==> InWorld(w, o) && Touches(a, oc, to, from))
            && ((s, o) in SpawnPairs(a, w, s, p) <==> InWorld(w, o) && Touches(a, oc, to, from))
  {
    var from, to, w' := CellOf(a, w, s), MoveTarget(a, p), Moved(a, w, s, p);
    MoveKeepsIndex(a, w, s, p);
    assert Of(w', o) == Of(w, o);
    StripeRegistrations(a, w', from, to, o);
    StripeRegistrations(a, w', to, from, o);
    PairsMembers(w'.grids, s, Stripe(a, from, to), o, s);
    PairsMembers(w'.grids, s, Stripe(a, from, to), s, o);
    PairsMembers(w'.grids, s, Stripe(a, to, from), o, s);
    PairsMembers(w'.grids, s, Stripe(a, to, from), s, o);
  }

  lemma BroadcastSilent(k: Known, a: Area, w: World, w': World, s: Sid, p: Packet)
    requires !IsNotice(p)
    ensures Fold(k, w', Broadcast(a, w, s, p)) == k
  {
    ToAllIs(InOrder(At(w.grids, CellOf(a, w, s))), p);
    FoldSilent(k, w', Broadcast(a, w, s, p));
  }

  /** All DESPAWNs of a move come before its SPAWNs: the ledger loses the first list, then gains
      the second. A move within the cell leaves it alone. */
  lemma MoveLedger(a: Area, k: Known, w: World, s: Sid, p: Pos)
    ensures var (w', sends) := HandleMove(a, w, s, p);
            Fold(k, w', sends) ==
            if CellOf(a, w, s) == MoveTarget(a, p) then k
            else k - Ids(w', DespawnPairs(a, w, s, p)) + Ids(w', SpawnPairs(a, w, s, p))
  {
    var (w', sends) := HandleMove(a, w, s, p);
    var moves := Broadcast(a, w', s, SMove(Of(w, s).id, ClampPos(a, p)));
    if CellOf(a, w, s) == MoveTarget(a, p) {
      BroadcastSilent(k, a, w', w', s, SMove(Of(w, s).id, ClampPos(a, p)));
    } else {
      var ds, ss := DespawnPairs(a, w, s, p), SpawnPairs(a, w, s, p);
      var k1 := k - Ids(w', ds);
      FoldDespawns(k, w', ds);
      FoldSpawns(k1, w', ss);
      FoldAppend(k, w', Despawns(w', ds), Spawns(w', ss));
      FoldAppend(k, w', Despawns(w', ds) + Spawns(w', ss), moves);
      BroadcastSilent(k1 + Ids(w', ss), a, w', w', s, SMove(Of(w, s).id, ClampPos(a, p)));
    }
  }

  /** Entering makes the newcomer and everyone whose box covers its cell know each other. */
  function EnterPairs(a: Area, w: World, s: Sid, p: Pos): seq<(Sid, Sid)>
  {
    PairUp(InOrder(At(Entered(a, w, s, p).grids, GetGridPos(a, p))), s)
  }

  lemma EnterLedger(a: Area, k: Known, w: World, s: Sid, p: Pos)
    ensures var (w', sends) := EnterGame(a, w, s, p);
            Fold(k, w', sends) == k + {(Of(w, s).id, Of(w, s).id)} + Ids(w', EnterPairs(a, w, s, p))
  {
    var (w', sends) := EnterGame(a, w, s, p);
    var first := [Send(s, SSpawn(Of(w, s).id, p))];
    FoldAppend(k, w', first, Spawns(w', EnterPairs(a, w, s, p)));
    assert first[1..] == [];
    assert Of(w', s).id == Of(w, s).id;
    assert Fold(k, w', first) == k + {(Of(w, s).id, Of(w, s).id)};
    FoldSpawns(k + {(Of(w, s).id, Of(w, s).id)}, w', EnterPairs(a, w, s, p));
  }

  lemma EnterNotifies(a: Area, w: World, s: Sid, p: Pos, o: Sid)
    requires IndexInv(a, w) && Of(w, s).id !in w.sessions && o != s
    ensures var seen := InWorld(w, o) && Near(CellOf(a, w, o), GetGridPos(a, p), a.vision);
            && ((o, s) in EnterPairs(a, w, s, p) <==> seen)
            && ((s, o) in EnterPairs(a, w, s, p) <==> seen)
  {
    hide GetGridPos, InOrder, PairUp;
    var w', to := Entered(a, w, s, p), GetGridPos(a, p);
    EnterKeepsIndex(a, w, s, p);
    assert Of(w', o) == Of(w, o);
    assert to in w'.grids;
    assert o in w'.grids[to] <==> InWorld(w', o) && Near(to, CellOf(a, w', o), a.vision);
    PairUpMembers(InOrder(At(w'.grids, to)), s, o, s);
    PairUpMembers(InOrder(At(w'.grids, to)), s, s, o);
  }

  lemma {:induction false} ExceptMembers(order: seq<Sid>, s: Sid, o: Sid)
    ensures o in Except(order, s) <==> o in order && o != s
  {
    if order != [] {
      ExceptMembers(order[1..], s, o);
      assert order == [order[0]] + order[1..];
    }
  }

  /** Leaving only takes pairs about the leaver out of the ledger, and takes it out of the ledger of
      everyone who sees it. */
  lemma LeaveLedger(a: Area, k: Known, w: World, s: Sid)
    requires IndexInv(a, w)
    ensures var (w', sends) := LeaveGame(a, w, s);
            && Fold(k, w', sends) <= k
            && (forall pair :: pair in k && pair.1 != Of(w, s).id ==> pair in Fold(k, w', sends))
            && (s in w.players ==>
                forall o :: InWorld(w, o) && o != s && Near(CellOf(a, w, o), CellOf(a, w, s), a.vision)
                            ==> (Of(w, o).id, Of(w, s).id) !in Fold(k, w', sends))
  {
    if s in w.players {
      var (w', sends) := LeaveGame(a, w, s);
      var order := InOrder(At(w.grids, CellOf(a, w, s)));
      var targets := Except(order, s);
      LeaveFold(k, w', targets, Of(w, s).id);
      forall o | InWorld(w, o) && o != s && Near(CellOf(a, w, o), CellOf(a, w, s), a.vision)
        ensures (Of(w, o).id, Of(w, s).id) !in Fold(k, w', sends)
      {
        ExceptMembers(order, s, o);
        assert o in At(w.grids, CellOf(a, w, s));
      }
    }
  }

  lemma {:induction false} LeaveFold(k: Known, w: World, targets: seq<Sid>, id: Pid)
    ensures var k' := Fold(k, w, ToAll(targets, SDespawn(id)));
            && k' <= k
            && (forall pair :: pair in k && pair.1 != id ==> pair in k')
            && (forall t :: t in targets ==> (Of(w, t).id, id) !in k')
  {
    if targets != [] {
      var k1 := Hear(k, Of(w, targets[0]).id, SDespawn(id));
      assert ToAll(targets, SDespawn(id))[1..] == ToAll(targets[1..], SDespawn(id));
      LeaveFold(k1, w, targets[1..], id);
      assert targets == [targets[0]] + targets[1..];
    }
  }
}
