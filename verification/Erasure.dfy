/** The index as a data structure: the delta update is erase-then-insert, leaving undoes entering, and a
    session that has left leaves no trace. */
module Erasure {
  import opened Grid
  import opened Aoi

  /** UpdateVisionGrids equals RemoveFromVisionGrids followed by InsertToVisionGrids wherever the session is
      registered exactly in the vision box of its old cell; others are not affected. */
  lemma UpdateIsRemoveThenInsert(a: Area, g: Cells, s: Sid, from: Cell, to: Cell)
    requires forall c :: c in g ==> (s in g[c] <==> Near(c, from, a.vision))
    ensures Reindex(a, g, s, from, to) == Insert(a, Remove(a, g, s, from), s, to)
    ensures forall c, t :: c in g && t != s ==> (t in Reindex(a, g, s, from, to)[c] <==> t in g[c])
  {
    var u, ri := Reindex(a, g, s, from, to), Insert(a, Remove(a, g, s, from), s, to);
    forall c | c in g
      ensures u[c] == ri[c]
    {
      assert forall t :: t in u[c] <==> t in ri[c];
    }
  }

  // ----- runs of the three world operations -----

  datatype Op = OpEnter(s: Sid, pos: Pos) | OpMove(s: Sid, pos: Pos) | OpLeave(s: Sid)

  function Do(a: Area, w: World, op: Op): World
  {
    match op
    case OpEnter(s, p) => EnterGame(a, w, s, p).0
    case OpMove(s, p) => HandleMove(a, w, s, p).0
    case OpLeave(s) => LeaveGame(a, w, s).0
  }

  /** Enter with an id not in use, move when in the world, leave at any time with one's own id or one not in
      use. */
  predicate Allowed(w: World, op: Op) {
    match op
    case OpEnter(s, _) => Of(w, s).id !in w.sessions
    case OpMove(s, _) => InWorld(w, s)
    case OpLeave(s) => InWorld(w, s) || Of(w, s).id !in w.sessions
  }

  function DoAll(a: Area, w: World, ops: seq<Op>): World
    decreases ops
  {
    if ops == [] then w else DoAll(a, Do(a, w, ops[0]), ops[1..])
  }

  predicate AllAllowed(a: Area, w: World, ops: seq<Op>)
    decreases ops
  {
    ops == [] || (Allowed(w, ops[0]) && AllAllowed(a, Do(a, w, ops[0]), ops[1..]))
  }

  lemma DoKeepsIndex(a: Area, w: World, op: Op)
    requires IndexInv(a, w) && Allowed(w, op)
    ensures IndexInv(a, Do(a, w, op))
  {
    match op
    case OpEnter(s, p) => EnterKeepsIndex(a, w, s, p);
    case OpMove(s, p) => MoveKeepsIndex(a, w, s, p);
    case OpLeave(s) => if s in w.players { LeaveKeepsIndex(a, w, s); }
  }

  /** Leaving twice is leaving once. */
  lemma LeaveIsIdempotent(a: Area, w: World, s: Sid)
    requires IndexInv(a, w) && Allowed(w, OpLeave(s))
    ensures var w1 := Do(a, w, OpLeave(s));
            var w2 := Do(a, w1, OpLeave(s));
            w2.grids == w1.grids && w2.sessions == w1.sessions
  {
    var w1 := Do(a, w, OpLeave(s));
    if s in w.players {
      LeaveKeepsIndex(a, w, s);
      var w2 := Do(a, w1, OpLeave(s));
      forall c | c in w1.grids
        ensures w2.grids[c] == w1.grids[c]
      {
        assert s !in w1.grids[c];
      }
    }
  }

  // ----- erasing one session from a run -----

  ghost predicate GridsWithout(g: Cells, h: Cells, s: Sid) {
    && (forall c :: c in h <==> c in g)
    && (forall c, t :: c in g ==> (t in h[c] <==> t in g[c] && t != s))
  }

  ghost predicate SessionsWithout(m: map<Pid, Sid>, n: map<Pid, Sid>, s: Sid) {
    && (forall p :: p in n <==> p in m && m[p] != s)
    && (forall p :: p in n ==> n[p] == m[p])
  }

  /** `v` is `w` without session `s`: not registered, not in the sessions map, everybody else the same. */
  ghost predicate Without(w: World, v: World, s: Sid) {
    && GridsWithout(w.grids, v.grids, s)
    && SessionsWithout(w.sessions, v.sessions, s)
    && (forall t :: t != s ==> Of(v, t) == Of(w, t) && (t in v.players <==> t in w.players))
  }

  lemma OwnStepIsErased(a: Area, w: World, v: World, op: Op)
    requires Without(w, v, op.s) && Allowed(w, op)
    ensures Without(Do(a, w, op), v, op.s)
  {
    var s := op.s;
    match op
    case OpEnter(_, p) =>
      OwnGridStep(a, w.grids, v.grids, s, CellOf(a, w, s), GetGridPos(a, p));
      EnteredParts(a, w, s, p);
    case OpMove(_, p) =>
      OwnGridStep(a, w.grids, v.grids, s, CellOf(a, w, s), MoveTarget(a, p));
      MovedParts(a, w, s, p);
    case OpLeave(_) =>
      OwnGridStep(a, w.grids, v.grids, s, CellOf(a, w, s), CellOf(a, w, s));
  }

  lemma OwnGridStep(a: Area, g: Cells, h: Cells, s: Sid, from: Cell, to: Cell)
    requires GridsWithout(g, h, s)
    ensures GridsWithout(Insert(a, g, s, to), h, s)
    ensures GridsWithout(Remove(a, g, s, from), h, s)
    ensures GridsWithout(Reindex(a, g, s, from, to), h, s)
  {
  }

  lemma OtherStepCommutes(a: Area, w: World, v: World, s: Sid, op: Op)
    requires Without(w, v, s) && Allowed(w, op) && op.s != s
    ensures Allowed(v, op) && Without(Do(a, w, op), Do(a, v, op), s)
  {
    assert Of(v, op.s) == Of(w, op.s);
    match op
    case OpEnter(t, p) => OtherEnterCommutes(a, w, v, s, t, p);
    case OpMove(t, p) => OtherMoveCommutes(a, w, v, s, t, p);
    case OpLeave(t) => OtherLeaveCommutes(a, w, v, s, t);
  }

  lemma OtherEnterCommutes(a: Area, w: World, v: World, s: Sid, t: Sid, p: Pos)
    requires Without(w, v, s) && t != s && Of(w, t).id !in w.sessions
    ensures Without(Entered(a, w, t, p), Entered(a, v, t, p), s)
  {
    var w', v' := Entered(a, w, t, p), Entered(a, v, t, p);
    assert GridsWithout(w'.grids, v'.grids, s) by {
      OtherGridStep(a, w.grids, v.grids, s, t, GetGridPos(a, p), GetGridPos(a, p));
    }
    assert SessionsWithout(w'.sessions, v'.sessions, s);
    EnteredParts(a, w, t, p);
    EnteredParts(a, v, t, p);
    SameOthers(w, v, w', v', s, t);
  }

  lemma OtherMoveCommutes(a: Area, w: World, v: World, s: Sid, t: Sid, p: Pos)
    requires Without(w, v, s) && t != s
    ensures Without(Moved(a, w, t, p), Moved(a, v, t, p), s)
  {

    MovedParts(a, w, t, p);
    MovedParts(a, v, t, p);
    assert CellOf(a, v, t) == CellOf(a, w, t);
    OtherGridStep(a, w.grids, v.grids, s, t, CellOf(a, w, t), MoveTarget(a, p));
    SameOthers(w, v, Moved(a, w, t, p), Moved(a, v, t, p), s, t);
  }

  lemma OtherLeaveCommutes(a: Area, w: World, v: World, s: Sid, t: Sid)
    requires Without(w, v, s) && t != s && Allowed(w, OpLeave(t))
    ensures Without(LeaveGame(a, w, t).0, LeaveGame(a, v, t).0, s)
  {
    OtherGridStep(a, w.grids, v.grids, s, t, CellOf(a, w, t), CellOf(a, w, t));
    var w', v' := LeaveGame(a, w, t).0, LeaveGame(a, v, t).0;
    assert forall u :: Of(w', u) == Of(w, u) && Of(v', u) == Of(v, u);
    assert SessionsWithout(w'.sessions, v'.sessions, s);
  }

  lemma SameOthers(w: World, v: World, w': World, v': World, s: Sid, t: Sid)
    requires Without(w, v, s) && Of(w', t) == Of(v', t) && (t in w'.players <==> t in v'.players)
    requires forall u :: u != t ==> Of(w', u) == Of(w, u) && (u in w'.players <==> u in w.players)
    requires forall u :: u != t ==> Of(v', u) == Of(v, u) && (u in v'.players <==> u in v.players)
    ensures forall u :: u != s ==> Of(v', u) == Of(w', u) && (u in v'.players <==> u in w'.players)
  {
  }

  lemma OtherGridStep(a: Area, g: Cells, h: Cells, s: Sid, t: Sid, from: Cell, to: Cell)
    requires GridsWithout(g, h, s) && t != s
    ensures GridsWithout(Insert(a, g, t, to), Insert(a, h, t, to), s)
    ensures GridsWithout(Remove(a, g, t, from), Remove(a, h, t, from), s)
    ensures GridsWithout(Reindex(a, g, t, from, to), Reindex(a, h, t, from, to), s)
  {
  }

  function OthersOnly(ops: seq<Op>, s: Sid): seq<Op> {
    if ops == [] then []
    else (if ops[0].s == s then [] else [ops[0]]) + OthersOnly(ops[1..], s)
  }

  lemma {:induction false} ErasedRun(a: Area, w: World, v: World, s: Sid, ops: seq<Op>)
    requires IndexInv(a, w) && Without(w, v, s) && AllAllowed(a, w, ops)
    ensures AllAllowed(a, v, OthersOnly(ops, s)) && IndexInv(a, DoAll(a, w, ops))
    ensures Without(DoAll(a, w, ops), DoAll(a, v, OthersOnly(ops, s)), s)
    decreases ops
  {
    if ops != [] {
      var w1 := Do(a, w, ops[0]);
      DoKeepsIndex(a, w, ops[0]);
      if ops[0].s == s {
        OwnStepIsErased(a, w, v, ops[0]);
        assert OthersOnly(ops, s) == OthersOnly(ops[1..], s);
        ErasedRun(a, w1, v, s, ops[1..]);
      } else {
        OtherStepCommutes(a, w, v, s, ops[0]);
        assert OthersOnly(ops, s)[1..] == OthersOnly(ops[1..], s);
        ErasedRun(a, w1, Do(a, v, ops[0]), s, ops[1..]);
      }
    }
  }

  /** Any run in which a session starts and ends outside the world, however often it enters, moves and leaves
      in between, gives the grids and the sessions map of the run with all its steps deleted. */
  lemma LeavesNoTrace(a: Area, w: World, s: Sid, ops: seq<Op>)
    requires IndexInv(a, w) && AllAllowed(a, w, ops)
    requires !InWorld(w, s) && !InWorld(DoAll(a, w, ops), s)
    ensures AllAllowed(a, w, OthersOnly(ops, s))
    ensures DoAll(a, w, ops).grids == DoAll(a, w, OthersOnly(ops, s)).grids
    ensures DoAll(a, w, ops).sessions == DoAll(a, w, OthersOnly(ops, s)).sessions
  {
    AbsentIsErased(a, w, w, s);
    ErasedRun(a, w, w, s, ops);
    AbsentIsEqual(a, DoAll(a, w, ops), DoAll(a, w, OthersOnly(ops, s)), s);
  }

  lemma AbsentIsErased(a: Area, w: World, v: World, s: Sid)
    requires IndexInv(a, w) && !InWorld(w, s) && v == w
    ensures Without(w, v, s)
  {
    forall p | p in w.sessions
      ensures w.sessions[p] != s
    {
      assert Of(w, w.sessions[p]).id == p;
    }
  }

  lemma AbsentIsEqual(a: Area, w: World, v: World, s: Sid)
    requires IndexInv(a, w) && !InWorld(w, s) && Without(w, v, s)
    ensures v.grids == w.grids && v.sessions == w.sessions
  {
    forall c | c in w.grids
      ensures v.grids[c] == w.grids[c]
    {
      assert s !in w.grids[c];
      assert forall t :: t in v.grids[c] <==> t in w.grids[c];
    }
    AbsentIsErased(a, w, w, s);
    assert forall p :: p in v.sessions.Keys <==> p in w.sessions.Keys;
    assert forall p :: p in w.sessions ==> v.sessions[p] == w.sessions[p];
  }
}
