/** TimeWheel.h and TimeWheel.cpp: the circular timer, and the proof that it behaves as a plain list
    of (due tick, callback). */
module TimeWheels {

  const WHEEL_TICK := 100
  const WHEEL_SIZE := 50

  // ----- the wheel as a value -----

  datatype Wheel<T> = Wheel(slots: seq<seq<T>>, cursor: int) {
    predicate Valid() {
      |slots| == WHEEL_SIZE && 0 <= cursor < WHEEL_SIZE
    }
  }

  /** AddTimer */
  function Added<T>(w: Wheel<T>, delayMs: int, callback: T): (r: Wheel<T>)
    requires w.Valid() && delayMs >= 0
    ensures r.Valid()
  {
    var target := (w.cursor + delayMs / WHEEL_TICK) % WHEEL_SIZE;
    w.(slots := w.slots[target := w.slots[target] + [callback]])
  }

  /** One turn of the loop in Update: the next slot's callbacks run in order and the slot is cleared. */
  function Advance<T>(w: Wheel<T>): (r: (Wheel<T>, seq<T>))
    requires w.Valid()
    ensures r.0.Valid()
  {
    var c := (w.cursor + 1) % WHEEL_SIZE;
    (Wheel(w.slots[c := []], c), w.slots[c])
  }

  // ----- the reference: a list of (due tick, callback) -----

  datatype Entry<T> = Entry(due: int, callback: T)

  /** The callbacks due at tick `d`, in the order they were added. */
  function Due<T>(list: seq<Entry<T>>, d: int): seq<T> {
    if list == [] then []
    else (if list[0].due == d then [list[0].callback] else []) + Due(list[1..], d)
  }

  function NotDue<T>(list: seq<Entry<T>>, d: int): seq<Entry<T>> {
    if list == [] then []
    else (if list[0].due == d then [] else [list[0]]) + NotDue(list[1..], d)
  }

  /** How many advances until a slot `t` places ahead of the cursor comes up: 1 to 50, the slot
      under the cursor being a full lap away. */
  function Lap(t: int): (n: int)
    ensures 1 <= n <= WHEEL_SIZE
  {
    (t - 1) % WHEEL_SIZE + 1
  }

  ghost predicate Refines<T>(w: Wheel<T>, list: seq<Entry<T>>, now: int) {
    && w.Valid()
    && (forall e :: e in list ==> e.due <= now + WHEEL_SIZE)
    && (forall i :: 0 <= i < WHEEL_SIZE ==> w.slots[i] == Due(list, now + Lap(i - w.cursor)))
  }

  /** Advances come 100 ms apart: a delay requested in milliseconds is met exactly iff it is a multiple of 100 from 100
      to 5000. The respawn delay of 5000 ms, which lands in the slot under the cursor, is the longest of these. */
  lemma DelayExactIff(delayMs: nat)
    ensures Lap(delayMs / WHEEL_TICK) * 100 == delayMs <==> delayMs % 100 == 0 && 100 <= delayMs <= 5000
  {
  }

  lemma {:induction false} DueAppend<T>(l1: seq<Entry<T>>, l2: seq<Entry<T>>, d: int)
    ensures Due(l1 + l2, d) == Due(l1, d) + Due(l2, d)
  {
    if l1 == [] {
      assert l1 + l2 == l2;
    } else {
      var all, first := l1 + l2, if l1[0].due == d then [l1[0].callback] else [];
      assert all[0] == l1[0] && all[1..] == l1[1..] + l2;
      DueAppend(l1[1..], l2, d);
      assert Due(all, d) == first + (Due(l1[1..], d) + Due(l2, d));
      assert Due(l1, d) == first + Due(l1[1..], d);
    }
  }

  lemma {:induction false} DueOne<T>(e: Entry<T>, d: int)
    ensures Due([e], d) == if e.due == d then [e.callback] else []
  {
    assert [e][1..] == [];
  }

  lemma {:induction false} DueNone<T>(list: seq<Entry<T>>, d: int)
    requires forall e :: e in list ==> e.due != d
    ensures Due(list, d) == []
  {
    if list != [] {
      assert list[0] in list;
      DueNone(list[1..], d);
    }
  }

  lemma {:induction false} NotDueKeepsOthers<T>(list: seq<Entry<T>>, d: int, e: int)
    ensures Due(NotDue(list, d), e) == if e == d then [] else Due(list, e)
  {
    if list != [] {
      NotDueKeepsOthers(list[1..], d, e);
      DueAppend(if list[0].due == d then [] else [list[0]], NotDue(list[1..], d), e);
    }
  }

  lemma {:induction false} NotDueMembers<T>(list: seq<Entry<T>>, d: int, x: Entry<T>)
    ensures x in NotDue(list, d) <==> x in list && x.due != d
  {
    if list != [] {
      NotDueMembers(list[1..], d, x);
      assert list == [list[0]] + list[1..];
    }
  }

  lemma SlotDistance(cursor: int, t: nat, i: int)
    requires 0 <= cursor < WHEEL_SIZE && 0 <= i < WHEEL_SIZE
    ensures Lap(i - cursor) == Lap(t) <==> i == (cursor + t) % WHEEL_SIZE
  {
  }

  lemma AddRefines<T>(w: Wheel<T>, list: seq<Entry<T>>, now: int, delayMs: int, callback: T)
    requires Refines(w, list, now) && delayMs >= 0
    ensures Refines(Added(w, delayMs, callback),
                    list + [Entry(now + Lap(delayMs / WHEEL_TICK), callback)], now)
  {
    hide Due, Lap;
    var t := delayMs / WHEEL_TICK;
    var e := Entry(now + Lap(t), callback);
    var w' := Added(w, delayMs, callback);
    forall i | 0 <= i < WHEEL_SIZE
      ensures w'.slots[i] == Due(list + [e], now + Lap(i - w'.cursor))
    {
      SlotAfterAdd(w.slots[i], w.cursor, list, now, t, callback, i);
    }
  }

  lemma SlotAfterAdd<T>(slot: seq<T>, cursor: int, list: seq<Entry<T>>, now: int, t: nat, callback: T, i: int)
    requires 0 <= cursor < WHEEL_SIZE && 0 <= i < WHEEL_SIZE && slot == Due(list, now + Lap(i - cursor))
    ensures Due(list + [Entry(now + Lap(t), callback)], now + Lap(i - cursor))
            == if i == (cursor + t) % WHEEL_SIZE then slot + [callback] else slot
  {
    var e, d := Entry(now + Lap(t), callback), now + Lap(i - cursor);
    DueAppend(list, [e], d);
    DueOne(e, d);
    SlotDistance(cursor, t, i);
    assert slot + [] == slot;
  }

  /** An advance runs exactly the callbacks that are due, in order; entries already past may stay in
      the list ... */
  lemma AdvanceRefines<T>(w: Wheel<T>, list: seq<Entry<T>>, now: int)
    requires Refines(w, list, now)
    ensures Advance(w).1 == Due(list, now + 1)
    ensures Refines(Advance(w).0, list, now + 1)
  {
    var (w', fired) := Advance(w);
    assert Lap(w'.cursor - w.cursor) == 1;
    forall i | 0 <= i < WHEEL_SIZE
      ensures w'.slots[i] == Due(list, now + 1 + Lap(i - w'.cursor))
    {
      if i == w'.cursor {
        assert Lap(i - w'.cursor) == WHEEL_SIZE;
        DueNone(list, now + 1 + WHEEL_SIZE);
      } else {
        NextLap(w.cursor, i);
      }
    }
  }

  /** ... or be dropped. */
  lemma DropRefines<T>(w: Wheel<T>, list: seq<Entry<T>>, now: int)
    requires Refines(w, list, now)
    ensures Refines(w, NotDue(list, now), now)
  {
    forall e | e in NotDue(list, now)
      ensures e.due <= now + WHEEL_SIZE
    {
      NotDueMembers(list, now, e);
    }
    forall i | 0 <= i < WHEEL_SIZE
      ensures w.slots[i] == Due(NotDue(list, now), now + Lap(i - w.cursor))
    {
      NotDueKeepsOthers(list, now, now + Lap(i - w.cursor));
    }
  }

  lemma NextLap(cursor: int, i: int)
    requires 0 <= cursor < WHEEL_SIZE && 0 <= i < WHEEL_SIZE && i != (cursor + 1) % WHEEL_SIZE
    ensures Lap(i - (cursor + 1) % WHEEL_SIZE) == Lap(i - cursor) - 1
  {
  }

  // ----- whole runs -----

  datatype Op<T> = Add(delayMs: nat, callback: T) | Turn

  function Turns<T>(ops: seq<Op<T>>): nat {
    if ops == [] then 0 else Turns(ops[..|ops| - 1]) + (if ops[|ops| - 1].Turn? then 1 else 0)
  }

  /** Every timer ever added, with the tick at which it is due. */
  function History<T>(ops: seq<Op<T>>): seq<Entry<T>> {
    if ops == [] then [] else
      var (before, last) := (ops[..|ops| - 1], ops[|ops| - 1]);
      match last
      case Add(ms, cb) => History(before) + [Entry(Turns(before) + Lap(ms / WHEEL_TICK), cb)]
      case Turn => History(before)
  }

  function EmptyWheel<T>(): (w: Wheel<T>)
    ensures w.Valid()
  {
    Wheel(seq(WHEEL_SIZE, i => []), 0)
  }

  /** The wheel after the run, and what each advance of it ran. */
  function Run<T>(ops: seq<Op<T>>): (r: (Wheel<T>, seq<seq<T>>))
    ensures r.0.Valid() && |r.1| == Turns(ops)
  {
    if ops == [] then (EmptyWheel(), [])
    else
      var (w, out) := Run(ops[..|ops| - 1]);
      match ops[|ops| - 1]
      case Add(ms, cb) => (Added(w, ms, cb), out)
      case Turn =>
        var (w', fired) := Advance(w);
        (w', out + [fired])
  }

  /** Over every run, advance number k runs exactly the callbacks due at tick k, once for each time
      they were added and in that order: no timer is lost, repeated, early or late. */
  lemma {:induction false} EveryTimerFiresOnceWhenDue<T>(ops: seq<Op<T>>)
    ensures Refines(Run(ops).0, History(ops), Turns(ops))
    ensures forall k :: 1 <= k <= Turns(ops) ==> Run(ops).1[k - 1] == Due(History(ops), k)
  {
    if ops != [] {
      var before, last := ops[..|ops| - 1], ops[|ops| - 1];
      var (w, out) := Run(before);
      var h, now := History(before), Turns(before);
      EveryTimerFiresOnceWhenDue(before);
      match last {
        case Add(ms, cb) =>
          var e := Entry(now + Lap(ms / WHEEL_TICK), cb);
          AddRefines(w, h, now, ms, cb);
          forall k | 1 <= k <= now
            ensures out[k - 1] == Due(h + [e], k)
          {
            DueAppend(h, [e], k);
            DueOne(e, k);
            assert Due(h, k) + [] == Due(h, k);
          }
        case Turn =>
          AdvanceRefines(w, h, now);
      }
    }
  }

  // ----- catching up -----

  /** The while loop of Update: advance once per full tick since lastTick. */
  function CatchUp<T>(w: Wheel<T>, lastTick: int, now: int): (r: (Wheel<T>, int, seq<T>))
    requires w.Valid()
    ensures r.0.Valid()
    decreases now - lastTick
  {
    if now - lastTick < WHEEL_TICK then (w, lastTick, [])
    else
      var (w1, fired) := Advance(w);
      var (w2, last, rest) := CatchUp(w1, lastTick + WHEEL_TICK, now);
      (w2, last, fired + rest)
  }

  /** Update at time a and then at b runs the same callbacks in the same order, and ends in the same
      state, as a single Update at b. */
  lemma {:induction false} CatchUpBatching<T>(w: Wheel<T>, lastTick: int, a: int, b: int)
    requires w.Valid() && lastTick <= a <= b
    ensures var (w1, last1, f1) := CatchUp(w, lastTick, a);
            var (w2, last2, f2) := CatchUp(w1, last1, b);
            CatchUp(w, lastTick, b) == (w2, last2, f1 + f2)
    decreases a - lastTick
  {
    var (w1, last1, f1) := CatchUp(w, lastTick, a);
    var f2 := CatchUp(w1, last1, b).2;
    if a - lastTick >= WHEEL_TICK {
      var (w', fired) := Advance(w);
      CatchUpBatching(w', lastTick + WHEEL_TICK, a, b);
      var rest := CatchUp(w', lastTick + WHEEL_TICK, a).2;
      assert fired + (rest + f2) == (fired + rest) + f2;
    } else {
      assert f1 + f2 == f2;
    }
  }

  /** Afterwards less than one tick is outstanding, and lastTick moved by whole ticks. */
  lemma {:induction false} CatchUpClock<T>(w: Wheel<T>, lastTick: int, now: int)
    requires w.Valid() && lastTick <= now
    ensures var last := CatchUp(w, lastTick, now).1;
            0 <= now - last < WHEEL_TICK && last == lastTick + (now - lastTick) / WHEEL_TICK * WHEEL_TICK
    decreases now - lastTick
  {
    if now - lastTick >= WHEEL_TICK {
      CatchUpClock(Advance(w).0, lastTick + WHEEL_TICK, now);
    }
  }

  /** What n advances of the list run, and what they leave. */
  function DueThrough<T>(list: seq<Entry<T>>, now: int, n: nat): seq<T>
    decreases n
  {
    if n == 0 then [] else Due(list, now + 1) + DueThrough(NotDue(list, now + 1), now + 1, n - 1)
  }

  function NotDueThrough<T>(list: seq<Entry<T>>, now: int, n: nat): seq<Entry<T>>
    decreases n
  {
    if n == 0 then list else NotDueThrough(NotDue(list, now + 1), now + 1, n - 1)
  }

  /** Catching up by n ticks runs what n advances of the list run. */
  lemma {:induction false} CatchUpRefines<T>(w: Wheel<T>, lastTick: int, clock: int, list: seq<Entry<T>>, now: int)
    requires Refines(w, list, now) && lastTick <= clock
    ensures var (w', last, fired) := CatchUp(w, lastTick, clock);
            var n := (clock - lastTick) / WHEEL_TICK;
            fired == DueThrough(list, now, n) && Refines(w', NotDueThrough(list, now, n), now + n)
    decreases clock - lastTick
  {
    if clock - lastTick >= WHEEL_TICK {
      AdvanceRefines(w, list, now);
      DropRefines(Advance(w).0, list, now + 1);
      CatchUpRefines(Advance(w).0, lastTick + WHEEL_TICK, clock, NotDue(list, now + 1), now + 1);
    }
  }

  // ----- the class -----

  class TimeWheel<T> {
    const slots: array<seq<T>>
    var cursor: int
    var lastTick: int

    ghost predicate Valid()
      reads this
    {
      slots.Length == WHEEL_SIZE && 0 <= cursor < WHEEL_SIZE
    }

    ghost function Value(): (w: Wheel<T>)
      requires Valid()
      reads this, slots
      ensures w.Valid()
    {
      Wheel(slots[..], cursor)
    }

    constructor (now: int)
      ensures Valid() && fresh(slots) && lastTick == now
      ensures Value() == EmptyWheel()
    {
      slots := new seq<T>[WHEEL_SIZE](i => []);
      cursor, lastTick := 0, now;
    }

    method AddTimer(delayMs: int, callback: T)
      requires Valid() && delayMs >= 0
      modifies slots
      ensures Value() == Added(old(Value()), delayMs, callback)
    {
      var ticks := delayMs / WHEEL_TICK;
      var targetSlot := (cursor + ticks) % WHEEL_SIZE;
      slots[targetSlot] := slots[targetSlot] + [callback];
    }

    /** `now` is the clock reading; `fired` lists the callbacks run, in order. */
    method Update(now: int) returns (fired: seq<T>)
      requires Valid() && lastTick <= now
      modifies this, slots
      ensures Valid() && (Value(), lastTick, fired) == CatchUp(old(Value()), old(lastTick), now)
    {
      ghost var goal := CatchUp(Value(), lastTick, now);
      fired := [];
      assert fired + goal.2 == goal.2;
      while now - lastTick >= WHEEL_TICK
        invariant Valid() && lastTick <= now
        invariant CatchUp(Value(), lastTick, now).0 == goal.0 && CatchUp(Value(), lastTick, now).1 == goal.1
        invariant fired + CatchUp(Value(), lastTick, now).2 == goal.2
      {
        ghost var w, last, f := Value(), lastTick, fired;
        cursor := (cursor + 1) % WHEEL_SIZE;
        lastTick := lastTick + WHEEL_TICK;
        fired := fired + slots[cursor];
        slots[cursor] := [];
        assert Value() == Advance(w).0 && fired == f + Advance(w).1;
        ghost var rest := CatchUp(Advance(w).0, last + WHEEL_TICK, now).2;
        assert f + (Advance(w).1 + rest) == fired + rest;
      }
      assert fired + CatchUp(Value(), lastTick, now).2 == fired;
    }
  }
}
