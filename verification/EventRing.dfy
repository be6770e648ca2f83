/**
 The deferred-event queue of a room: a circular array with an overflow rule that gives up two events
 at a time, drained by the emitter thread, which lets go of the mutex while it fires an event.

 Indices are 64-bit and wrap-around of the indices themselves is out of range; their difference is
 taken modulo 2^64 as the code does.
 */
module EventRing {
  import opened Options
  import Ring

  const TWO64: nat := 0x1_0000_0000_0000_0000

  datatype Event = Event(kind: nat, member: nat, data: string)

  // ---------------------------------------------------------------- one room's queue as a value

  // `accepted` are all events ever stored, in order; event i sits in slot i % size. `emitted` are the
  // indices the emitter took; `inFlight` is the one it has copied out but not fired yet.
  datatype Queue = Queue(size: nat, slots: seq<Event>, prod: nat, cons: nat, accepted: seq<Event>,
                         emitted: seq<nat>, fired: seq<Event>, inFlight: Option<Event>,
                         calls: nat, dropped: nat)

  function Empty(size: nat): Queue
  {
    Queue(size, seq(size, _ => Event(0, 0, "")), 0, 0, [], [], [], None, 0, 0)
  }

  // The critical regions of enqueuers and of the emitter, in any order.
  datatype Op = Enqueue(e: Event) | Take | Fire

  predicate Full(q: Queue)
    requires q.size > 0
  {
    (q.prod - q.cons) % TWO64 >= q.size - 1
  }

  function Step(q: Queue, op: Op): Queue
    requires q.size > 0 && |q.slots| == q.size
  {
    match op
    case Enqueue(e) =>
      if Full(q) then
        q.(calls := q.calls + 1, dropped := q.dropped + 1, cons := q.cons + 1)
      else
        q.(calls := q.calls + 1, slots := q.slots[q.prod % q.size := e], prod := q.prod + 1,
           accepted := q.accepted + [e])
    case Take =>
      if q.inFlight.None? && q.cons < q.prod then
        q.(inFlight := Some(q.slots[q.cons % q.size]), emitted := q.emitted + [q.cons], cons := q.cons + 1)
      else q
    case Fire =>
      if q.inFlight.Some? then q.(fired := q.fired + [q.inFlight.value], inFlight := None) else q
  }

  function Run(size: nat, ops: seq<Op>): (q: Queue)
    requires size > 0
    ensures q.size == size && |q.slots| == size
  {
    if ops == [] then Empty(size) else Step(Run(size, ops[..|ops| - 1]), ops[|ops| - 1])
  }

  // What the subscribers have got or are about to get.
  function Delivered(q: Queue): seq<Event>
  {
    q.fired + (if q.inFlight.Some? then [q.inFlight.value] else [])
  }

  ghost predicate Inv(q: Queue)
  {
    && q.size >= 2 && |q.slots| == q.size
    && q.cons <= q.prod == |q.accepted| && q.prod - q.cons <= q.size - 1
    && (forall i {:trigger q.accepted[i]} :: q.cons <= i < q.prod ==> q.slots[i % q.size] == q.accepted[i])
    && |q.emitted| == |Delivered(q)|
    && (forall k {:trigger q.emitted[k]} :: 0 <= k < |q.emitted| ==>
          q.emitted[k] < q.cons && Delivered(q)[k] == q.accepted[q.emitted[k]])
    && (forall j, k {:trigger q.emitted[j], q.emitted[k]} :: 0 <= j < k < |q.emitted| ==> q.emitted[j] < q.emitted[k])
    && q.calls == |q.emitted| + (q.prod - q.cons) + 2 * q.dropped
  }

  lemma SlotsDiffer(i: nat, p: nat, n: nat)
    requires n > 0 && i < p < i + n
    ensures i % n != p % n
  {
    if i % n == p % n { Ring.SameSlot(i, p, n); }
  }

  lemma EnqueueInv(q: Queue, e: Event)
    requires Inv(q) && q.prod < TWO64
    ensures Inv(Step(q, Enqueue(e)))
  {
    var q' := Step(q, Enqueue(e));
    assert (q.prod - q.cons) % TWO64 == q.prod - q.cons;
    if !Full(q) {
      forall i {:trigger q'.accepted[i]} | q'.cons <= i < q'.prod
        ensures q'.slots[i % q'.size] == q'.accepted[i]
      {
        if i < q.prod { SlotsDiffer(i, q.prod, q.size); assert q.accepted[i] == q'.accepted[i]; }
      }
    }
    assert Delivered(q') == Delivered(q);
  }

  lemma TakeInv(q: Queue)
    requires Inv(q)
    ensures Inv(Step(q, Take))
  {
    var q' := Step(q, Take);
    if q.inFlight.None? && q.cons < q.prod {
      assert q.slots[q.cons % q.size] == q.accepted[q.cons];
      assert Delivered(q') == Delivered(q) + [q.accepted[q.cons]];
    }
  }

  lemma FireInv(q: Queue)
    requires Inv(q)
    ensures Inv(Step(q, Fire)) && Delivered(Step(q, Fire)) == Delivered(q)
  {
    assert Delivered(Step(q, Fire)) == Delivered(q);
  }

  // With two or more slots, under any interleaving of enqueuers and the emitter: the fill level stays
  // within 0..size-1, unread slots keep the accepted events, what is delivered is an in-order
  // subsequence of what was accepted, and every call is accounted for. A full queue loses the oldest
  // event and the new one, and counts that once.
  lemma {:induction false} AnyInterleaving(size: nat, ops: seq<Op>)
    requires size >= 2 && |ops| < TWO64
    ensures var q := Run(size, ops);
            Inv(q) && q.prod <= |ops|
  {
    if ops == [] {
    } else {
      var front, op := ops[..|ops| - 1], ops[|ops| - 1];
      AnyInterleaving(size, front);
      var q := Run(size, front);
      match op
      case Enqueue(e) => EnqueueInv(q, e);
      case Take => TakeInv(q);
      case Fire => FireInv(q);
    }
  }

  // ---------------------------------------------------------------- what is accepted, by the calls alone

  // How many events are unread, and whether one is copied out but not fired.
  datatype Level = Level(unread: int, busy: bool)

  function LevelStep(size: nat, l: Level, op: Op): Level
  {
    match op
    case Enqueue(_) => if l.unread < size - 1 then l.(unread := l.unread + 1) else l.(unread := l.unread - 1)
    case Take => if l.unread > 0 && !l.busy then Level(l.unread - 1, true) else l
    case Fire => l.(busy := false)
  }

  function LevelAfter(size: nat, ops: seq<Op>): Level
  {
    if ops == [] then Level(0, false) else LevelStep(size, LevelAfter(size, ops[..|ops| - 1]), ops[|ops| - 1])
  }

  // The call finds room.
  predicate FindsRoom(size: nat, front: seq<Op>) { LevelAfter(size, front).unread < size - 1 }

  // The events of the calls that found room, in order, and how many calls found none.
  function Stored(size: nat, ops: seq<Op>): seq<Event>
  {
    if ops == [] then []
    else
      var front, op := ops[..|ops| - 1], ops[|ops| - 1];
      Stored(size, front) + (if op.Enqueue? && FindsRoom(size, front) then [op.e] else [])
  }

  function Refused(size: nat, ops: seq<Op>): nat
  {
    if ops == [] then 0
    else
      var front, op := ops[..|ops| - 1], ops[|ops| - 1];
      Refused(size, front) + (if op.Enqueue? && !FindsRoom(size, front) then 1 else 0)
  }

  // A call that finds fewer than size - 1 events unread stores exactly its event and gives up nothing;
  // one that finds that many gives up the oldest of them and its own.
  lemma EnqueueExactly(q: Queue, e: Event)
    requires Inv(q) && q.prod < TWO64
    ensures var q' := Step(q, Enqueue(e));
            && q'.inFlight == q.inFlight && q'.fired == q.fired && q'.emitted == q.emitted
            && (if q.prod - q.cons < q.size - 1 then
                  q'.accepted == q.accepted + [e] && q'.prod == q.prod + 1 && q'.cons == q.cons && q'.dropped == q.dropped
                  && q'.slots[q.prod % q.size] == e
                else
                  q'.accepted == q.accepted && q'.prod == q.prod && q'.cons == q.cons + 1 && q'.dropped == q.dropped + 1)
  {
    assert (q.prod - q.cons) % TWO64 == q.prod - q.cons;
  }

  // In every interleaving the accepted events are those of the calls that found room, in order.
  lemma {:induction false} AcceptedExactly(size: nat, ops: seq<Op>)
    requires size >= 2 && |ops| < TWO64
    ensures var q := Run(size, ops);
            && q.accepted == Stored(size, ops) && q.dropped == Refused(size, ops)
            && LevelAfter(size, ops) == Level(q.prod - q.cons, q.inFlight.Some?)
  {
    if ops != [] {
      var front, op := ops[..|ops| - 1], ops[|ops| - 1];
      AcceptedExactly(size, front);
      AnyInterleaving(size, front);
      if op.Enqueue? { EnqueueExactly(Run(size, front), op.e); }
    }
  }

  function Enqueued(ops: seq<Op>): seq<Event>
  {
    if ops == [] then []
    else Enqueued(ops[..|ops| - 1]) + (if ops[|ops| - 1].Enqueue? then [ops[|ops| - 1].e] else [])
  }

  lemma {:induction false} StoredAll(size: nat, ops: seq<Op>)
    ensures |Stored(size, ops)| + Refused(size, ops) == |Enqueued(ops)|
    ensures Refused(size, ops) == 0 ==> Stored(size, ops) == Enqueued(ops)
  {
    if ops != [] { StoredAll(size, ops[..|ops| - 1]); }
  }

  lemma {:induction false} Consumed(size: nat, ops: seq<Op>)
    requires size > 0
    ensures var q := Run(size, ops); q.cons == |q.emitted| + q.dropped
  {
    if ops != [] { Consumed(size, ops[..|ops| - 1]); }
  }

  lemma {:induction false} TakenLow(emitted: seq<nat>, cons: nat, k: nat)
    requires k < |emitted| && forall i :: 0 <= i < |emitted| ==> emitted[i] < cons
    requires forall i, j :: 0 <= i < j < |emitted| ==> emitted[i] < emitted[j]
    ensures emitted[k] <= cons - |emitted| + k
    decreases |emitted| - k
  {
    if k + 1 < |emitted| {
      TakenLow(emitted, cons, k + 1);
      assert emitted[k] < emitted[k + 1];
    }
  }

  lemma {:induction false} TakenHigh(emitted: seq<nat>, k: nat)
    requires k < |emitted| && forall i, j :: 0 <= i < j < |emitted| ==> emitted[i] < emitted[j]
    ensures k <= emitted[k]
  {
    if k > 0 {
      TakenHigh(emitted, k - 1);
      assert emitted[k - 1] < emitted[k];
    }
  }

  // What the emitter took is what was accepted, as far as it got, with no gap, if nothing was given up.
  lemma NoGap(q: Queue)
    requires Inv(q) && q.cons == |q.emitted|
    ensures Delivered(q) == q.accepted[..q.cons]
  {
    var got := Delivered(q);
    forall k | 0 <= k < |got| ensures got[k] == q.accepted[k] {
      TakenLow(q.emitted, q.cons, k);
      TakenHigh(q.emitted, k);
      assert got[k] == q.accepted[q.emitted[k]];
    }
  }

  // A queue loses nothing if and only if no call ever finds it full; then every event is accepted, and
  // delivered in order without a gap.
  lemma NothingDroppedIff(size: nat, ops: seq<Op>)
    requires size >= 2 && |ops| < TWO64
    ensures var q := Run(size, ops);
            && (q.accepted == Enqueued(ops) <==> Refused(size, ops) == 0)
            && (Refused(size, ops) == 0 ==> q.dropped == 0 && |Delivered(q)| == q.cons && Delivered(q) <= Enqueued(ops))
  {
    var q := Run(size, ops);
    AnyInterleaving(size, ops);
    AcceptedExactly(size, ops);
    StoredAll(size, ops);
    Consumed(size, ops);
    if Refused(size, ops) == 0 { NoGap(q); }
  }

  // A one-slot queue counts every call as dropped and never delivers anything.
  lemma {:induction false} OneSlotDropsAll(ops: seq<Op>)
    ensures var q := Run(1, ops);
            q.prod == 0 && q.dropped == q.calls && q.emitted == [] && Delivered(q) == []
  {
    if ops != [] {
      OneSlotDropsAll(ops[..|ops| - 1]);
    }
  }

  // So the queue can deliver an event if and only if it has at least two slots.
  lemma DeliversIffTwoSlots(size: nat)
    requires size > 0
    ensures (exists ops: seq<Op> :: |ops| < TWO64 && Delivered(Run(size, ops)) != []) <==> size >= 2
  {
    if size == 1 {
      forall ops: seq<Op> ensures Delivered(Run(size, ops)) == [] { OneSlotDropsAll(ops); }
    } else {
      var e := Event(1, 1, "");
      var ops := [Enqueue(e), Take];
      assert ops[..1] == [Enqueue(e)] && ops[..1][..0] == [];
      var q0 := Run(size, []);
      assert Run(size, ops[..1]) == Step(q0, Enqueue(e));
      assert 0 % TWO64 == 0;
      assert Run(size, ops) == Step(Step(q0, Enqueue(e)), Take);
      assert Delivered(Run(size, ops)) == [e];
    }
  }

  // ---------------------------------------------------------------- the circular array

  class EventQueue {
    var ring: array<Event>
    var prodIdx: nat
    var consIdx: nat
    var statDropped: nat
    var destroyed: bool
    var bus: seq<Event> // what was fired
    ghost var view: Queue

    ghost predicate Valid()
      reads this, ring
    {
      && ring.Length > 0 && bus == view.fired
      && view.size == ring.Length && view.slots == ring[..]
      && view.prod == prodIdx && view.cons == consIdx && view.dropped == statDropped
    }

    constructor (size: nat)
      requires size > 0
      ensures Valid() && fresh(ring) && !destroyed && view == Empty(size)
    {
      ring := new Event[size](_ => Event(0, 0, ""));
      prodIdx, consIdx, statDropped, destroyed, bus := 0, 0, 0, false, [];
      view := Empty(size);
    }

    // Called by any thread; one critical region under event_mutex.
    method EnqueueEvent(e: Event)
      requires Valid()
      modifies this, ring
      ensures Valid() && ring == old(ring) && destroyed == old(destroyed) && bus == old(bus)
      ensures view == if old(destroyed) then old(view) else Step(old(view), Enqueue(e))
    {
      if destroyed {
        return;
      }
      var sz := ring.Length;
      view := Step(view, Enqueue(e));
      if (prodIdx - consIdx) % TWO64 >= sz - 1 {
        statDropped := statDropped + 1;
        consIdx := consIdx + 1;
        return;
      }
      ring[prodIdx % sz] := e;
      prodIdx := prodIdx + 1;
    }

    // The emitter's critical region: copy the oldest event out, if there is one.
    method TakeEvent() returns (e: Option<Event>)
      requires Valid() && view.inFlight.None?
      modifies this`consIdx, this`view
      ensures Valid() && view == Step(old(view), Take)
      ensures e == view.inFlight
    {
      if consIdx < prodIdx {
        e := Some(ring[consIdx % ring.Length]);
        view := Step(view, Take);
        consIdx := consIdx + 1;
      } else {
        e := None;
        view := Step(view, Take);
      }
    }

    // Firing the event copied out, with the mutex let go.
    method FireEvent(e: Event)
      requires Valid() && view.inFlight == Some(e)
      modifies this`bus, this`view
      ensures Valid() && view == Step(old(view), Fire) && bus == old(bus) + [e]
    {
      bus := bus + [e];
      view := Step(view, Fire);
    }

    // The emitter's loop over one room, with no enqueuer coming in between: it fires everything queued,
    // in order, and leaves the queue empty. AnyInterleaving has the enqueuers.
    method Drain()
      requires Valid() && Inv(view) && view.inFlight.None?
      modifies this`consIdx, this`bus, this`view
      ensures Valid() && Inv(view) && view.inFlight.None? && consIdx == prodIdx
      ensures bus == old(bus) + old(view).accepted[old(consIdx)..]
      ensures view.accepted == old(view).accepted && view.dropped == old(view).dropped
    {
      ghost var q := view;
      while consIdx < prodIdx
        invariant Valid() && Inv(view) && view.inFlight.None?
        invariant q.cons <= consIdx && prodIdx == q.prod
        invariant view.accepted == q.accepted && view.dropped == q.dropped
        invariant bus == old(bus) + q.accepted[q.cons..consIdx]
        decreases prodIdx - consIdx
      {
        FireNext();
      }
    }

    // One turn of that loop.
    method FireNext()
      requires Valid() && Inv(view) && view.inFlight.None? && consIdx < prodIdx
      modifies this`consIdx, this`bus, this`view
      ensures Valid() && Inv(view) && view.inFlight.None? && consIdx == old(consIdx) + 1
      ensures bus == old(bus) + [old(view).accepted[old(consIdx)]]
      ensures view.accepted == old(view).accepted && view.dropped == old(view).dropped
    {
      TakeInv(view);
      assert view.slots[view.cons % view.size] == view.accepted[view.cons];
      var e := TakeEvent();
      FireInv(view);
      FireEvent(e.value);
    }
  }
}
