/**
 Whole runs of TornRead.dfy: the log is what the producer was given, the cursor follows the ticks that
 end, and while the producer is idle the single loads of a tick come to what Ring.dfy says of a tick in
 one piece.
 */
module TornTicks {
  import opened Ring
  import opened TornRead

  // The frames a schedule gives the producer, in order.
  function Given(acts: seq<Action>): seq<Frame>
    decreases |acts|
  {
    if acts == [] then [] else (if acts[0].Begin? then [acts[0].f] else []) + Given(acts[1..])
  }

  // The frame the producer is at, if it is at one.
  function AtHand(p: Producer): seq<Frame> { if p.Ready? then [] else [p.f] }

  lemma StepLog(c: Config, s: State, a: Action)
    requires Enabled(c, s, a)
    ensures var s' := Apply(c, s, a);
            s'.log + AtHand(s'.prod) == s.log + AtHand(s.prod) + (if a.Begin? then [a.f] else [])
  {
  }

  // In every interleaving the log is the frames the producer was given, in order, but for the one it
  // has not finished.
  lemma {:induction false} LogIsGiven(c: Config, s: State, acts: seq<Action>)
    requires Legal(c, s, acts)
    ensures var t := Exec(c, s, acts);
            t.log + AtHand(t.prod) == s.log + AtHand(s.prod) + Given(acts)
    decreases |acts|
  {
    if acts == [] {
      assert Given(acts) == [];
    } else {
      StepLog(c, s, acts[0]);
      LogIsGiven(c, Apply(c, s, acts[0]), acts[1..]);
      var now: seq<Frame> := if acts[0].Begin? then [acts[0].f] else [];
      assert s.log + AtHand(s.prod) + (now + Given(acts[1..])) == s.log + AtHand(s.prod) + now + Given(acts[1..]);
    }
  }

  // A tick that came to its end: the producer_seq it loaded, the number it asked for, what it got.
  datatype TickEnd = TickEnd(p0: nat, number: nat, result: Result)

  // The tick that ends with the action, if any.
  function Ended(s: State, a: Action): seq<TickEnd>
  {
    if a.Load? && s.rd.Finished? then [TickEnd(s.rd.p0, s.rd.cur, s.rd.result)] else []
  }

  // The ticks that end in a schedule, in order.
  function Ticks(c: Config, s: State, acts: seq<Action>): seq<TickEnd>
    requires Legal(c, s, acts)
    decreases |acts|
  {
    if acts == [] then [] else Ended(s, acts[0]) + Ticks(c, Apply(c, s, acts[0]), acts[1..])
  }

  // ---------------------------------------------------------------- the cursor

  // A tick asks for a number from its cursor on, below the producer_seq it loaded.
  predicate CursorInv(s: State) { s.rd.LoadSeq? || s.cursor <= s.rd.cur < s.rd.p0 }

  // The numbers strictly rise from `from` on, each below the producer_seq its tick loaded, and the last
  // tick leaves the cursor one past the number it played, or where the producer was when it found a
  // stale slot.
  predicate Rising(ends: seq<TickEnd>, from: nat, cursor: nat)
  {
    && from <= cursor
    && (forall i :: 0 <= i < |ends| ==> from <= ends[i].number < ends[i].p0 && ends[i].number < cursor)
    && (forall i, j :: 0 <= i < j < |ends| ==> ends[i].number < ends[j].number)
    && (if ends == [] then cursor == from
        else
          var last := ends[|ends| - 1];
          cursor == if last.result.Stale? then last.p0 else last.number + 1)
  }

  lemma RisingOn(a: seq<TickEnd>, b: seq<TickEnd>, from: nat, mid: nat, cursor: nat)
    requires Rising(a, from, mid) && Rising(b, mid, cursor)
    ensures Rising(a + b, from, cursor)
  {
  }

  lemma StepCursor(c: Config, s: State, a: Action)
    requires CursorInv(s) && Enabled(c, s, a) && !a.Join?
    ensures CursorInv(Apply(c, s, a)) && Rising(Ended(s, a), s.cursor, Apply(c, s, a).cursor)
  {
  }

  // In every interleaving: the numbers of the ticks that end strictly rise from the listener's cursor
  // on, and the cursor stands where the last of them left it.
  lemma {:induction false} TicksRise(c: Config, s: State, acts: seq<Action>)
    requires CursorInv(s) && Legal(c, s, acts) && forall i :: 0 <= i < |acts| ==> !acts[i].Join?
    ensures CursorInv(Exec(c, s, acts)) && Rising(Ticks(c, s, acts), s.cursor, Exec(c, s, acts).cursor)
    decreases |acts|
  {
    if acts != [] {
      var s' := Apply(c, s, acts[0]);
      StepCursor(c, s, acts[0]);
      TicksRise(c, s', acts[1..]);
      RisingOn(Ended(s, acts[0]), Ticks(c, s', acts[1..]), s.cursor, s'.cursor, Exec(c, s, acts).cursor);
    }
  }

  // So a listener that joins, rewound or not, asks for numbers from where it joined on.
  lemma TicksFromJoin(c: Config, s: State, at: nat, acts: seq<Action>)
    requires Legal(c, s, [Join(at)] + acts) && forall i :: 0 <= i < |acts| ==> !acts[i].Join?
    ensures Rising(Ticks(c, s, [Join(at)] + acts), at, Exec(c, s, [Join(at)] + acts).cursor)
  {
    assert ([Join(at)] + acts)[1..] == acts;
    TicksRise(c, Apply(c, s, Join(at)), acts);
  }

  // ---------------------------------------------------------------- a tick with the producer idle

  // The listener alone moves, and it is in the middle of one tick until the last of the actions.
  predicate WithinTick(c: Config, s: State, acts: seq<Action>)
    requires Legal(c, s, acts)
    decreases |acts|
  {
    acts == [] ||
    (&& (acts[0].Load? || acts[0].LoadByte?)
     && (|acts| > 1 ==> !Apply(c, s, acts[0]).rd.LoadSeq?)
     && WithinTick(c, Apply(c, s, acts[0]), acts[1..]))
  }

  // The number the tick asks for.
  function Asked(c: Config, s: State): nat
    requires s.cursor < s.pseq
  {
    if s.pseq - s.cursor > c.maxLag then s.pseq - 1 else s.cursor
  }

  // x is s in the middle of its tick: right as far as it got, if the slot still has the frame.
  ghost predicate Amid(c: Config, s: State, x: State)
  {
    && s.cursor < s.pseq == |s.log| && x == s.(rd := x.rd) && !x.rd.LoadSeq?
    && x.rd.p0 == s.pseq && x.rd.cur == Asked(c, s)
    && (if s.pseq - Asked(c, s) <= c.ringSize then ReadRight(c, x.rd, s.log[Asked(c, s)])
        else x.rd.LoadNumber? || (x.rd.Finished? && x.rd.result == Stale))
    && (x.rd.LoadData? || x.rd.LoadLenAgain? || x.rd.LoadSamples? ==> |x.rd.buf| == MAX_FRAME_BYTES)
  }

  // The slot test, while the producer is idle.
  lemma IdleSlot(c: Config, s: State, i: nat)
    requires RingInv(c, s) && s.prod.Ready? && i < s.pseq
    ensures if s.pseq - i <= c.ringSize then Carries(c, s.ring[i % c.ringSize], i, s.log[i]) && Shaped(c, s.log[i])
            else s.ring[i % c.ringSize].number != i
  {
    if s.pseq - i <= c.ringSize {
      assert Intact(c, s, i);
    } else {
      var j := NewestInSlot(i, s.pseq, c.ringSize);
      assert Intact(c, s, j);
    }
  }

  lemma AmidStep(c: Config, s: State, x: State, a: Action)
    requires RingInv(c, s) && s.prod.Ready? && Amid(c, s, x) && !x.rd.Finished?
    requires Enabled(c, x, a) && (a.Load? || a.LoadByte?)
    ensures Amid(c, s, Apply(c, x, a))
  {
    IdleSlot(c, s, Asked(c, s));
  }

  lemma {:induction false} RestOfTick(c: Config, s: State, x: State, acts: seq<Action>)
    requires RingInv(c, s) && s.prod.Ready? && Amid(c, s, x)
    requires Legal(c, x, acts) && WithinTick(c, x, acts) && Exec(c, x, acts).rd.LoadSeq?
    ensures var i := Asked(c, s);
            var right := if s.pseq - i <= c.ringSize then Played(s.log[i].data, s.log[i].samples) else Stale;
            && Ticks(c, x, acts) == [TickEnd(s.pseq, i, right)]
            && Exec(c, x, acts) == s.(rd := LoadSeq, cursor := if right.Stale? then s.pseq else i + 1)
    decreases |acts|
  {
    var x' := Apply(c, x, acts[0]);
    if x.rd.Finished? {
      assert x'.rd.LoadSeq? && |acts| == 1;
      assert acts[1..] == [] && Exec(c, x', acts[1..]) == x' && Ticks(c, x', acts[1..]) == [];
    } else {
      AmidStep(c, s, x, acts[0]);
      RestOfTick(c, s, x', acts[1..]);
    }
  }

  // With the producer idle from the load of producer_seq to the end of the tick, the loads have the
  // outcomes of Ring.TickByLag: nothing when the listener has caught up; the frame at the cursor; stale,
  // when the profile allows more lag than the ring has slots; or the newest frame, after a snap.
  lemma IdleTick(c: Config, s: State, acts: seq<Action>)
    requires RingInv(c, s) && s.rd.LoadSeq? && s.prod.Ready? && s.cursor <= s.pseq
    requires acts != [] && Legal(c, s, acts) && WithinTick(c, s, acts) && Exec(c, s, acts).rd.LoadSeq?
    ensures var (lag, t, ends) := (s.pseq - s.cursor, Exec(c, s, acts), Ticks(c, s, acts));
            && t == s.(cursor := t.cursor)
            && (lag == 0 ==> t.cursor == s.cursor && ends == [])
            && (0 < lag <= c.maxLag && lag <= c.ringSize ==>
                  t.cursor == s.cursor + 1
                  && ends == [TickEnd(s.pseq, s.cursor, Played(s.log[s.cursor].data, s.log[s.cursor].samples))])
            && (c.ringSize < lag <= c.maxLag ==> t.cursor == s.pseq && ends == [TickEnd(s.pseq, s.cursor, Stale)])
            && (lag > c.maxLag ==>
                  t.cursor == s.pseq
                  && ends == [TickEnd(s.pseq, s.pseq - 1, Played(s.log[s.pseq - 1].data, s.log[s.pseq - 1].samples))])
  {
    var x := Apply(c, s, acts[0]);
    if s.cursor == s.pseq {
      assert x.rd.LoadSeq? && |acts| == 1;
      assert acts[1..] == [] && Exec(c, x, acts[1..]) == x && Ticks(c, x, acts[1..]) == [];
    } else {
      assert Amid(c, s, x);
      RestOfTick(c, s, x, acts[1..]);
      assert Ticks(c, s, acts) == Ticks(c, x, acts[1..]);
    }
  }

  // ---------------------------------------------------------------- a tick comes to its end

  lemma AllIndices(done: set<nat>, n: nat)
    requires forall i :: i in done ==> i < n
    ensures (forall i: nat :: i < n ==> i in done) ==> done == Indices(n)
  {
  }

  lemma MissingIndex(done: set<nat>, n: nat) returns (k: nat)
    requires done != Indices(n) && forall i :: i in done ==> i < n
    ensures k < n && k !in done
  {
    AllIndices(done, n);
    k :| k < n && k !in done;
  }

  lemma {:induction false} CountIndices(done: set<nat>, n: nat)
    requires forall k :: k in done ==> k < n
    ensures |done| <= n
  {
    if n > 0 {
      CountIndices(done - {n - 1}, n - 1);
      assert |done| <= |done - {n - 1}| + 1 by { assert done <= (done - {n - 1}) + {n - 1}; Smaller(done, (done - {n - 1}) + {n - 1}); }
    } else {
      assert done == {};
    }
  }

  lemma {:induction false} Smaller(a: set<nat>, b: set<nat>)
    requires a <= b
    ensures |a| <= |b|
  {
    assert b == a + (b - a);
  }

  // What is left to do of a tick.
  function TickWork(rd: Reader): int
  {
    match rd
    case LoadSeq => 0
    case LoadNumber(_, _) => MAX_FRAME_BYTES + 6
    case LoadLen(_, _) => MAX_FRAME_BYTES + 5
    case LoadData(_, _, len, _, done) => 4 + len - |done|
    case LoadLenAgain(_, _, _) => 3
    case LoadSamples(_, _, _, _) => 2
    case Finished(_, _, _, _) => 1
  }

  // The copy of a slot stays within it, in the middle of a tick and with the producer idle.
  ghost predicate CopyFits(rd: Reader)
  {
    rd.LoadData? ==> rd.len <= MAX_FRAME_BYTES && |rd.buf| == MAX_FRAME_BYTES && forall k :: k in rd.done ==> k < rd.len
  }

  // As long as the tick is not over the listener has a next load, and each leaves less to do: every tick
  // comes to its end.
  lemma TickGoesOn(c: Config, s: State, x: State) returns (a: Action)
    requires RingInv(c, s) && s.prod.Ready? && Amid(c, s, x) && CopyFits(x.rd)
    ensures (a.Load? || a.LoadByte?) && Enabled(c, x, a)
    ensures var x' := Apply(c, x, a);
            CopyFits(x'.rd) && 0 <= TickWork(x'.rd) < TickWork(x.rd)
  {
    IdleSlot(c, s, Asked(c, s));
    if x.rd.LoadData? && x.rd.done != Indices(x.rd.len) {
      var k := MissingIndex(x.rd.done, x.rd.len);
      a := LoadByte(k);
      CountIndices(x.rd.done + {k}, x.rd.len);
    } else {
      a := Load;
      if x.rd.LoadData? { CountIndices(x.rd.done, x.rd.len); }
    }
  }
}
