/**
 A recording consumer: it drains the ring without ever snapping forward. This module is the
 specification of one wake-up pass and of whole runs; RoomRing.dfy has the loop itself.
 */
module Recorder {
  import opened Ring

  // What a pass writes while its cursor moves from `from` to `upto`: the slots that still carry the
  // number asked for.
  function Drain(slots: seq<Slot>, from: nat, upto: nat): seq<Numbered>
    requires |slots| > 0
    decreases upto
  {
    if upto <= from then []
    else
      var slot := slots[(upto - 1) % |slots|];
      Drain(slots, from, upto - 1) + (if slot.number == upto - 1 then [(upto - 1, slot.frame)] else [])
  }

  function Max(a: int, b: int): int { if a < b then b else a }

  // The oldest frame a pass can still get: its own cursor, or the oldest one left in the ring.
  function Oldest(log: seq<Frame>, ringSize: nat, cursor: nat): nat
  {
    Max(cursor, |log| - ringSize)
  }

  lemma DrainStep(slots: seq<Slot>, log: seq<Frame>, from: nat, c: nat)
    requires Holds(slots, log) && from <= c < |log|
    ensures Drain(slots, from, c + 1) == Drain(slots, from, c) + (if |log| - c <= |slots| then [(c, log[c])] else [])
  {
    SlotStillHolds(slots, log, c);
  }

  // The same told by the log alone.
  function LogDrain(log: seq<Frame>, ringSize: nat, from: nat, upto: nat): seq<Numbered>
    requires upto <= |log|
    decreases upto
  {
    if upto <= from then []
    else
      LogDrain(log, ringSize, from, upto - 1) + (if |log| - upto < ringSize then [(upto - 1, log[upto - 1])] else [])
  }

  lemma {:induction false} DrainIsLogDrain(slots: seq<Slot>, log: seq<Frame>, from: nat, upto: nat)
    requires Holds(slots, log) && upto <= |log|
    ensures Drain(slots, from, upto) == LogDrain(log, |slots|, from, upto)
    decreases upto
  {
    if upto > from {
      DrainIsLogDrain(slots, log, from, upto - 1);
      DrainStep(slots, log, from, upto - 1);
    }
  }

  lemma {:induction false} LogDrainIsTail(log: seq<Frame>, ringSize: nat, from: nat, upto: nat)
    requires upto <= |log|
    ensures var oldest := Oldest(log, ringSize, from);
            LogDrain(log, ringSize, from, upto) == if upto <= oldest then [] else Numbering(log, oldest, upto)
    decreases upto
  {
    if upto > from {
      LogDrainIsTail(log, ringSize, from, upto - 1);
      var oldest, before := Oldest(log, ringSize, from), LogDrain(log, ringSize, from, upto - 1);
      if oldest >= upto {
        assert before == [] && |log| - upto >= ringSize;
      } else {
        NumberingSnoc(log, oldest, upto - 1);
        assert before == Numbering(log, oldest, upto - 1) && |log| - upto < ringSize;
      }
    }
  }

  // A pass writes exactly the published frames from max(cursor, P - ringSize) on, in order. Cut
  // short at `upto` (recording stopped, or a write failed) it writes the same frames up to there.
  lemma DrainIsLogTail(slots: seq<Slot>, log: seq<Frame>, from: nat, upto: nat)
    requires Holds(slots, log) && upto <= |log|
    ensures var oldest := Oldest(log, |slots|, from);
            Drain(slots, from, upto) == if upto <= oldest then [] else Numbering(log, oldest, upto)
  {
    DrainIsLogDrain(slots, log, from, upto);
    LogDrainIsTail(log, |slots|, from, upto);
  }

  // ---------------------------------------------------------------- whole runs

  // A recorder beside the producer; Tick is a wake-up, with the producer idle during it. TornRecording.dfy
  // has the same pass load by load, with the producer running.
  datatype Writer = Writer(slots: seq<Slot>, log: seq<Frame>, cursor: nat, file: seq<Numbered>)

  function RecStep(w: Writer, e: Event): Writer
    requires |w.slots| > 0
  {
    match e
    case Publish(f) => w.(slots := PublishSlots(w.slots, |w.log|, f), log := w.log + [f])
    case Tick => w.(cursor := Max(w.cursor, |w.log|), file := w.file + Drain(w.slots, w.cursor, |w.log|))
  }

  function RecRun(w: Writer, es: seq<Event>): (r: Writer)
    requires |w.slots| > 0
    ensures |r.slots| == |w.slots|
  {
    if es == [] then w else RecStep(RecRun(w, es[..|es| - 1]), es[|es| - 1])
  }

  // Beside a recorder too the log is what was published, in order.
  lemma {:induction false} RecLogIsPublished(w: Writer, es: seq<Event>)
    requires |w.slots| > 0
    ensures RecRun(w, es).log == w.log + Frames(es)
  {
    if es == [] {
      assert w.log + [] == w.log;
    } else {
      var front, last := es[..|es| - 1], es[|es| - 1];
      RecLogIsPublished(w, front);
      assert (w.log + Frames(front)) + (if last.Publish? then [last.frame] else []) == w.log + Frames(es);
    }
  }

  ghost predicate Started(w: Writer, start: nat)
  {
    Holds(w.slots, w.log) && w.cursor == start == |w.log| && w.file == []
  }

  ghost predicate RecInv(w: Writer, start: nat)
  {
    && Holds(w.slots, w.log)
    && start <= w.cursor <= |w.log|
    && PlayedFromLog(w.file, w.log, start, w.cursor)
    && |w.file| <= w.cursor - start
  }

  lemma AppendTail(file: seq<Numbered>, log: seq<Frame>, start: nat, cursor: nat, lo: nat, hi: nat)
    requires PlayedFromLog(file, log, start, cursor) && start <= cursor <= lo <= hi <= |log|
    ensures PlayedFromLog(file + Numbering(log, lo, hi), log, start, hi)
  {
    var tail := Numbering(log, lo, hi);
    forall k | 0 <= k < |file + tail|
      ensures start <= (file + tail)[k].0 < hi && (file + tail)[k].1 == log[(file + tail)[k].0]
      ensures k < |file| ==> (file + tail)[k].0 < cursor
      ensures k >= |file| ==> (file + tail)[k].0 == lo + (k - |file|)
    {
      if k < |file| {
        assert (file + tail)[k] == file[k];
      } else {
        assert (file + tail)[k] == tail[k - |file|];
      }
    }
    forall j, k | 0 <= j < k < |file + tail|
      ensures (file + tail)[j].0 < (file + tail)[k].0
    {
      if k < |file| {
        assert (file + tail)[j] == file[j] && (file + tail)[k] == file[k];
      }
    }
  }

  lemma RecStepInv(w: Writer, start: nat, e: Event)
    requires RecInv(w, start)
    ensures var w' := RecStep(w, e);
            && RecInv(w', start)
            && (e.Publish? ==> w'.cursor - |w'.file| == w.cursor - |w.file|)
            && (e.Tick? ==> w'.cursor == |w.log|)
            && (e.Tick? ==>
                  w'.cursor - |w'.file| == w.cursor - |w.file| + Max(0, |w.log| - w.cursor - |w.slots|))
  {
    match e
    case Publish(f) =>
      PublishHolds(w.slots, w.log, f);
    case Tick =>
      DrainIsLogTail(w.slots, w.log, w.cursor, |w.log|);
      var oldest := Oldest(w.log, |w.slots|, w.cursor);
      if oldest < |w.log| {
        AppendTail(w.file, w.log, start, w.cursor, oldest, |w.log|);
      } else {
        assert w.file + [] == w.file;
      }
  }

  function Behind(w: Writer): int { |w.log| - w.cursor }

  // Every wake-up of the schedule comes within |slots| publishes of the cursor.
  ghost predicate WokenInTime(w: Writer, es: seq<Event>)
    requires |w.slots| > 0
  {
    es == [] ||
    var front := es[..|es| - 1];
    WokenInTime(w, front) && (es[|es| - 1].Tick? ==> Behind(RecRun(w, front)) <= |w.slots|)
  }

  lemma {:induction false} LostIffLate(w: Writer, start: nat, es: seq<Event>)
    requires Started(w, start)
    ensures var r := RecRun(w, es);
            && RecInv(r, start)
            && (WokenInTime(w, es) <==> |r.file| == r.cursor - start)
  {
    if es == [] {
    } else {
      var front := es[..|es| - 1];
      LostIffLate(w, start, front);
      RecStepInv(RecRun(w, front), start, es[|es| - 1]);
    }
  }

  // Over a whole run the file is a strictly rising subsequence of the log from the start cursor, and
  // it is the full log up to the cursor if and only if every wake-up came in time.
  lemma FileIsLogIffInTime(w: Writer, start: nat, es: seq<Event>)
    requires Started(w, start)
    ensures var r := RecRun(w, es);
            && start <= r.cursor <= |r.log|
            && PlayedFromLog(r.file, r.log, start, r.cursor)
            && (WokenInTime(w, es) <==> r.file == Numbering(r.log, start, r.cursor))
  {
    LostIffLate(w, start, es);
    var r := RecRun(w, es);
    if |r.file| == r.cursor - start {
      DenseIsNumbering(r.file, r.log, start, r.cursor);
    }
  }
}
