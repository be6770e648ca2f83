/**
 The ring of published frames and what one listener reads from it, in whole ticks.

 The reference object is the log: the unbounded sequence of every frame ever published, in order.
 The ring only keeps the last `|slots|` of them. Everything a listener or a recorder does is
 compared with the log.
 */
module Ring {

  newtype byte = x: int | 0 <= x < 256

  const MAX_FRAME_BYTES: nat := 1920
  const DEFAULT_RING_SIZE: nat := 50
  const DEFAULT_MAX_LAG: nat := 10

  datatype Frame = Frame(data: seq<byte>, samples: nat, silence: bool)

  // `number` is the field called seq in the source.
  datatype Slot = Slot(number: nat, frame: Frame)

  // A frame together with the number it was published under.
  type Numbered = (nat, Frame)

  function Zeros(n: nat): (s: seq<byte>)
    ensures |s| == n && forall i :: 0 <= i < n ==> s[i] == 0
  {
    seq(n, _ => 0)
  }

  // ---------------------------------------------------------------- arithmetic of a circular index

  lemma MultipleBound(d: int, n: nat)
    ensures d >= 1 ==> d * n >= n
    ensures d <= -1 ==> d * n + n <= 0
  {
  }

  // Two numbers fewer than n apart that fall into the same slot are the same number.
  lemma SameSlot(a: nat, b: nat, n: nat)
    requires n > 0 && a % n == b % n && a <= b < a + n
    ensures a == b
  {
    var qa, qb := a / n, b / n;
    assert a == qa * n + a % n && b == qb * n + b % n;
    assert b - a == (qb - qa) * n;
    MultipleBound(qb - qa, n);
  }

  // A number at least n behind the newest shares its slot with exactly one of the last n.
  lemma NewestInSlot(c: nat, top: nat, n: nat) returns (i: nat)
    requires n > 0 && c + n <= top
    ensures top - n <= i < top && i % n == c % n
    decreases top - c
  {
    if c + n + n <= top {
      assert (c + n) % n == c % n by { ShiftSlot(c, n); }
      i := NewestInSlot(c + n, top, n);
    } else if top - n <= c {
      i := c;
    } else {
      ShiftSlot(c, n);
      i := c + n;
    }
  }

  lemma ShiftSlot(c: nat, n: nat)
    requires n > 0
    ensures (c + n) % n == c % n
  {
    var q := c / n;
    assert c == q * n + c % n;
    assert c + n == (q + 1) * n + c % n;
    UniqueQuotient(q + 1, c % n, n);
  }

  lemma UniqueQuotient(q: nat, r: nat, n: nat)
    requires r < n
    ensures (q * n + r) % n == r
  {
    var x := q * n + r;
    assert x == (x / n) * n + x % n;
    var d := q - x / n;
    assert d * n == x % n - r;
    MultipleBound(d, n);
  }

  // ---------------------------------------------------------------- ring against log

  // The ring holds the end of the log: each of the last |slots| published frames sits in its slot
  // under its own number. A slot that was never written still carries the number zero.
  ghost predicate Holds(slots: seq<Slot>, log: seq<Frame>)
  {
    && |slots| > 0
    && (forall i {:trigger log[i]} :: 0 <= i < |log| && |log| - i <= |slots| ==>
          slots[i % |slots|] == Slot(i, log[i]))
    && (forall j {:trigger slots[j]} :: |log| <= j < |slots| ==> slots[j].number == 0)
  }

  function PublishSlots(slots: seq<Slot>, number: nat, f: Frame): seq<Slot>
    requires |slots| > 0
  {
    slots[number % |slots| := Slot(number, f)]
  }

  lemma PublishedSlot(slots: seq<Slot>, log: seq<Frame>, f: Frame, i: nat)
    requires Holds(slots, log) && i <= |log| && |log| + 1 - i <= |slots|
    ensures PublishSlots(slots, |log|, f)[i % |slots|] == Slot(i, (log + [f])[i])
  {
    if i < |log| {
      assert slots[i % |slots|] == Slot(i, log[i]);
      if i % |slots| == |log| % |slots| { SameSlot(i, |log|, |slots|); }
    }
  }

  lemma UnwrittenSlot(slots: seq<Slot>, log: seq<Frame>, f: Frame, j: nat)
    requires Holds(slots, log) && |log| + 1 <= j < |slots|
    ensures PublishSlots(slots, |log|, f)[j].number == 0
  {
    assert |log| % |slots| == |log|;
    assert slots[j].number == 0;
  }

  lemma PublishHolds(slots: seq<Slot>, log: seq<Frame>, f: Frame)
    requires Holds(slots, log)
    ensures Holds(PublishSlots(slots, |log|, f), log + [f])
  {
    var slots', log' := PublishSlots(slots, |log|, f), log + [f];
    forall i {:trigger log'[i]} | 0 <= i < |log'| && |log'| - i <= |slots'|
      ensures slots'[i % |slots'|] == Slot(i, log'[i])
    {
      PublishedSlot(slots, log, f, i);
    }
    forall j {:trigger slots'[j]} | |log'| <= j < |slots'|
      ensures slots'[j].number == 0
    {
      UnwrittenSlot(slots, log, f, j);
    }
  }

  // The stale-slot test of the listener is exact: a slot still carries number c precisely when at
  // most |slots| frames have been published from c on.
  lemma SlotStillHolds(slots: seq<Slot>, log: seq<Frame>, c: nat)
    requires Holds(slots, log) && c < |log|
    ensures slots[c % |slots|].number == c <==> |log| - c <= |slots|
    ensures |log| - c <= |slots| ==> slots[c % |slots|].frame == log[c]
  {
    var n, p := |slots|, |log|;
    if p - c <= n {
      assert slots[c % n] == Slot(c, log[c]);
    } else {
      var i := NewestInSlot(c, p, n);
      assert slots[i % n] == Slot(i, log[i]);
    }
  }

  // ---------------------------------------------------------------- where a listener starts

  // Start cursor of a listener that joins when p frames have been published.
  function JoinCursor(p: nat, preBufferMs: nat, intervalMs: nat, ringSize: nat): nat
  {
    if preBufferMs != 0 && preBufferMs < intervalMs * ringSize then
      var back := preBufferMs / intervalMs;
      if p > back then p - back else p
    else
      p
  }

  lemma PreBufferFits(preBufferMs: nat, intervalMs: nat, ringSize: nat)
    requires preBufferMs < intervalMs * ringSize
    ensures intervalMs > 0 && preBufferMs / intervalMs <= ringSize - 1
  {
    if intervalMs > 0 {
      var q := preBufferMs / intervalMs;
      assert preBufferMs == q * intervalMs + preBufferMs % intervalMs;
      MultipleBound(q - ringSize + 1, intervalMs);
      assert (q - ringSize + 1) * intervalMs == q * intervalMs - ringSize * intervalMs + intervalMs;
    }
  }

  // For every profile the start cursor lies in [p - (ringSize - 1), p], so the frame it names is
  // still in the ring.
  lemma JoinCursorLive(slots: seq<Slot>, log: seq<Frame>, preBufferMs: nat, intervalMs: nat)
    requires Holds(slots, log)
    ensures var c := JoinCursor(|log|, preBufferMs, intervalMs, |slots|);
            && c <= |log| && |log| - c <= |slots| - 1
            && (c < |log| ==> slots[c % |slots|] == Slot(c, log[c]))
  {
    if preBufferMs != 0 && preBufferMs < intervalMs * |slots| {
      PreBufferFits(preBufferMs, intervalMs, |slots|);
    }
    var c := JoinCursor(|log|, preBufferMs, intervalMs, |slots|);
    if c < |log| {
      SlotStillHolds(slots, log, c);
    }
  }

  // The profile asks for a rewind that fits the ring, and that many frames are there.
  predicate Rewinds(p: nat, preBufferMs: nat, intervalMs: nat, ringSize: nat)
  {
    0 < preBufferMs < intervalMs * ringSize && intervalMs <= preBufferMs && preBufferMs / intervalMs < p
  }

  // A listener starts at the producer's number, or that many intervals before it as the pre-buffer
  // holds; a pre-buffer that does not fit the ring, or reaches back to the first frame, is ignored.
  lemma JoinCursorExactly(p: nat, preBufferMs: nat, intervalMs: nat, ringSize: nat)
    ensures var c := JoinCursor(p, preBufferMs, intervalMs, ringSize);
            if Rewinds(p, preBufferMs, intervalMs, ringSize) then
              c < p && (p - c) * intervalMs <= preBufferMs < (p - c + 1) * intervalMs
            else c == p
  {
    if 0 < preBufferMs < intervalMs * ringSize {
      PreBufferFits(preBufferMs, intervalMs, ringSize);
      WholeIntervals(preBufferMs, intervalMs);
    }
  }

  lemma WholeIntervals(ms: nat, intervalMs: nat)
    requires intervalMs > 0
    ensures var n := ms / intervalMs; n * intervalMs <= ms < (n + 1) * intervalMs
    ensures ms / intervalMs == 0 <==> ms < intervalMs
  {
    var n := ms / intervalMs;
    assert ms == n * intervalMs + ms % intervalMs;
    MultipleBound(n, intervalMs);
  }

  // ---------------------------------------------------------------- one listener tick

  datatype Heard = Audio(number: nat, frame: Frame) | Quiet

  datatype Listener = Listener(cursor: nat, resyncs: nat)

  // What a tick does with the cursor and what it writes out, given the loaded producer_seq.
  function ListenerTick(slots: seq<Slot>, pseq: nat, maxLag: nat, l: Listener): (Listener, Heard)
    requires |slots| > 0
  {
    if l.cursor < pseq then
      var snap := pseq - l.cursor > maxLag;
      var c := if snap then pseq - 1 else l.cursor;
      var resyncs := if snap then l.resyncs + 1 else l.resyncs;
      var slot := slots[c % |slots|];
      if slot.number == c then
        (Listener(c + 1, resyncs), Audio(c, slot.frame))
      else
        (Listener(pseq, resyncs), Quiet)
    else
      (l, Quiet)
  }

  // The four outcomes of a tick, told by the lag alone.
  lemma TickByLag(slots: seq<Slot>, log: seq<Frame>, maxLag: nat, l: Listener)
    requires Holds(slots, log) && l.cursor <= |log| && maxLag >= 1
    ensures var (l', h) := ListenerTick(slots, |log|, maxLag, l);
            var lag := |log| - l.cursor;
            && (lag == 0 ==> l' == l && h == Quiet)
            && (0 < lag <= maxLag && lag <= |slots| ==>
                  l' == l.(cursor := l.cursor + 1) && h == Audio(l.cursor, log[l.cursor]))
            && (|slots| < lag <= maxLag ==> l' == l.(cursor := |log|) && h == Quiet)
            && (lag > maxLag ==>
                  l' == Listener(|log|, l.resyncs + 1) && h == Audio(|log| - 1, log[|log| - 1]))
  {
    if l.cursor < |log| {
      SlotStillHolds(slots, log, l.cursor);
      SlotStillHolds(slots, log, |log| - 1);
    }
  }

  // ---------------------------------------------------------------- runs of publishes and ticks

  datatype Event = Publish(frame: Frame) | Tick

  // One listener beside the producer. `heard` collects what it played; `skipped` counts the frames
  // its cursor passed without playing.
  datatype Bridge = Bridge(slots: seq<Slot>, log: seq<Frame>, l: Listener,
                           heard: seq<Numbered>, skipped: nat)

  ghost predicate Joined(b: Bridge, join: nat)
  {
    Holds(b.slots, b.log) && b.l == Listener(join, 0) && join <= |b.log| && b.heard == [] && b.skipped == 0
  }

  function Lag(b: Bridge): int { |b.log| - b.l.cursor }

  function Step(b: Bridge, maxLag: nat, e: Event): Bridge
    requires |b.slots| > 0
  {
    match e
    case Publish(f) => b.(slots := PublishSlots(b.slots, |b.log|, f), log := b.log + [f])
    case Tick =>
      var (l', h) := ListenerTick(b.slots, |b.log|, maxLag, b.l);
      var passed := l'.cursor - b.l.cursor;
      match h
      case Audio(i, f) => b.(l := l', heard := b.heard + [(i, f)], skipped := if passed > 0 then b.skipped + passed - 1 else b.skipped)
      case Quiet => b.(l := l', skipped := if passed > 0 then b.skipped + passed else b.skipped)
  }

  function Run(b: Bridge, maxLag: nat, es: seq<Event>): (r: Bridge)
    requires |b.slots| > 0
    ensures |r.slots| == |b.slots|
  {
    if es == [] then b else Step(Run(b, maxLag, es[..|es| - 1]), maxLag, es[|es| - 1])
  }

  // Played numbers rise, lie in [join, cursor), and each payload is the log's.
  ghost predicate PlayedFromLog(heard: seq<Numbered>, log: seq<Frame>, join: nat, cursor: nat)
  {
    && (forall k {:trigger heard[k]} :: 0 <= k < |heard| ==>
          join <= heard[k].0 < cursor <= |log| && heard[k].1 == log[heard[k].0])
    && (forall j, k {:trigger heard[j], heard[k]} :: 0 <= j < k < |heard| ==> heard[j].0 < heard[k].0)
  }

  ghost predicate Accounted(b: Bridge, maxLag: nat, join: nat)
  {
    && Holds(b.slots, b.log)
    && join <= b.l.cursor <= |b.log|
    && PlayedFromLog(b.heard, b.log, join, b.l.cursor)
    && b.l.cursor - join == |b.heard| + b.skipped
    && b.l.resyncs * (maxLag + 1) <= b.l.cursor - join
  }

  lemma StepAccounted(b: Bridge, maxLag: nat, join: nat, e: Event)
    requires Accounted(b, maxLag, join) && maxLag >= 1
    ensures var b' := Step(b, maxLag, e);
            && Accounted(b', maxLag, join)
            && b.l.cursor <= b'.l.cursor
            && (e.Tick? ==> Lag(b') < maxLag)
  {
    match e
    case Publish(f) =>
      PublishHolds(b.slots, b.log, f);
    case Tick =>
      TickByLag(b.slots, b.log, maxLag, b.l);
      var b' := Step(b, maxLag, e);
      assert (b.l.resyncs + 1) * (maxLag + 1) == b.l.resyncs * (maxLag + 1) + (maxLag + 1);
      assert PlayedFromLog(b'.heard, b'.log, join, b'.l.cursor);
  }

  // Any schedule, any ring size, any lag bound: the cursor never passes the producer, played numbers
  // strictly rise with the log's own payloads, every frame the cursor moved over was either played
  // or skipped, and each resync cost at least maxLag + 1 frames. `join` is where the listener began.
  lemma {:induction false} AnySchedule(b: Bridge, maxLag: nat, join: nat, es: seq<Event>)
    requires Joined(b, join) && maxLag >= 1
    ensures Accounted(Run(b, maxLag, es), maxLag, join)
    ensures es != [] && es[|es| - 1].Tick? ==> Lag(Run(b, maxLag, es)) < maxLag
    ensures forall i :: 0 <= i <= |es| ==> Run(b, maxLag, es[..i]).l.cursor <= Run(b, maxLag, es).l.cursor
  {
    if es == [] {
    } else {
      var front := es[..|es| - 1];
      AnySchedule(b, maxLag, join, front);
      StepAccounted(Run(b, maxLag, front), maxLag, join, es[|es| - 1]);
      forall i | 0 <= i <= |es|
        ensures Run(b, maxLag, es[..i]).l.cursor <= Run(b, maxLag, es).l.cursor
      {
        if i < |es| { assert es[..i] == front[..i]; } else { assert es[..i] == es; }
      }
    }
  }

  // ---------------------------------------------------------------- the listener refines the log

  // Every tick of the schedule sees a lag the ring and the lag bound can both take.
  ghost predicate Prompt(b: Bridge, maxLag: nat, es: seq<Event>)
    requires |b.slots| > 0
  {
    es == [] ||
    var front := es[..|es| - 1];
    var lag := Lag(Run(b, maxLag, front));
    Prompt(b, maxLag, front) && (es[|es| - 1].Tick? ==> lag <= maxLag && lag <= |b.slots|)
  }

  // The log from `lo` up to `hi`, each frame with its number.
  function Numbering(log: seq<Frame>, lo: nat, hi: nat): seq<Numbered>
    requires lo <= hi <= |log|
  {
    seq(hi - lo, k requires 0 <= k < hi - lo => (lo + k, log[lo + k]))
  }

  lemma NumberingSnoc(log: seq<Frame>, lo: nat, hi: nat)
    requires lo <= hi < |log|
    ensures Numbering(log, lo, hi + 1) == Numbering(log, lo, hi) + [(hi, log[hi])]
  {
  }

  // Frames are skipped exactly when some tick came too late.
  lemma {:induction false} SkippedIffLate(b: Bridge, maxLag: nat, join: nat, es: seq<Event>)
    requires Joined(b, join) && maxLag >= 1
    ensures Prompt(b, maxLag, es) <==> Run(b, maxLag, es).skipped == 0
  {
    if es == [] {
    } else {
      var front := es[..|es| - 1];
      SkippedIffLate(b, maxLag, join, front);
      AnySchedule(b, maxLag, join, front);
      var r := Run(b, maxLag, front);
      TickByLag(r.slots, r.log, maxLag, r.l);
    }
  }

  lemma {:induction false} RisingBound(xs: seq<Numbered>, log: seq<Frame>, lo: nat, hi: nat, k: nat)
    requires PlayedFromLog(xs, log, lo, hi) && k < |xs|
    ensures xs[k].0 <= hi - |xs| + k
    decreases |xs| - k
  {
    if k + 1 < |xs| { RisingBound(xs, log, lo, hi, k + 1); assert xs[k].0 < xs[k + 1].0; }
  }

  lemma {:induction false} RisingFloor(xs: seq<Numbered>, log: seq<Frame>, lo: nat, hi: nat, k: nat)
    requires PlayedFromLog(xs, log, lo, hi) && k < |xs|
    ensures xs[k].0 >= lo + k
  {
    if k > 0 { RisingFloor(xs, log, lo, hi, k - 1); assert xs[k - 1].0 < xs[k].0; }
  }

  // Rising numbers that fill [lo, lo + |xs|) are the numbers lo, lo + 1, ...
  lemma DenseIsNumbering(xs: seq<Numbered>, log: seq<Frame>, lo: nat, hi: nat)
    requires lo <= hi <= |log| && |xs| == hi - lo && PlayedFromLog(xs, log, lo, hi)
    ensures xs == Numbering(log, lo, hi)
  {
    forall k | 0 <= k < |xs| ensures xs[k] == (lo + k, log[lo + k]) {
      RisingBound(xs, log, lo, hi, k);
      RisingFloor(xs, log, lo, hi, k);
    }
  }

  // Refinement, exactly: what a listener played is the log from its join cursor up to its current
  // cursor, with no gap, duplicate or reorder, if and only if no tick of the schedule was late.
  lemma PlaysLogIffPrompt(b: Bridge, maxLag: nat, join: nat, es: seq<Event>)
    requires Joined(b, join) && maxLag >= 1
    ensures var r := Run(b, maxLag, es);
            join <= r.l.cursor <= |r.log|
            && (Prompt(b, maxLag, es) <==> r.heard == Numbering(r.log, join, r.l.cursor))
  {
    AnySchedule(b, maxLag, join, es);
    SkippedIffLate(b, maxLag, join, es);
    var r := Run(b, maxLag, es);
    if r.skipped == 0 {
      DenseIsNumbering(r.heard, r.log, join, r.l.cursor);
    }
  }

  // A tick writes silence exactly when the cursor has caught up with the producer, or when the slot
  // was overwritten because the profile allows more lag than the ring has slots.
  lemma QuietExactly(b: Bridge, maxLag: nat, join: nat, es: seq<Event>)
    requires Joined(b, join) && maxLag >= 1
    ensures var r := Run(b, maxLag, es);
            ListenerTick(r.slots, |r.log|, maxLag, r.l).1.Quiet? <==>
              r.l.cursor == |r.log| || |b.slots| < Lag(r) <= maxLag
  {
    AnySchedule(b, maxLag, join, es);
    var r := Run(b, maxLag, es);
    TickByLag(r.slots, r.log, maxLag, r.l);
  }

  // The frames published in a schedule.
  function Frames(es: seq<Event>): seq<Frame>
  {
    if es == [] then []
    else Frames(es[..|es| - 1]) + (if es[|es| - 1].Publish? then [es[|es| - 1].frame] else [])
  }

  // The log is what was published, in order.
  lemma {:induction false} LogIsPublished(b: Bridge, maxLag: nat, es: seq<Event>)
    requires |b.slots| > 0
    ensures Run(b, maxLag, es).log == b.log + Frames(es)
  {
    if es == [] {
      assert b.log + [] == b.log;
    } else {
      var front, last := es[..|es| - 1], es[|es| - 1];
      LogIsPublished(b, maxLag, front);
      assert (b.log + Frames(front)) + (if last.Publish? then [last.frame] else []) == b.log + Frames(es);
    }
  }

  function Publishes(fs: seq<Frame>): (es: seq<Event>)
    ensures |es| == |fs| && forall i :: 0 <= i < |es| ==> es[i] == Publish(fs[i])
  {
    seq(|fs|, i requires 0 <= i < |fs| => Publish(fs[i]))
  }

  lemma {:induction false} RunPublishes(b: Bridge, maxLag: nat, fs: seq<Frame>)
    requires Holds(b.slots, b.log)
    ensures var r := Run(b, maxLag, Publishes(fs));
            r.log == b.log + fs && r.l == b.l && r.heard == b.heard && Holds(r.slots, r.log)
  {
    if fs == [] {
      assert b.log + fs == b.log;
    } else {
      var front := fs[..|fs| - 1];
      RunPublishes(b, maxLag, front);
      assert Publishes(fs)[..|fs| - 1] == Publishes(front);
      var r := Run(b, maxLag, Publishes(front));
      PublishHolds(r.slots, r.log, fs[|fs| - 1]);
      assert b.log + fs == (b.log + front) + [fs[|fs| - 1]];
    }
  }

  // A listener that joins rewound by `back` frames and ticks for the first time after k more were
  // published hears exactly frame p - back first, as long as back + k fits the bounds.
  lemma FirstFrameHeard(b: Bridge, maxLag: nat, preBufferMs: nat, intervalMs: nat, fs: seq<Frame>)
    requires Holds(b.slots, b.log) && b.heard == []
    requires b.l == Listener(JoinCursor(|b.log|, preBufferMs, intervalMs, |b.slots|), 0)
    requires 0 < preBufferMs < intervalMs * |b.slots| && intervalMs > 0
    requires |b.log| > preBufferMs / intervalMs > 0
    requires preBufferMs / intervalMs + |fs| <= maxLag <= |b.slots|
    ensures var first := |b.log| - preBufferMs / intervalMs;
            Run(b, maxLag, Publishes(fs) + [Tick]).heard == [(first, b.log[first])]
  {
    var es := Publishes(fs) + [Tick];
    assert es[..|es| - 1] == Publishes(fs);
    RunPublishes(b, maxLag, fs);
    var r := Run(b, maxLag, Publishes(fs));
    TickByLag(r.slots, r.log, maxLag, r.l);
  }

  // A listener that joins without a rewind hears nothing before the first publish, and then that frame.
  lemma FirstFreshHeard(b: Bridge, maxLag: nat, preBufferMs: nat, intervalMs: nat, fs: seq<Frame>)
    requires Holds(b.slots, b.log) && b.heard == []
    requires b.l == Listener(JoinCursor(|b.log|, preBufferMs, intervalMs, |b.slots|), 0)
    requires !Rewinds(|b.log|, preBufferMs, intervalMs, |b.slots|)
    requires |fs| <= maxLag <= |b.slots| && maxLag >= 1
    ensures Run(b, maxLag, Publishes(fs) + [Tick]).heard == if fs == [] then [] else [(|b.log|, fs[0])]
  {
    var es := Publishes(fs) + [Tick];
    assert es[..|es| - 1] == Publishes(fs);
    RunPublishes(b, maxLag, fs);
    JoinCursorExactly(|b.log|, preBufferMs, intervalMs, |b.slots|);
    var r := Run(b, maxLag, Publishes(fs));
    TickByLag(r.slots, r.log, maxLag, r.l);
  }
}
