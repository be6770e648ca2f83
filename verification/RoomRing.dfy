/**
 The ring as the producer, the listener bridge and the recording thread use it: one circular array
 updated in place, one private cursor per consumer.
 */
module RoomRing {
  import opened Options
  import opened Ring
  import opened Recorder

  // The fields of a profile that shape frames and cursors.
  datatype Profile = Profile(rate: nat, intervalMs: nat, channels: nat, ringSize: nat, maxLag: nat,
                             preBufferMs: nat)

  datatype Geometry = Geometry(samples: nat, channels: nat, bytes: nat, ringSize: nat)

  const U32 := 0x1_0000_0000

  function SamplesPerFrame(p: Profile): (spf: nat)
    ensures spf <= U32 / 1000
  {
    p.rate * p.intervalMs % U32 / 1000
  }

  // Frame geometry of a new room, in 32-bit arithmetic with the channel count cut to eight bits. None
  // when a frame would not fit a slot.
  function Configure(p: Profile): Option<Geometry>
  {
    var spf := SamplesPerFrame(p);
    var bpf := spf * p.channels * 2 % U32;
    if bpf > MAX_FRAME_BYTES then None
    else Some(Geometry(spf, p.channels % 256, bpf, if p.ringSize != 0 then p.ringSize else DEFAULT_RING_SIZE))
  }

  ghost predicate GoodGeometry(g: Geometry)
  {
    g.ringSize > 0 && g.bytes == g.samples * g.channels * 2 <= MAX_FRAME_BYTES
  }

  lemma CutOff(lost: nat, kept: nat)
    requires kept < U32
    ensures (512 * lost + kept) % U32 == kept <==> lost % 0x80_0000 == 0
  {
  }

  lemma Parts(spf: nat, channels: nat)
    ensures spf * channels * 2 == 512 * (spf * (channels / 256)) + spf * (channels % 256) * 2
  {
    var q, x := channels / 256, channels % 256;
    assert spf * (256 * q + x) == 256 * (spf * q) + spf * x;
  }

  lemma Narrow(spf: nat, channels: nat)
    requires spf <= U32 / 1000 && channels <= 255
    ensures spf * channels * 2 < U32
  {
    assert spf * channels <= spf * 255;
  }

  lemma BytesFit(spf: nat, channels: nat)
    requires spf <= U32 / 1000
    ensures spf * channels * 2 % U32 == spf * (channels % 256) * 2 <==> spf * (channels / 256) % 0x80_0000 == 0
  {
    Parts(spf, channels);
    Narrow(spf, channels % 256);
    CutOff(spf * (channels / 256), spf * (channels % 256) * 2);
  }

  // A room's geometry fits together for every profile with up to 255 channels, whatever wraps; with
  // more of them, exactly if what the cut takes away is nothing in 32 bits.
  lemma ConfigureGood(p: Profile)
    requires Configure(p).Some?
    ensures GoodGeometry(Configure(p).value) <==> SamplesPerFrame(p) * (p.channels / 256) % 0x80_0000 == 0
    ensures p.channels <= 255 ==> GoodGeometry(Configure(p).value)
  {
    BytesFit(SamplesPerFrame(p), p.channels);
    assert p.channels <= 255 ==> SamplesPerFrame(p) * (p.channels / 256) == 0;
  }

  // As long as nothing wraps and the channels fit eight bits, a room is refused exactly when the frame
  // of one interval is larger than a slot, and otherwise has frames of just that size.
  lemma ConfigureExact(p: Profile)
    requires p.rate * p.intervalMs < U32 && p.channels <= 255
    ensures var samples := p.rate * p.intervalMs / 1000;
            var bytes := samples * p.channels * 2;
            Configure(p) == if bytes > 1920 then None
                            else Some(Geometry(samples, p.channels, bytes, if p.ringSize == 0 then 50 else p.ringSize))
  {
    var product := p.rate * p.intervalMs;
    var samples := product / 1000;
    Unwrapped(product);
    assert SamplesPerFrame(p) == samples;
    Narrow(samples, p.channels);
    Unwrapped(samples * p.channels * 2);
  }

  lemma Unwrapped(x: nat)
    requires x < U32
    ensures x % U32 == x && x / 1000 <= U32 / 1000 && (x <= 255 ==> x % 256 == x)
  {
  }

  function MaxLag(p: Profile): (m: nat)
    ensures m >= 1
  {
    if p.maxLag != 0 then p.maxLag else DEFAULT_MAX_LAG
  }

  // Every published frame has exactly this shape.
  predicate Uniform(g: Geometry, f: Frame)
  {
    |f.data| == g.bytes && f.samples == g.samples
  }

  class Room {
    const g: Geometry
    var ring: array<Slot>
    var producerSeq: nat
    var statResyncs: nat
    ghost var log: seq<Frame>

    ghost predicate Valid()
      reads this, ring
    {
      && GoodGeometry(g) && ring.Length == g.ringSize
      && producerSeq == |log|
      && Holds(ring[..], log)
      && (forall i {:trigger log[i]} :: 0 <= i < |log| ==> Uniform(g, log[i]))
    }

    constructor (g: Geometry)
      requires GoodGeometry(g)
      ensures Valid() && fresh(ring) && this.g == g && log == [] && statResyncs == 0
    {
      this.g := g;
      ring := new Slot[g.ringSize](_ => Slot(0, Frame([], 0, false)));
      producerSeq, statResyncs, log := 0, 0, [];
    }

    // The producer's publish: fill the slot, then the slot number, then producer_seq.
    method Publish(data: seq<byte>, silence: bool)
      requires Valid() && |data| == g.bytes
      modifies this`producerSeq, this`log, ring
      ensures Valid() && ring == old(ring)
      ensures log == old(log) + [Frame(data, g.samples, silence)]
    {
      var number := producerSeq;
      ghost var before := ring[..];
      ring[number % ring.Length] := Slot(number, Frame(data, g.samples, silence));
      producerSeq := number + 1;
      PublishHolds(before, log, Frame(data, g.samples, silence));
      assert ring[..] == PublishSlots(before, |log|, Frame(data, g.samples, silence));
      log := log + [Frame(data, g.samples, silence)];
    }
  }

  // The output side of one listener.
  class ListenerBridge {
    const maxLag: nat
    var consumerSeq: nat
    var resyncCount: nat
    var lastResyncEvtUs: int

    constructor Join(room: Room, p: Profile)
      requires room.Valid()
      ensures maxLag == if p.maxLag == 0 then 10 else p.maxLag
      ensures consumerSeq == JoinCursor(room.producerSeq, p.preBufferMs, p.intervalMs, room.g.ringSize)
      ensures !Rewinds(room.producerSeq, p.preBufferMs, p.intervalMs, room.g.ringSize) ==> consumerSeq == room.producerSeq
      ensures Rewinds(room.producerSeq, p.preBufferMs, p.intervalMs, room.g.ringSize) ==>
                room.producerSeq - consumerSeq == p.preBufferMs / p.intervalMs > 0
      ensures room.producerSeq - (room.g.ringSize - 1) <= consumerSeq <= room.producerSeq
      ensures resyncCount == 0 && lastResyncEvtUs == 0
    {
      JoinCursorExactly(room.producerSeq, p.preBufferMs, p.intervalMs, room.g.ringSize);
      var cs := room.producerSeq;
      if p.preBufferMs != 0 && p.preBufferMs < p.intervalMs * room.g.ringSize {
        PreBufferFits(p.preBufferMs, p.intervalMs, room.g.ringSize);
        var back := p.preBufferMs / p.intervalMs;
        if cs > back {
          cs := cs - back;
        }
      }
      maxLag := MaxLag(p);
      consumerSeq, resyncCount, lastResyncEvtUs := cs, 0, 0;
    }

    // One tick of the output loop. `out` and `samples` are what is written to the session; `evt` is
    // the lag reported in a resync event, at most one a second.
    method Tick(room: Room, now: int) returns (out: seq<byte>, samples: nat, evt: Option<nat>)
      requires room.Valid() && maxLag >= 1 && consumerSeq <= room.producerSeq
      modifies this, room`statResyncs
      ensures room.Valid()
      ensures var (l', heard) := ListenerTick(room.ring[..], room.producerSeq, maxLag,
                                              Listener(old(consumerSeq), old(resyncCount)));
              && consumerSeq == l'.cursor && resyncCount == l'.resyncs
              && out == (if heard.Audio? then heard.frame.data else Zeros(room.g.bytes))
      ensures |out| == room.g.bytes <= MAX_FRAME_BYTES && samples == room.g.samples
      ensures old(consumerSeq) <= consumerSeq <= room.producerSeq < consumerSeq + maxLag
      ensures room.statResyncs - old(room.statResyncs) == resyncCount - old(resyncCount)
      ensures evt.Some? <==> resyncCount > old(resyncCount) && now - old(lastResyncEvtUs) > 1000000
      ensures evt.Some? ==> evt.value == room.producerSeq - old(consumerSeq) > maxLag
      ensures lastResyncEvtUs == if evt.Some? then now else old(lastResyncEvtUs)
    {
      ghost var slots := room.ring[..];
      TickByLag(slots, room.log, maxLag, Listener(consumerSeq, resyncCount));
      var cs := consumerSeq;
      var pseq := room.producerSeq;
      evt := None;
      if cs < pseq {
        if pseq - cs > maxLag {
          var lag := pseq - cs;
          cs := pseq - 1;
          resyncCount := resyncCount + 1;
          room.statResyncs := room.statResyncs + 1;
          if now - lastResyncEvtUs > 1000000 {
            lastResyncEvtUs := now;
            evt := Some(lag);
          }
        }
        var slot := room.ring[cs % room.ring.Length];
        assert slot == slots[cs % |slots|];
        if slot.number == cs {
          SlotStillHolds(slots, room.log, cs);
          out, samples := slot.frame.data, slot.frame.samples;
        } else {
          out, samples := Zeros(room.g.bytes), room.g.samples;
          cs := pseq - 1;
        }
        cs := cs + 1;
        consumerSeq := cs;
      } else {
        out, samples := Zeros(room.g.bytes), room.g.samples;
      }
    }
  }

  // Concatenated payloads of a stretch of the log, as a recording file holds them.
  function Payloads(xs: seq<Numbered>): seq<byte>
  {
    if xs == [] then [] else Payloads(xs[..|xs| - 1]) + xs[|xs| - 1].1.data
  }

  // Turn c of a recorder's loop does not cut the pass short: nobody stops it, and if the slot is still
  // the one asked for its write works.
  predicate GoesOn(slots: seq<Slot>, c: nat, works: nat -> bool, stopped: nat -> bool)
    requires |slots| > 0
  {
    !stopped(c) && (slots[c % |slots|].number == c ==> works(c))
  }

  class RecordWriter {
    var consumerSeq: nat
    var running: bool
    var file: seq<byte>

    // Recording starts at the producer's current number.
    constructor Start(room: Room)
      requires room.Valid()
      ensures consumerSeq == room.producerSeq && running && file == []
    {
      consumerSeq, running, file := room.producerSeq, true, [];
    }

    // One wake-up. Writing frame c to the file works or does not, and another thread may have cleared
    // `running` by the end of turn c; both cut the pass short, and nothing else does.
    method WakeUp(room: Room, works: nat -> bool, stopped: nat -> bool)
      requires room.Valid() && consumerSeq <= room.producerSeq
      modifies this
      ensures old(consumerSeq) <= consumerSeq <= room.producerSeq
      ensures file == old(file) + Payloads(Drain(room.ring[..], old(consumerSeq), consumerSeq))
      ensures var oldest := Oldest(room.log, room.g.ringSize, old(consumerSeq));
              Drain(room.ring[..], old(consumerSeq), consumerSeq) ==
                if consumerSeq <= oldest then [] else Numbering(room.log, oldest, consumerSeq)
      ensures running ==> consumerSeq == room.producerSeq
      ensures running <==>
                old(running) && forall c :: old(consumerSeq) <= c < room.producerSeq ==> GoesOn(room.ring[..], c, works, stopped)
      ensures !old(running) ==> consumerSeq == old(consumerSeq) && !running
    {
      var pseq := room.producerSeq;
      ghost var slots, from, before := room.ring[..], consumerSeq, file;
      while consumerSeq < pseq && running
        invariant from <= consumerSeq <= pseq
        invariant file == before + Payloads(Drain(slots, from, consumerSeq))
        invariant !old(running) ==> consumerSeq == from && !running
        invariant running ==>
                    old(running) && forall c :: from <= c < consumerSeq ==> GoesOn(slots, c, works, stopped)
        invariant !running ==> !old(running) || exists c :: from <= c < pseq && !GoesOn(slots, c, works, stopped)
        decreases pseq - consumerSeq
      {
        ghost var c := consumerSeq;
        var ok := WriteSlot(room, works(consumerSeq), slots, from, before);
        assert GoesOn(slots, c, works, stopped) <==> ok && !stopped(c);
        if !ok {
          break;
        }
        if stopped(consumerSeq - 1) {
          running := false;
        }
      }
      DrainIsLogTail(slots, room.log, from, consumerSeq);
    }

    // One turn of the drain: the slot is written if it still carries the number asked for.
    method WriteSlot(room: Room, works: bool, ghost slots: seq<Slot>, ghost from: nat, ghost before: seq<byte>) returns (ok: bool)
      requires room.Valid() && slots == room.ring[..] && from <= consumerSeq < room.producerSeq && running
      requires file == before + Payloads(Drain(slots, from, consumerSeq))
      modifies this
      ensures file == before + Payloads(Drain(slots, from, consumerSeq))
      ensures ok == running && consumerSeq == old(consumerSeq) + (if ok then 1 else 0)
      ensures ok <==> slots[old(consumerSeq) % |slots|].number != old(consumerSeq) || works
    {
      DrainSnoc(slots, from, consumerSeq);
      var slot := room.ring[consumerSeq % room.ring.Length];
      assert slot == slots[consumerSeq % |slots|];
      ok := true;
      if slot.number == consumerSeq {
        ok := WriteFile(room, slot, works);
      }
      if ok {
        consumerSeq := consumerSeq + 1;
      }
    }

    // The write takes slot.samples samples of every channel, two bytes each.
    method WriteFile(room: Room, slot: Slot, works: bool) returns (ok: bool)
      requires room.Valid() && consumerSeq < room.producerSeq
      requires slot == room.ring[consumerSeq % room.ring.Length] && slot.number == consumerSeq
      modifies this`file, this`running
      ensures ok == works
      ensures ok ==> running == old(running) && file == old(file) + slot.frame.data
      ensures !ok ==> !running && file == old(file)
    {
      if !works {
        running := false;
        return false;
      }
      SlotIsWhole(room, room.ring[..], consumerSeq);
      file := file + slot.frame.data[..slot.frame.samples * 2 * room.g.channels];
      ok := true;
    }
  }

  // What a drain gets out of slot c.
  function SlotData(slots: seq<Slot>, c: nat): seq<byte>
    requires |slots| > 0
  {
    var slot := slots[c % |slots|];
    if slot.number == c then slot.frame.data else []
  }

  lemma DrainSnoc(slots: seq<Slot>, from: nat, c: nat)
    requires |slots| > 0 && from <= c
    ensures Payloads(Drain(slots, from, c + 1)) == Payloads(Drain(slots, from, c)) + SlotData(slots, c)
  {
    var slot, drained := slots[c % |slots|], Drain(slots, from, c);
    if slot.number == c {
      PayloadsSnoc(drained, (c, slot.frame));
    } else {
      assert drained + [] == drained;
    }
  }

  lemma PayloadsSnoc(xs: seq<Numbered>, x: Numbered)
    ensures Payloads(xs + [x]) == Payloads(xs) + x.1.data
  {
    assert (xs + [x])[..|xs|] == xs;
  }

  // Counting samples per channel, as the file API does, takes the whole payload of a live slot.
  lemma SlotIsWhole(room: Room, slots: seq<Slot>, c: nat)
    requires room.Valid() && slots == room.ring[..] && c < room.producerSeq
    requires slots[c % |slots|].number == c
    ensures var f := slots[c % |slots|].frame;
            |f.data| == f.samples * 2 * room.g.channels && f.data[..f.samples * 2 * room.g.channels] == f.data
  {
    SlotStillHolds(slots, room.log, c);
    assert Uniform(room.g, room.log[c]);
    assert room.g.samples * room.g.channels * 2 == room.g.samples * 2 * room.g.channels;
  }
}
