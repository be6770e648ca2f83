/**
 What the producer puts into the next frame, and what becomes of every byte a speaker sent.

 Volume scaling is any length-preserving function; silence policy contents are any frame of the
 right length; the speaker's audio buffer is a bounded byte FIFO.
 */
module SpeakerAudio {
  import opened Ring
  import opened RoomRing

  // Reading one frame of the file being played: a full frame, or short, failed, at end.
  datatype FileRead = Full(data: seq<byte>) | Short

  // What one tick sees of the outside: the admin flags sampled once, whether this speaker is the
  // current one, its mute flag and volume, the next read of a played file, the silence filling.
  datatype Env = Env(file: FileRead, pause: bool, current: bool, muted: bool, volIdx: int, fill: seq<byte>)

  type Volume = (seq<byte>, int) -> seq<byte>

  predicate GoodEnv(bytes: nat, e: Env)
  {
    |e.fill| == bytes && (e.file.Full? ==> |e.file.data| == bytes)
  }

  ghost predicate KeepsLength(vol: Volume)
  {
    forall d: seq<byte>, v: int {:trigger vol(d, v)} :: |vol(d, v)| == |d|
  }

  // Who the published frame comes from.
  datatype Origin = FromFile | FromSpeaker | FromPolicy

  // What the tick did to the speaker's buffer: left it alone, or took bytes out of its front.
  datatype Taken = Nothing | Live(bytes: seq<byte>, volIdx: int) | Drained(bytes: seq<byte>) | Lost(bytes: seq<byte>)

  datatype Produced = Produced(data: seq<byte>, silence: bool, origin: Origin, buffer: seq<byte>, taken: Taken)

  // The PLAY_FILE flag of the room, and whether it has a file handle. A file plays when both are set.
  datatype Playback = Playback(flag: bool, handle: bool)
  {
    predicate On() { flag && handle }
  }

  const STOPPED := Playback(false, false)

  // The play command replaces the handle; it keeps it, and the flag as it was, when the file does not
  // open. The announcement before a room is destroyed gives the handle up then.
  function PlayFile(pb: Playback, works: bool): Playback { Playback(pb.flag || works, true) }

  function PlayAnnouncement(pb: Playback, works: bool): Playback { Playback(pb.flag || works, works) }

  // A tick that cannot read a whole frame ends the playback.
  function AfterTick(pb: Playback, e: Env): Playback
  {
    if pb.On() && e.file.Short? then STOPPED else pb
  }

  function Min(a: nat, b: nat): nat { if a < b then a else b }

  function Source(bytes: nat, playing: bool, buffer: seq<byte>, e: Env, vol: Volume): Produced
  {
    var fileFrame := playing && e.file.Full?;
    var fileLen := if fileFrame then |e.file.data| else 0;
    var takes := fileLen == 0 && e.current && !e.pause;
    var got := Min(bytes, |buffer|);
    var (buffer', taken) :=
      if !takes then (buffer, Nothing)
      else if e.muted then ([], Drained(buffer))
      else (buffer[got..], if got == bytes then Live(buffer[..got], e.volIdx) else Lost(buffer[..got]));
    if e.pause || (!fileFrame && !taken.Live?) then
      Produced(e.fill, true, FromPolicy, buffer', taken)
    else if taken.Live? then
      Produced(if e.volIdx != 0 then vol(taken.bytes, e.volIdx) else taken.bytes, false, FromSpeaker, buffer', taken)
    else
      Produced(e.file.data, false, FromFile, buffer', taken)
  }

  // A whole frame read from the live speaker is published, never replaced by silence, and nothing
  // else is published as the speaker's; a frame read from a file is published unless the room is
  // paused, and leaves the speaker's bytes buffered; every frame has full length.
  lemma LiveIsPublished(bytes: nat, playing: bool, buffer: seq<byte>, e: Env, vol: Volume)
    requires GoodEnv(bytes, e) && KeepsLength(vol)
    ensures var p := Source(bytes, playing, buffer, e, vol);
            && (p.taken.Live? <==> p.origin == FromSpeaker)
            && (p.taken.Live? ==> !p.silence)
            && (p.taken.Live? ==>
                 p.data == if e.volIdx != 0 then vol(buffer[..Min(bytes, |buffer|)], e.volIdx) else buffer[..Min(bytes, |buffer|)])
            && |p.data| == bytes
            && (p.silence <==> p.origin == FromPolicy)
            && (e.pause ==> p.silence && p.buffer == buffer)
            && (p.origin == FromFile <==> playing && e.file.Full? && !e.pause && !p.taken.Live?)
            && (p.origin == FromFile ==> p.data == e.file.data)
            && (playing && e.file.Full? && bytes > 0 ==> p.taken == Nothing && p.buffer == buffer)
  {
  }

  // The tick reads the speaker: no frame came from a file, and the room is not paused.
  predicate Reads(playing: bool, e: Env) { e.current && !e.pause && !(playing && e.file.Full? && e.file.data != []) }

  // What becomes of the speaker's bytes, exactly. A muted speaker that is read is drained; another one
  // has its first frame published, only scaled by volume, and keeps the rest, if and only if a whole
  // frame is buffered, and otherwise loses what there is; one that is not read keeps everything.
  lemma TakenExactly(bytes: nat, playing: bool, buffer: seq<byte>, e: Env, vol: Volume)
    requires GoodEnv(bytes, e)
    ensures var p := Source(bytes, playing, buffer, e, vol);
            && (p.taken == Drained(buffer) <==> Reads(playing, e) && e.muted)
            && (p.taken.Drained? ==> p.taken.bytes == buffer && p.buffer == [])
            && (p.taken.Live? <==> Reads(playing, e) && !e.muted && |buffer| >= bytes)
            && (p.taken.Live? ==>
                  && p.taken == Live(buffer[..bytes], e.volIdx) && p.buffer == buffer[bytes..]
                  && p.origin == FromSpeaker && !p.silence
                  && p.data == if e.volIdx == 0 then buffer[..bytes] else vol(buffer[..bytes], e.volIdx))
            && (p.taken.Lost? <==> Reads(playing, e) && !e.muted && |buffer| < bytes)
            && (p.taken.Lost? ==> p.taken.bytes == buffer && p.buffer == [])
            && (p.taken.Nothing? <==> !Reads(playing, e))
            && (p.taken.Nothing? ==> p.buffer == buffer)
            && (p.silence ==> p.data == e.fill)
  {
  }

  // ---------------------------------------------------------------- the producer's tick, in place

  // A write goes into the buffer whole or not at all.
  function Accept(buffer: seq<byte>, data: seq<byte>, capacity: nat): seq<byte>
  {
    if |buffer| + |data| <= capacity then buffer + data else buffer
  }

  function Capacity(bytes: nat): nat { bytes * 25 }

  class SpeakerInput {
    const capacity: nat
    var buffer: seq<byte>

    constructor (bytes: nat)
      ensures buffer == [] && capacity == 25 * bytes
    {
      capacity, buffer := Capacity(bytes), [];
    }

    method Write(data: seq<byte>) returns (accepted: bool)
      modifies this
      ensures buffer == Accept(old(buffer), data, capacity)
      ensures accepted <==> old(|buffer|) + |data| <= capacity
    {
      accepted := |buffer| + |data| <= capacity;
      if accepted {
        buffer := buffer + data;
      }
    }

    method Read(want: nat) returns (data: seq<byte>)
      modifies this
      ensures data == old(buffer)[..Min(want, old(|buffer|))]
      ensures buffer == old(buffer)[Min(want, old(|buffer|))..]
    {
      var got := Min(want, |buffer|);
      data, buffer := buffer[..got], buffer[got..];
    }

    method Zero()
      modifies this
      ensures buffer == []
    {
      buffer := [];
    }
  }

  class Producer {
    var playFlag: bool
    var playHandle: bool
    var ticks: nat
    var silentTicks: nat

    function Content(): Playback
      reads this
    {
      Playback(playFlag, playHandle)
    }

    constructor ()
      ensures Content() == STOPPED && ticks == 0 && silentTicks == 0
    {
      playFlag, playHandle, ticks, silentTicks := false, false, 0, 0;
    }

    method Play(works: bool)
      modifies this`playFlag, this`playHandle
      ensures Content() == PlayFile(old(Content()), works)
    {
      playHandle := true;
      if works {
        playFlag := true;
      }
    }

    method Announce(works: bool)
      modifies this`playFlag, this`playHandle
      ensures Content() == PlayAnnouncement(old(Content()), works)
    {
      playHandle := true;
      if works {
        playFlag := true;
      } else {
        playHandle := false;
      }
    }

    method StopPlay()
      modifies this`playFlag, this`playHandle
      ensures Content() == STOPPED
    {
      playHandle := false;
      playFlag := false;
    }

    // One producer tick. `spk` is current_speaker as read under speaker_lock.
    method Tick(room: Room, spk: SpeakerInput?, e: Env, vol: Volume)
      requires room.Valid() && GoodEnv(room.g.bytes, e) && KeepsLength(vol) && (e.current <==> spk != null)
      modifies this, spk, room`producerSeq, room`log, room.ring
      ensures room.Valid() && room.ring == old(room.ring)
      ensures var p := Source(room.g.bytes, old(Content()).On(), if spk == null then [] else old(spk.buffer), e, vol);
              && room.log == old(room.log) + [Frame(p.data, room.g.samples, p.silence)]
              && (spk != null ==> spk.buffer == p.buffer)
              && silentTicks == old(silentTicks) + if p.silence then 1 else 0
      ensures Content() == AfterTick(old(Content()), e)
      ensures ticks == old(ticks) + 1
    {
      LiveIsPublished(room.g.bytes, Content().On(), if spk == null then [] else spk.buffer, e, vol);
      var data: seq<byte> := [];
      var datalen, silence := 0, true;
      if playFlag && playHandle {
        match e.file
        case Full(d) =>
          data, datalen, silence := d, |d|, false;
        case Short =>
          playHandle, playFlag := false, false;
      }
      if datalen == 0 && spk != null && !e.pause {
        if e.muted {
          spk.Zero();
        } else {
          var got := spk.Read(room.g.bytes);
          if |got| == room.g.bytes {
            data, datalen, silence := got, |got|, false;
            if e.volIdx != 0 {
              data := vol(data, e.volIdx);
            }
          }
        }
      }
      if silence || e.pause {
        data, silence := e.fill, true;
      }
      room.Publish(data, silence);
      ticks := ticks + 1;
      if silence {
        silentTicks := silentTicks + 1;
      }
    }
  }

  // ---------------------------------------------------------------- conservation over whole runs

  datatype Event =
    | Offered(bytes: seq<byte>)
    | Ticked(env: Env)
    | PlayStarted(works: bool) | Announced(works: bool) | PlayStopped

  // One speaker's stream: bytes accepted so far, what became of them, what it still holds; what each
  // tick found, with whether a file was playing; and the frames published, each with its origin.
  datatype Stream = Stream(pb: Playback, buffer: seq<byte>, written: seq<byte>, taken: seq<Taken>,
                           found: seq<(bool, Env)>, published: seq<(Origin, seq<byte>)>)

  const FRESH := Stream(STOPPED, [], [], [], [], [])

  function Bytes(t: Taken): seq<byte>
  {
    if t.Nothing? then [] else t.bytes
  }

  function Flat(ts: seq<Taken>): seq<byte>
  {
    if ts == [] then [] else Flat(ts[..|ts| - 1]) + Bytes(ts[|ts| - 1])
  }

  predicate Fits(bytes: nat, s: Stream, data: seq<byte>) { |s.buffer| + |data| <= Capacity(bytes) }

  function Step(bytes: nat, vol: Volume, s: Stream, ev: Event): Stream
  {
    match ev
    case Offered(b) =>
      s.(buffer := Accept(s.buffer, b, Capacity(bytes)), written := if Fits(bytes, s, b) then s.written + b else s.written)
    case Ticked(e) =>
      var p := Source(bytes, s.pb.On(), s.buffer, e, vol);
      Stream(AfterTick(s.pb, e), p.buffer, s.written, s.taken + [p.taken], s.found + [(s.pb.On(), e)],
             s.published + [(p.origin, p.data)])
    case PlayStarted(works) => s.(pb := PlayFile(s.pb, works))
    case Announced(works) => s.(pb := PlayAnnouncement(s.pb, works))
    case PlayStopped => s.(pb := STOPPED)
  }

  function Run(bytes: nat, vol: Volume, evs: seq<Event>): Stream
  {
    if evs == [] then FRESH else Step(bytes, vol, Run(bytes, vol, evs[..|evs| - 1]), evs[|evs| - 1])
  }

  ghost predicate GoodEvents(bytes: nat, evs: seq<Event>)
  {
    forall i :: 0 <= i < |evs| && evs[i].Ticked? ==> GoodEnv(bytes, evs[i].env)
  }

  // Tick k published the speaker's bytes taken at tick k, unchanged up to volume, exactly when a
  // whole frame was taken.
  ghost predicate PublishedAsTaken(vol: Volume, taken: seq<Taken>, published: seq<(Origin, seq<byte>)>)
  {
    && |taken| == |published|
    && forall k {:trigger taken[k]} :: 0 <= k < |taken| ==>
         && (taken[k].Live? <==> published[k].0 == FromSpeaker)
         && (taken[k].Live? ==>
               published[k].1 == if taken[k].volIdx != 0 then vol(taken[k].bytes, taken[k].volIdx) else taken[k].bytes)
  }

  // Tick k published a frame as the file's exactly when a file was playing, gave a whole frame and the
  // room was not paused, and then it published that frame; and while a file gives frames the speaker's
  // bytes stay where they are.
  ghost predicate FilesAsRead(bytes: nat, found: seq<(bool, Env)>, taken: seq<Taken>, published: seq<(Origin, seq<byte>)>)
  {
    && |found| == |published| == |taken|
    && forall k {:trigger found[k]} :: 0 <= k < |found| ==>
         var (on, e) := found[k];
         && (bytes > 0 ==> (published[k].0 == FromFile <==> on && e.file.Full? && !e.pause))
         && (published[k].0 == FromFile ==> e.file.Full? && published[k].1 == e.file.data)
         && (bytes > 0 && on && e.file.Full? ==> taken[k] == Nothing)
  }

  lemma FlatSnoc(ts: seq<Taken>, t: Taken)
    ensures Flat(ts + [t]) == Flat(ts) + Bytes(t)
  {
    assert (ts + [t])[..|ts|] == ts;
  }

  lemma Regroup(a: seq<byte>, b: seq<byte>, c: seq<byte>)
    ensures a + (b + c) == (a + b) + c
  {
  }

  // What a tick takes is the front of the buffer.
  lemma TakesFront(bytes: nat, playing: bool, buffer: seq<byte>, e: Env, vol: Volume)
    ensures var p := Source(bytes, playing, buffer, e, vol);
            Bytes(p.taken) + p.buffer == buffer
  {
    var p := Source(bytes, playing, buffer, e, vol);
    match p.taken
    case Nothing => assert [] + buffer == buffer;
    case Drained(b) => assert b + [] == b;
    case Live(b, _) => assert b + p.buffer == buffer;
    case Lost(b) => assert b + p.buffer == buffer;
  }

  lemma TickPublishesAsTaken(bytes: nat, vol: Volume, s: Stream, e: Env)
    requires PublishedAsTaken(vol, s.taken, s.published) && GoodEnv(bytes, e) && KeepsLength(vol)
    ensures var s' := Step(bytes, vol, s, Ticked(e));
            PublishedAsTaken(vol, s'.taken, s'.published)
  {
    LiveIsPublished(bytes, s.pb.On(), s.buffer, e, vol);
  }

  lemma TickPublishesFiles(bytes: nat, vol: Volume, s: Stream, e: Env)
    requires FilesAsRead(bytes, s.found, s.taken, s.published) && GoodEnv(bytes, e) && KeepsLength(vol)
    ensures var s' := Step(bytes, vol, s, Ticked(e));
            FilesAsRead(bytes, s'.found, s'.taken, s'.published)
  {
    LiveIsPublished(bytes, s.pb.On(), s.buffer, e, vol);
    var s', n := Step(bytes, vol, s, Ticked(e)), |s.found|;
    forall k {:trigger s'.found[k]} | 0 <= k < n
      ensures s'.found[k] == s.found[k] && s'.taken[k] == s.taken[k] && s'.published[k] == s.published[k]
    {
    }
  }

  lemma TickConserves(bytes: nat, vol: Volume, s: Stream, e: Env)
    requires s.written == Flat(s.taken) + s.buffer
    ensures var s' := Step(bytes, vol, s, Ticked(e));
            s'.written == Flat(s'.taken) + s'.buffer && |s'.buffer| <= |s.buffer|
  {
    var p := Source(bytes, s.pb.On(), s.buffer, e, vol);
    TakesFront(bytes, s.pb.On(), s.buffer, e, vol);
    FlatSnoc(s.taken, p.taken);
    Regroup(Flat(s.taken), Bytes(p.taken), p.buffer);
  }

  lemma OfferConserves(bytes: nat, vol: Volume, s: Stream, b: seq<byte>)
    requires s.written == Flat(s.taken) + s.buffer && |s.buffer| <= Capacity(bytes)
    ensures var s' := Step(bytes, vol, s, Offered(b));
            s'.written == Flat(s'.taken) + s'.buffer && |s'.buffer| <= Capacity(bytes)
  {
    Regroup(Flat(s.taken), s.buffer, b);
  }

  // Over any sequence of writes, ticks and starts and stops of playback: the accepted stream is
  // partitioned, in order, into what ticks took out of it and what is still buffered, within 25
  // frames; the frames published as the speaker's are exactly its live parts; and those published as
  // a file's are exactly the frames read from it while the room was not paused.
  lemma {:induction false} Conserved(bytes: nat, vol: Volume, evs: seq<Event>)
    requires GoodEvents(bytes, evs) && KeepsLength(vol)
    ensures var s := Run(bytes, vol, evs);
            && s.written == Flat(s.taken) + s.buffer && |s.buffer| <= 25 * bytes
            && PublishedAsTaken(vol, s.taken, s.published)
            && FilesAsRead(bytes, s.found, s.taken, s.published)
  {
    if evs == [] {
    } else {
      var front, ev := evs[..|evs| - 1], evs[|evs| - 1];
      Conserved(bytes, vol, front);
      var s := Run(bytes, vol, front);
      match ev
      case Offered(b) => OfferConserves(bytes, vol, s, b);
      case Ticked(e) =>
        TickConserves(bytes, vol, s, e);
        TickPublishesAsTaken(bytes, vol, s, e);
        TickPublishesFiles(bytes, vol, s, e);
      case _ =>
    }
  }

  // ---------------------------------------------------------------- when a file plays

  // A start that works, or one that asks for playback when the flag is still up.
  predicate Starts(ev: Event) { ev.PlayStarted? || ev.Announced? }

  // Nothing that ends a playback: no stop, no announcement that does not open, no read that fails.
  predicate PlaysOn(ev: Event)
  {
    match ev
    case Offered(_) => true
    case Ticked(e) => e.file.Full?
    case PlayStarted(_) => true
    case Announced(works) => works
    case PlayStopped => false
  }

  lemma {:induction false} RunSplits(bytes: nat, vol: Volume, evs: seq<Event>, ev: Event)
    ensures Run(bytes, vol, evs + [ev]) == Step(bytes, vol, Run(bytes, vol, evs), ev)
  {
    assert (evs + [ev])[..|evs|] == evs;
  }

  // Once a start has worked the file plays at every tick, until a read fails, the playback is stopped,
  // or an announcement does not open. A play command that does not open ends nothing.
  lemma {:induction false} PlaysUntilEnded(bytes: nat, vol: Volume, evs: seq<Event>, start: Event, more: seq<Event>)
    requires Starts(start) && start.works && forall i :: 0 <= i < |more| ==> PlaysOn(more[i])
    ensures Run(bytes, vol, evs + [start] + more).pb.On()
    decreases |more|
  {
    if more == [] {
      assert evs + [start] + more == evs + [start];
      RunSplits(bytes, vol, evs, start);
    } else {
      var front, last := more[..|more| - 1], more[|more| - 1];
      assert evs + [start] + more == (evs + [start] + front) + [last];
      RunSplits(bytes, vol, evs + [start] + front, last);
      PlaysUntilEnded(bytes, vol, evs, start, front);
    }
  }

  // Once it has ended - stopped, or at a tick that could not read - no file plays until the next start.
  lemma {:induction false} SilentUntilStarted(bytes: nat, vol: Volume, evs: seq<Event>, end: Event, more: seq<Event>)
    requires end.PlayStopped? || (end.Ticked? && end.env.file.Short? && Run(bytes, vol, evs).pb.On())
    requires forall i :: 0 <= i < |more| ==> !Starts(more[i])
    ensures Run(bytes, vol, evs + [end] + more).pb == STOPPED
    decreases |more|
  {
    if more == [] {
      assert evs + [end] + more == evs + [end];
      RunSplits(bytes, vol, evs, end);
    } else {
      var front, last := more[..|more| - 1], more[|more| - 1];
      assert evs + [end] + more == (evs + [end] + front) + [last];
      RunSplits(bytes, vol, evs + [end] + front, last);
      SilentUntilStarted(bytes, vol, evs, end, front);
    }
  }

  // What starts that do not open leave behind: an announcement no handle, so that nothing plays; a play
  // command a handle, which plays if the flag is still up from before.
  lemma FailedStarts(bytes: nat, vol: Volume, s: Stream)
    ensures var pb := Step(bytes, vol, s, Announced(false)).pb; !pb.On() && pb.flag == s.pb.flag
    ensures var pb := Step(bytes, vol, s, PlayStarted(false)).pb; (pb.On() <==> s.pb.flag) && pb.flag == s.pb.flag
  {
  }

  // A file takes precedence and the speaker's frame waits: it is published once the file is over.
  lemma FileDefersSpeaker(bytes: nat, vol: Volume, tune: seq<byte>, voice: seq<byte>, fill: seq<byte>)
    requires bytes > 0 && |tune| == |voice| == |fill| == bytes
    ensures var tick := Env(Full(tune), false, true, false, 0, fill);
            var evs := [PlayStarted(true), Offered(voice), Ticked(tick), Ticked(tick.(file := Short))];
            GoodEvents(bytes, evs) && Run(bytes, vol, evs).published == [(FromFile, tune), (FromSpeaker, voice)]
  {
    var t := Env(Full(tune), false, true, false, 0, fill);
    var e0, e1, e2, e3 := PlayStarted(true), Offered(voice), Ticked(t), Ticked(t.(file := Short));
    assert [e0, e1, e2, e3][..3] == [e0, e1, e2] && [e0, e1, e2][..2] == [e0, e1] && [e0, e1][..1] == [e0] && [e0][..0] == [];
    assert Run(bytes, vol, []) == FRESH;
    var s1 := FRESH.(pb := Playback(true, true));
    var s2 := s1.(buffer := voice, written := voice);
    assert Run(bytes, vol, [e0]) == s1;
    assert [] + voice == voice;
    assert Run(bytes, vol, [e0, e1]) == s2;
    var s3 := Step(bytes, vol, s2, e2);
    assert Run(bytes, vol, [e0, e1, e2]) == s3;
    assert s3.published == [(FromFile, tune)] && s3.buffer == voice && s3.pb.On();
    assert voice[..bytes] == voice;
    assert Run(bytes, vol, [e0, e1, e2, e3]) == Step(bytes, vol, s3, e3);
  }

  predicate NoneLost(ts: seq<Taken>)
  {
    forall k :: 0 <= k < |ts| ==> ts[k].Lost? ==> ts[k].bytes == []
  }

  // Every tick that reads the speaker finds its buffer empty or holding at least a whole frame.
  ghost predicate WholeFrames(bytes: nat, vol: Volume, evs: seq<Event>)
  {
    evs == [] ||
    var front, ev := evs[..|evs| - 1], evs[|evs| - 1];
    var s := Run(bytes, vol, front);
    && WholeFrames(bytes, vol, front)
    && (ev.Ticked? && Reads(s.pb.On(), ev.env) && !ev.env.muted ==> s.buffer == [] || |s.buffer| >= bytes)
  }

  // No byte is lost, neither published nor drained nor buffered, if and only if no tick reads a
  // partial frame.
  lemma {:induction false} NoneLostIff(bytes: nat, vol: Volume, evs: seq<Event>)
    requires GoodEvents(bytes, evs)
    ensures NoneLost(Run(bytes, vol, evs).taken) <==> WholeFrames(bytes, vol, evs)
  {
    if evs == [] {
    } else {
      var front, ev := evs[..|evs| - 1], evs[|evs| - 1];
      NoneLostIff(bytes, vol, front);
      var s := Run(bytes, vol, front);
      if ev.Ticked? {
        var p := Source(bytes, s.pb.On(), s.buffer, ev.env, vol);
        var t := s.taken + [p.taken];
        assert t[|s.taken|] == p.taken;
        assert forall k :: 0 <= k < |s.taken| ==> t[k] == s.taken[k];
      }
    }
  }

  // The speaker's bytes that were published, before volume.
  function Heard(ts: seq<Taken>): seq<byte>
  {
    if ts == [] then []
    else Heard(ts[..|ts| - 1]) + (if ts[|ts| - 1].Live? then ts[|ts| - 1].bytes else [])
  }

  // Every tick that reads the speaker finds its buffer empty, or unmuted with at least a whole frame.
  ghost predicate ReadsWhole(bytes: nat, vol: Volume, evs: seq<Event>)
  {
    evs == [] ||
    var front, ev := evs[..|evs| - 1], evs[|evs| - 1];
    var s := Run(bytes, vol, front);
    && ReadsWhole(bytes, vol, front)
    && (ev.Ticked? && Reads(s.pb.On(), ev.env) ==> s.buffer == [] || (!ev.env.muted && |s.buffer| >= bytes))
  }

  lemma HeardSnoc(ts: seq<Taken>, t: Taken)
    ensures Heard(ts + [t]) == if t.Live? then Heard(ts) + t.bytes else Heard(ts)
  {
    assert (ts + [t])[..|ts|] == ts;
    assert Heard(ts) + [] == Heard(ts);
  }

  lemma LiveMoves(ts: seq<Taken>, buffer: seq<byte>, n: nat, volIdx: int)
    requires n <= |buffer|
    ensures Heard(ts + [Live(buffer[..n], volIdx)]) + buffer[n..] == Heard(ts) + buffer
  {
    HeardSnoc(ts, Live(buffer[..n], volIdx));
    Regroup(Heard(ts), buffer[..n], buffer[n..]);
    assert buffer[..n] + buffer[n..] == buffer;
  }

  lemma HeardTick(bytes: nat, vol: Volume, s: Stream, e: Env)
    requires GoodEnv(bytes, e) && |Heard(s.taken)| + |s.buffer| <= |s.written|
    ensures var s', asked := Step(bytes, vol, s, Ticked(e)), Reads(s.pb.On(), e);
            if asked && s.buffer != [] && (e.muted || |s.buffer| < bytes) then |Heard(s'.taken)| + |s'.buffer| < |s'.written|
            else Heard(s'.taken) + s'.buffer == Heard(s.taken) + s.buffer && s'.written == s.written
  {
    TakenExactly(bytes, s.pb.On(), s.buffer, e, vol);
    var taken := Source(bytes, s.pb.On(), s.buffer, e, vol).taken;
    HeardSnoc(s.taken, taken);
    if taken.Live? { LiveMoves(s.taken, s.buffer, bytes, e.volIdx); }
  }

  // What was accepted is what was heard and what is still buffered, if and only if no tick that read
  // the speaker found it muted with bytes, or a partial frame.
  lemma {:induction false} AllHeardIff(bytes: nat, vol: Volume, evs: seq<Event>)
    requires GoodEvents(bytes, evs)
    ensures var s := Run(bytes, vol, evs);
            && |Heard(s.taken)| + |s.buffer| <= |s.written|
            && (s.written == Heard(s.taken) + s.buffer <==> ReadsWhole(bytes, vol, evs))
            && (!ReadsWhole(bytes, vol, evs) ==> |Heard(s.taken)| + |s.buffer| < |s.written|)
  {
    if evs != [] {
      var front, ev := evs[..|evs| - 1], evs[|evs| - 1];
      AllHeardIff(bytes, vol, front);
      var s := Run(bytes, vol, front);
      match ev
      case Offered(b) =>
        Regroup(Heard(s.taken), s.buffer, b);
      case Ticked(e) => HeardTick(bytes, vol, s, e);
      case _ =>
    }
  }

  // Every write that was accepted is a whole number of frames.
  ghost predicate WholeWrites(bytes: nat, vol: Volume, evs: seq<Event>)
    requires bytes > 0
  {
    evs == [] ||
    var front, ev := evs[..|evs| - 1], evs[|evs| - 1];
    && WholeWrites(bytes, vol, front)
    && (ev.Offered? && Fits(bytes, Run(bytes, vol, front), ev.bytes) ==> |ev.bytes| % bytes == 0)
  }

  lemma {:induction false} WholeWritesStayWhole(bytes: nat, vol: Volume, evs: seq<Event>)
    requires bytes > 0 && GoodEvents(bytes, evs) && WholeWrites(bytes, vol, evs)
    ensures |Run(bytes, vol, evs).buffer| % bytes == 0 && WholeFrames(bytes, vol, evs)
  {
    if evs == [] {
      SmallRemainder(0, bytes);
    } else {
      var front, ev := evs[..|evs| - 1], evs[|evs| - 1];
      WholeWritesStayWhole(bytes, vol, front);
      var s := Run(bytes, vol, front);
      if ev.Offered? {
        if Fits(bytes, s, ev.bytes) { SumOfMultiples(|s.buffer|, |ev.bytes|, bytes); }
      } else if ev.Ticked? {
        Multiples(|s.buffer|, bytes);
        SmallRemainder(0, bytes);
      }
    }
  }

  lemma Multiples(a: nat, n: nat)
    requires n > 0 && a % n == 0
    ensures a == 0 || (a >= n && (a - n) % n == 0)
  {
    SmallRemainder(a, n);
    if a > 0 {
      ShiftSlot(a - n, n);
    }
  }

  lemma SmallRemainder(a: nat, n: nat)
    requires n > 0
    ensures a < n ==> a % n == a
  {
  }

  lemma {:induction false} SumOfMultiples(a: nat, b: nat, n: nat)
    requires n > 0 && a % n == 0 && b % n == 0
    ensures (a + b) % n == 0
    decreases b
  {
    Multiples(b, n);
    if b > 0 {
      SumOfMultiples(a, b - n, n);
      ShiftSlot(a + (b - n), n);
    }
  }

  predicate NeverMuted(evs: seq<Event>) { forall i :: 0 <= i < |evs| && evs[i].Ticked? ==> !evs[i].env.muted }

  lemma {:induction false} UnmutedReadsWhole(bytes: nat, vol: Volume, evs: seq<Event>)
    requires NeverMuted(evs) && WholeFrames(bytes, vol, evs)
    ensures ReadsWhole(bytes, vol, evs)
  {
    if evs != [] {
      assert NeverMuted(evs[..|evs| - 1]);
      UnmutedReadsWhole(bytes, vol, evs[..|evs| - 1]);
    }
  }

  // When every accepted write is a whole number of frames, nothing is lost; and if the speaker is never
  // muted either, everything it wrote was heard or is still buffered.
  lemma WholeWritesLoseNothing(bytes: nat, vol: Volume, evs: seq<Event>)
    requires bytes > 0 && GoodEvents(bytes, evs) && WholeWrites(bytes, vol, evs)
    ensures var s := Run(bytes, vol, evs);
            NoneLost(s.taken) && (NeverMuted(evs) ==> s.written == Heard(s.taken) + s.buffer)
  {
    WholeWritesStayWhole(bytes, vol, evs);
    NoneLostIff(bytes, vol, evs);
    if NeverMuted(evs) {
      UnmutedReadsWhole(bytes, vol, evs);
      AllHeardIff(bytes, vol, evs);
    }
  }

  // Without that, one odd byte is enough: it is read by a tick that then publishes silence.
  lemma OddByteIsLost(bytes: nat, vol: Volume, fill: seq<byte>)
    requires bytes >= 2 && |fill| == bytes
    ensures var evs := [Offered([7]), Ticked(Env(Short, false, true, false, 0, fill))];
            GoodEvents(bytes, evs) && Run(bytes, vol, evs).taken == [Lost([7])]
  {
    var w, t := Offered([7]), Ticked(Env(Short, false, true, false, 0, fill));
    assert [w, t][..1] == [w];
    assert [w][..0] == [];
    assert Run(bytes, vol, []) == FRESH && [] + [7 as byte] == [7];
    var s := Run(bytes, vol, [w]);
    assert s == FRESH.(buffer := [7], written := [7]);
    assert s.buffer[..1] == [7];
    assert Run(bytes, vol, [w, t]) == Step(bytes, vol, s, t);
  }
}
