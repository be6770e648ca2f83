/**
 A recorder beside the producer and a listener, at the granularity of single loads and stores. It too
 compares the slot number before it copies and never after, and nothing bounds its lag. A copy is right
 while fewer than ring-size frames from its cursor on have been published, and not beyond.
 */
module TornRecording {
  import opened Ring
  import opened TornRead
  import opened TornTicks

  // A recording counts samples per channel, two bytes each.
  predicate Whole(c: Config, channels: nat) { c.Good() && c.bytes == c.samples * 2 * channels }

  // Program counter of the recorder; each state names its next load. `p0` is the producer_seq it woke
  // up with.
  datatype Writer =
    | Off
    | Sleeping
    | LoadSlotNumber(p0: nat)
    | LoadCount(p0: nat)
    | Copying(p0: nat, buf: seq<byte>, done: set<nat>)

  // What was written to the file for frame `number`, and how far the producer was by then.
  datatype Written = Written(number: nat, pEnd: nat, data: seq<byte>)

  datatype RecState = RecState(room: State, pc: Writer, start: nat, next: nat, file: seq<Written>)

  datatype RecAction =
    | Others(a: Action)     // anything the producer or the listener does
    | Begins              // the recording starts at the producer's number
    | RecLoad             // the recorder's next load, or the end of a pass or a copy
    | RecLoadByte(k: nat)

  function RecInit(c: Config): RecState { RecState(TornRead.Init(c), Off, 0, 0, []) }

  function RecCell(c: Config, s: RecState): Cell
    requires c.Good() && Sized(c, s.room)
  {
    s.room.ring[s.next % c.ringSize]
  }

  predicate RecEnabled(c: Config, channels: nat, s: RecState, x: RecAction)
  {
    Whole(c, channels) && Sized(c, s.room) &&
    match x
    case Others(a) => Enabled(c, s.room, a)
    case Begins => s.pc.Off?
    case RecLoad => !s.pc.Off? && (s.pc.Copying? ==> s.pc.done == Indices(|s.pc.buf|))
    case RecLoadByte(k) => s.pc.Copying? && k < |s.pc.buf| <= MAX_FRAME_BYTES && k !in s.pc.done
  }

  function RecDoLoad(c: Config, channels: nat, s: RecState): RecState
    requires RecEnabled(c, channels, s, RecLoad)
  {
    match s.pc
    case Sleeping => s.(pc := LoadSlotNumber(s.room.pseq))
    case LoadSlotNumber(p0) =>
      if s.next >= p0 then s.(pc := Sleeping)
      else if RecCell(c, s).number == s.next then s.(pc := LoadCount(p0))
      else s.(next := s.next + 1)
    case LoadCount(p0) => s.(pc := Copying(p0, Zeros(RecCell(c, s).samples * 2 * channels), {}))
    case Copying(p0, buf, _) =>
      s.(pc := LoadSlotNumber(p0), next := s.next + 1, file := s.file + [Written(s.next, s.room.pseq, buf)])
  }

  function RecApply(c: Config, channels: nat, s: RecState, x: RecAction): RecState
    requires RecEnabled(c, channels, s, x)
  {
    match x
    case Others(a) => s.(room := Apply(c, s.room, a))
    case Begins => s.(pc := Sleeping, start := s.room.pseq, next := s.room.pseq)
    case RecLoad => RecDoLoad(c, channels, s)
    case RecLoadByte(k) => s.(pc := s.pc.(buf := s.pc.buf[k := RecCell(c, s).data[k]], done := s.pc.done + {k}))
  }

  predicate RecLegal(c: Config, channels: nat, s: RecState, xs: seq<RecAction>)
    decreases |xs|
  {
    xs == [] || (RecEnabled(c, channels, s, xs[0]) && RecLegal(c, channels, RecApply(c, channels, s, xs[0]), xs[1..]))
  }

  function RecExec(c: Config, channels: nat, s: RecState, xs: seq<RecAction>): RecState
    requires RecLegal(c, channels, s, xs)
    decreases |xs|
  {
    if xs == [] then s else RecExec(c, channels, RecApply(c, channels, s, xs[0]), xs[1..])
  }

  // The producer is never more than k frames past the recorder's cursor.
  predicate Within(c: Config, channels: nat, s: RecState, xs: seq<RecAction>, k: nat)
    requires RecLegal(c, channels, s, xs)
    decreases |xs|
  {
    && (!s.pc.Off? ==> s.room.pseq <= s.next + k)
    && (xs == [] || Within(c, channels, RecApply(c, channels, s, xs[0]), xs[1..], k))
  }

  // ---------------------------------------------------------------- what every step keeps

  ghost predicate CopyRight(log: seq<Frame>, w: Written) { w.number < |log| && w.data == log[w.number].data }

  // What has been copied of the frame at the cursor is right, within the margin.
  ghost predicate PcRight(c: Config, s: RecState)
  {
    match s.pc
    case Off => true
    case Sleeping => true
    case LoadSlotNumber(p0) => p0 <= s.room.pseq
    case LoadCount(p0) => s.next < p0 <= s.room.pseq
    case Copying(p0, buf, done) =>
      && s.next < p0 <= s.room.pseq
      && (InMargin(c, s.next, s.room.pseq) && s.next < |s.room.log| ==>
            |buf| == |s.room.log[s.next].data| && forall k :: k in done ==> k < |buf| && buf[k] == s.room.log[s.next].data[k])
  }

  ghost predicate FileInMargin(c: Config, s: RecState)
  {
    && (forall i :: 0 <= i < |s.file| ==> s.start <= s.file[i].number < s.next)
    && (forall i, j :: 0 <= i < j < |s.file| ==> s.file[i].number < s.file[j].number)
    && (forall i :: 0 <= i < |s.file| && InMargin(c, s.file[i].number, s.file[i].pEnd) ==> CopyRight(s.room.log, s.file[i]))
  }

  ghost predicate RecInv(c: Config, s: RecState)
  {
    && Inv(c, s.room) && (s.pc.Off? ==> s.file == []) && s.start <= s.next <= s.room.pseq
    && PcRight(c, s) && FileInMargin(c, s)
  }

  // Within the margin the slot at the cursor carries its frame.
  lemma CursorCarries(c: Config, s: RecState)
    requires Inv(c, s.room) && s.next < s.room.pseq && InMargin(c, s.next, s.room.pseq)
    ensures Carries(c, RecCell(c, s), s.next, s.room.log[s.next]) && Shaped(c, s.room.log[s.next])
  {
    assert Intact(c, s.room, s.next);
  }

  // The log only grows, and so does the producer's number.
  lemma RoomGrows(c: Config, s: State, a: Action)
    requires Inv(c, s) && Enabled(c, s, a)
    ensures var s' := Apply(c, s, a);
            Inv(c, s') && s.log <= s'.log && s.pseq <= s'.pseq
  {
    StepInv(c, s, a);
  }

  lemma RoomStepInv(c: Config, channels: nat, s: RecState, a: Action)
    requires RecInv(c, s) && RecEnabled(c, channels, s, Others(a))
    ensures RecInv(c, RecApply(c, channels, s, Others(a)))
  {
    RoomGrows(c, s.room, a);
  }

  lemma LoadInv(c: Config, channels: nat, s: RecState)
    requires RecInv(c, s) && RecEnabled(c, channels, s, RecLoad)
    ensures RecInv(c, RecApply(c, channels, s, RecLoad))
  {
    match s.pc
    case LoadCount(p0) =>
      if InMargin(c, s.next, s.room.pseq) { CursorCarries(c, s); }
    case Copying(p0, buf, done) =>
      if InMargin(c, s.next, s.room.pseq) { WholeCopy(s.room.log[s.next].data, buf, done); }
    case _ =>
  }

  lemma WholeCopy(data: seq<byte>, buf: seq<byte>, done: set<nat>)
    requires |buf| == |data| && done == Indices(|buf|) && forall k :: k in done ==> k < |buf| && buf[k] == data[k]
    ensures buf == data
  {
    assert forall k: nat :: k < |buf| ==> k in done;
  }

  lemma ByteInv(c: Config, channels: nat, s: RecState, k: nat)
    requires RecInv(c, s) && RecEnabled(c, channels, s, RecLoadByte(k))
    ensures RecInv(c, RecApply(c, channels, s, RecLoadByte(k)))
  {
    if InMargin(c, s.next, s.room.pseq) { CursorCarries(c, s); }
  }

  lemma RecStepInv(c: Config, channels: nat, s: RecState, x: RecAction)
    requires RecInv(c, s) && RecEnabled(c, channels, s, x)
    ensures RecInv(c, RecApply(c, channels, s, x))
  {
    match x
    case Others(a) => RoomStepInv(c, channels, s, a);
    case Begins =>
    case RecLoad => LoadInv(c, channels, s);
    case RecLoadByte(k) => ByteInv(c, channels, s, k);
  }

  lemma {:induction false} RecExecInv(c: Config, channels: nat, s: RecState, xs: seq<RecAction>)
    requires RecInv(c, s) && RecLegal(c, channels, s, xs)
    ensures RecInv(c, RecExec(c, channels, s, xs))
    decreases |xs|
  {
    if xs != [] {
      RecStepInv(c, channels, s, xs[0]);
      RecExecInv(c, channels, RecApply(c, channels, s, xs[0]), xs[1..]);
    }
  }

  // In every interleaving: numbers in the file rise, and each frame that was copied before ring-size
  // frames from it on were published is the very frame of its number.
  lemma CopiesInMargin(c: Config, channels: nat, xs: seq<RecAction>)
    requires c.Good() && RecLegal(c, channels, RecInit(c), xs)
    ensures var s := RecExec(c, channels, RecInit(c), xs);
            && (forall i, j :: 0 <= i < j < |s.file| ==> s.file[i].number < s.file[j].number)
            && (forall i :: 0 <= i < |s.file| && s.file[i].pEnd < s.file[i].number + c.ringSize ==> CopyRight(s.room.log, s.file[i]))
  {
    InitInv(c);
    RecExecInv(c, channels, RecInit(c), xs);
  }

  // ---------------------------------------------------------------- the bound, and why it is tight

  // The file is the log from the start of the recording to its cursor.
  ghost predicate FileIsLog(s: RecState)
  {
    && |s.file| == s.next - s.start
    && (forall i :: 0 <= i < |s.file| ==> s.file[i].number == s.start + i && CopyRight(s.room.log, s.file[i]))
  }

  lemma StepFile(c: Config, channels: nat, s: RecState, x: RecAction)
    requires RecInv(c, s) && FileIsLog(s) && RecEnabled(c, channels, s, x)
    requires !s.pc.Off? ==> InMargin(c, s.next, s.room.pseq)
    ensures FileIsLog(RecApply(c, channels, s, x))
  {
    match x
    case Others(a) => RoomGrows(c, s.room, a);
    case RecLoad =>
      LoadInv(c, channels, s);
      if s.pc.LoadSlotNumber? && s.next < s.pc.p0 { CursorCarries(c, s); }
    case _ =>
  }

  lemma {:induction false} ExecFile(c: Config, channels: nat, s: RecState, xs: seq<RecAction>, k: nat)
    requires RecInv(c, s) && FileIsLog(s) && RecLegal(c, channels, s, xs) && Within(c, channels, s, xs, k) && k < c.ringSize
    ensures FileIsLog(RecExec(c, channels, s, xs))
    decreases |xs|
  {
    if xs != [] {
      StepFile(c, channels, s, xs[0]);
      RecStepInv(c, channels, s, xs[0]);
      ExecFile(c, channels, RecApply(c, channels, s, xs[0]), xs[1..], k);
    }
  }

  lemma {:induction false} RecSnoc(c: Config, channels: nat, s: RecState, xs: seq<RecAction>, x: RecAction, k: nat)
    requires RecLegal(c, channels, s, xs) && RecEnabled(c, channels, RecExec(c, channels, s, xs), x)
    requires Within(c, channels, s, xs, k)
    requires var t := RecApply(c, channels, RecExec(c, channels, s, xs), x); !t.pc.Off? ==> t.room.pseq <= t.next + k
    ensures RecLegal(c, channels, s, xs + [x]) && Within(c, channels, s, xs + [x], k)
    ensures RecExec(c, channels, s, xs + [x]) == RecApply(c, channels, RecExec(c, channels, s, xs), x)
    decreases |xs|
  {
    if xs == [] {
      assert xs + [x] == [x] && [x][1..] == [];
      assert RecLegal(c, channels, RecApply(c, channels, s, x), [x][1..]);
    } else {
      assert (xs + [x])[0] == xs[0] && (xs + [x])[1..] == xs[1..] + [x];
      RecSnoc(c, channels, RecApply(c, channels, s, xs[0]), xs[1..], x, k);
    }
  }

  // A run under construction: legal from the start, and never more than ring-size frames ahead.
  ghost predicate Path(c: Config, channels: nat, xs: seq<RecAction>, s: RecState)
  {
    && c.Good() && RecLegal(c, channels, RecInit(c), xs) && Within(c, channels, RecInit(c), xs, c.ringSize)
    && RecExec(c, channels, RecInit(c), xs) == s
  }

  lemma Go(c: Config, channels: nat, xs: seq<RecAction>, s: RecState, x: RecAction) returns (xs': seq<RecAction>)
    requires Path(c, channels, xs, s) && RecEnabled(c, channels, s, x)
    requires var t := RecApply(c, channels, s, x); !t.pc.Off? ==> t.room.pseq <= t.next + c.ringSize
    ensures Path(c, channels, xs', RecApply(c, channels, s, x))
  {
    RecSnoc(c, channels, RecInit(c), xs, x, c.ringSize);
    xs' := xs + [x];
  }

  lemma {:induction false} NumberGrows(c: Config, s: State, acts: seq<Action>)
    requires Inv(c, s) && Legal(c, s, acts)
    ensures s.pseq <= Exec(c, s, acts).pseq
    decreases |acts|
  {
    if acts != [] {
      RoomGrows(c, s, acts[0]);
      NumberGrows(c, Apply(c, s, acts[0]), acts[1..]);
    }
  }

  // The room goes on by itself.
  lemma {:induction false} GoRoom(c: Config, channels: nat, xs: seq<RecAction>, s: RecState, acts: seq<Action>)
    returns (xs': seq<RecAction>)
    requires Path(c, channels, xs, s) && Whole(c, channels) && Inv(c, s.room) && Legal(c, s.room, acts)
    requires Exec(c, s.room, acts).pseq <= s.next + c.ringSize
    ensures Path(c, channels, xs', s.(room := Exec(c, s.room, acts)))
    decreases |acts|
  {
    if acts == [] {
      xs' := xs;
    } else {
      RoomGrows(c, s.room, acts[0]);
      NumberGrows(c, Apply(c, s.room, acts[0]), acts[1..]);
      xs' := Go(c, channels, xs, s, Others(acts[0]));
      xs' := GoRoom(c, channels, xs', s.(room := Apply(c, s.room, acts[0])), acts[1..]);
    }
  }

  // The recorder copies the first n bytes.
  lemma {:induction false} CopySlot(c: Config, channels: nat, xs: seq<RecAction>, s: RecState, n: nat)
    returns (xs': seq<RecAction>, t: RecState)
    requires Path(c, channels, xs, s) && Whole(c, channels) && Sized(c, s.room) && s.room.pseq <= s.next + c.ringSize
    requires s.pc.Copying? && s.pc.done == {} && n <= |s.pc.buf| <= MAX_FRAME_BYTES
    ensures Path(c, channels, xs', t) && t.pc.Copying? && |t.pc.buf| == |s.pc.buf|
    ensures t == s.(pc := s.pc.(buf := t.pc.buf, done := Indices(n)))
    ensures n > 0 ==> t.pc.buf[0] == RecCell(c, s).data[0]
  {
    if n == 0 {
      xs', t := xs, s;
      assert Indices(0) == {};
    } else {
      xs', t := CopySlot(c, channels, xs, s, n - 1);
      xs' := Go(c, channels, xs', t, RecLoadByte(n - 1));
      t := RecApply(c, channels, t, RecLoadByte(n - 1));
      assert Indices(n - 1) + {n - 1} == Indices(n);
    }
  }

  // First leg of the tearing run: the ring is full of unrecorded frames and the recorder passes its
  // number check.
  lemma FallBehind(c: Config, channels: nat) returns (xs: seq<RecAction>, s: RecState)
    requires Whole(c, channels)
    ensures Path(c, channels, xs, s) && Inv(c, s.room) && s.room.prod.Ready? && s.room.pseq == c.ringSize
    ensures s.pc == Copying(c.ringSize, Zeros(c.bytes), {}) && s.start == s.next == 0 && s.file == []
    ensures s.room.log != [] && s.room.log[0] == Plain(c, 0)
  {
    xs, s := [], RecInit(c);
    InitInv(c);
    xs := Go(c, channels, xs, s, Begins);
    s := RecApply(c, channels, s, Begins);
    var acts := PublishMany(c, s.room, Plain(c, 0), c.ringSize);
    ExecInv(c, s.room, acts);
    xs := GoRoom(c, channels, xs, s, acts);
    s := s.(room := Exec(c, s.room, acts));
    assert Intact(c, s.room, 0);
    ZeroSlot(c.ringSize);
    xs := Go(c, channels, xs, s, RecLoad);
    s := RecApply(c, channels, s, RecLoad);
    xs := Go(c, channels, xs, s, RecLoad);
    s := RecApply(c, channels, s, RecLoad);
    xs := Go(c, channels, xs, s, RecLoad);
    s := RecApply(c, channels, s, RecLoad);
  }

  // A run in which the producer is never more than ring-size frames ahead and a torn frame is recorded,
  // although not a single publish ends during the copy.
  lemma TornFile(c: Config, channels: nat) returns (xs: seq<RecAction>)
    requires Whole(c, channels) && c.bytes >= 1
    ensures RecLegal(c, channels, RecInit(c), xs) && Within(c, channels, RecInit(c), xs, c.ringSize)
    ensures !FileIsLog(RecExec(c, channels, RecInit(c), xs))
  {
    var s;
    xs, s := FallBehind(c, channels);
    var acts := Fill(c, s.room, Plain(c, 1), 1);
    ExecInv(c, s.room, acts);
    xs := GoRoom(c, channels, xs, s, acts);
    s := s.(room := Exec(c, s.room, acts));
    ZeroSlot(c.ringSize);
    assert 0 in Indices(1) && s.room.ring[0].data[0] == 1;
    xs, s := CopySlot(c, channels, xs, s, c.bytes);
    xs := Go(c, channels, xs, s, RecLoad);
    s := RecApply(c, channels, s, RecLoad);
    assert s.file[0].data[0] == 1 && s.room.log[0].data[0] == 0;
  }

  lemma {:induction false} WithinMore(c: Config, channels: nat, s: RecState, xs: seq<RecAction>, k: nat, k': nat)
    requires RecLegal(c, channels, s, xs) && Within(c, channels, s, xs, k) && k <= k'
    ensures Within(c, channels, s, xs, k')
    decreases |xs|
  {
    if xs != [] {
      WithinMore(c, channels, RecApply(c, channels, s, xs[0]), xs[1..], k, k');
    }
  }

  // Every run in which the producer stays within k frames of the recorder's cursor records the log from
  // its start on, whole and untorn.
  ghost predicate RecordsWithin(c: Config, channels: nat, k: nat)
  {
    forall xs {:trigger RecLegal(c, channels, RecInit(c), xs)} ::
      RecLegal(c, channels, RecInit(c), xs) && Within(c, channels, RecInit(c), xs, k) ==>
        FileIsLog(RecExec(c, channels, RecInit(c), xs))
  }

  // The recording's bound, exactly.
  lemma RecordingBound(c: Config, channels: nat, k: nat)
    requires Whole(c, channels) && c.bytes >= 1
    ensures RecordsWithin(c, channels, k) <==> k < c.ringSize
  {
    if k < c.ringSize {
      forall xs {:trigger RecLegal(c, channels, RecInit(c), xs)} |
        RecLegal(c, channels, RecInit(c), xs) && Within(c, channels, RecInit(c), xs, k)
        ensures FileIsLog(RecExec(c, channels, RecInit(c), xs))
      {
        InitInv(c);
        ExecFile(c, channels, RecInit(c), xs, k);
      }
    } else {
      var xs := TornFile(c, channels);
      WithinMore(c, channels, RecInit(c), xs, c.ringSize, k);
      assert RecLegal(c, channels, RecInit(c), xs);
    }
  }

  // ---------------------------------------------------------------- starting, and a pass with the producer idle

  lemma {:induction false} StartStays(c: Config, channels: nat, s: RecState, xs: seq<RecAction>)
    requires !s.pc.Off? && RecLegal(c, channels, s, xs)
    ensures RecExec(c, channels, s, xs).start == s.start && !RecExec(c, channels, s, xs).pc.Off?
    decreases |xs|
  {
    if xs != [] { StartStays(c, channels, RecApply(c, channels, s, xs[0]), xs[1..]); }
  }

  // A recording starts with the frame that is published next, whatever happens afterwards.
  lemma StartsAtProducer(c: Config, channels: nat, s: RecState, xs: seq<RecAction>)
    requires RecInv(c, s) && RecLegal(c, channels, s, [Begins] + xs)
    ensures RecExec(c, channels, s, [Begins] + xs).start == |s.room.log|
  {
    assert ([Begins] + xs)[1..] == xs;
    StartStays(c, channels, RecApply(c, channels, s, Begins), xs);
  }

  // The recorder alone moves, from one sleep to the next.
  predicate OnePass(c: Config, channels: nat, s: RecState, xs: seq<RecAction>)
    requires RecLegal(c, channels, s, xs)
    decreases |xs|
  {
    xs == [] ||
    (&& (xs[0].RecLoad? || xs[0].RecLoadByte?)
     && (|xs| > 1 ==> !RecApply(c, channels, s, xs[0]).pc.Sleeping?)
     && OnePass(c, channels, RecApply(c, channels, s, xs[0]), xs[1..]))
  }

  // The log from lo to hi as it is written while the producer is at p.
  function Entries(log: seq<Frame>, lo: nat, hi: nat, p: nat): seq<Written>
    requires hi <= |log|
  {
    if lo >= hi then [] else seq(hi - lo, k requires 0 <= k < hi - lo => Written(lo + k, p, log[lo + k].data))
  }

  // The oldest frame the pass can still get.
  function OldestLeft(c: Config, s: RecState): nat
  {
    if s.room.pseq <= s.next + c.ringSize then s.next else s.room.pseq - c.ringSize
  }

  // x is s in the middle of its pass.
  ghost predicate AmidPass(c: Config, s: RecState, x: RecState)
  {
    && s.room.pseq == |s.room.log| && x == s.(pc := x.pc, next := x.next, file := x.file)
    && s.next <= x.next <= s.room.pseq
    && x.file == s.file + Entries(s.room.log, OldestLeft(c, s), x.next, s.room.pseq)
    && !x.pc.Off? && !x.pc.Sleeping? && x.pc.p0 == s.room.pseq
    && (x.pc.LoadCount? || x.pc.Copying? ==> OldestLeft(c, s) <= x.next < s.room.pseq)
    && (x.pc.Copying? ==>
          var data := s.room.log[x.next].data;
          |x.pc.buf| == |data| && forall k :: k in x.pc.done ==> k < |data| && x.pc.buf[k] == data[k])
  }

  lemma EntriesSnoc(log: seq<Frame>, lo: nat, hi: nat, p: nat)
    requires hi < |log|
    ensures Entries(log, lo, hi + 1, p) == Entries(log, lo, hi, p) + (if lo <= hi then [Written(hi, p, log[hi].data)] else [])
  {
  }

  lemma AmidTest(c: Config, channels: nat, s: RecState, x: RecState, p0: nat)
    requires RingInv(c, s.room) && s.room.prod.Ready? && AmidPass(c, s, x) && x.pc == LoadSlotNumber(p0)
    requires RecEnabled(c, channels, x, RecLoad) && x.next < p0
    ensures AmidPass(c, s, RecApply(c, channels, x, RecLoad))
  {
    IdleSlot(c, s.room, x.next);
    EntriesSnoc(s.room.log, OldestLeft(c, s), x.next, s.room.pseq);
    assert OldestLeft(c, s) <= x.next <==> s.room.pseq - x.next <= c.ringSize;
  }

  lemma AmidCount(c: Config, channels: nat, s: RecState, x: RecState)
    requires RingInv(c, s.room) && s.room.prod.Ready? && AmidPass(c, s, x) && x.pc.LoadCount?
    requires RecEnabled(c, channels, x, RecLoad)
    ensures AmidPass(c, s, RecApply(c, channels, x, RecLoad))
  {
    IdleSlot(c, s.room, x.next);
  }

  lemma AmidWrite(c: Config, channels: nat, s: RecState, x: RecState)
    requires AmidPass(c, s, x) && x.pc.Copying? && RecEnabled(c, channels, x, RecLoad)
    ensures AmidPass(c, s, RecApply(c, channels, x, RecLoad))
  {
    WholeCopy(s.room.log[x.next].data, x.pc.buf, x.pc.done);
    EntriesSnoc(s.room.log, OldestLeft(c, s), x.next, s.room.pseq);
  }

  lemma AmidByte(c: Config, channels: nat, s: RecState, x: RecState, k: nat)
    requires RingInv(c, s.room) && s.room.prod.Ready? && AmidPass(c, s, x) && RecEnabled(c, channels, x, RecLoadByte(k))
    ensures AmidPass(c, s, RecApply(c, channels, x, RecLoadByte(k)))
  {
    IdleSlot(c, s.room, x.next);
  }

  lemma {:induction false} RestOfPass(c: Config, channels: nat, s: RecState, x: RecState, xs: seq<RecAction>)
    requires RingInv(c, s.room) && s.room.prod.Ready? && AmidPass(c, s, x)
    requires RecLegal(c, channels, x, xs) && OnePass(c, channels, x, xs) && RecExec(c, channels, x, xs).pc.Sleeping?
    ensures var t := RecExec(c, channels, x, xs);
            t.next == s.room.pseq && t.file == s.file + Entries(s.room.log, OldestLeft(c, s), s.room.pseq, s.room.pseq)
    decreases |xs|
  {
    var x' := RecApply(c, channels, x, xs[0]);
    if x.pc.LoadSlotNumber? && x.next >= x.pc.p0 {
      assert x'.pc.Sleeping? && |xs| == 1;
      assert xs[1..] == [];
    } else {
      match xs[0] {
        case RecLoadByte(k) => AmidByte(c, channels, s, x, k);
        case RecLoad =>
          match x.pc {
            case LoadSlotNumber(p0) => AmidTest(c, channels, s, x, p0);
            case LoadCount(_) => AmidCount(c, channels, s, x);
            case Copying(_, _, _) => AmidWrite(c, channels, s, x);
          }
      }
      RestOfPass(c, channels, s, x', xs[1..]);
    }
  }

  // With the producer idle from one sleep to the next, the loads have the outcome of
  // Recorder.DrainIsLogTail: the pass writes the frames from max(cursor, P - ringSize) on, in order,
  // and leaves the cursor at P.
  lemma IdlePass(c: Config, channels: nat, s: RecState, xs: seq<RecAction>)
    requires RingInv(c, s.room) && s.room.prod.Ready? && s.pc.Sleeping? && s.next <= s.room.pseq
    requires xs != [] && RecLegal(c, channels, s, xs) && OnePass(c, channels, s, xs)
    requires RecExec(c, channels, s, xs).pc.Sleeping?
    ensures var t := RecExec(c, channels, s, xs);
            t.next == s.room.pseq && t.file == s.file + Entries(s.room.log, OldestLeft(c, s), s.room.pseq, s.room.pseq)
  {
    var x := RecApply(c, channels, s, xs[0]);
    assert s.file + [] == s.file;
    assert AmidPass(c, s, x);
    RestOfPass(c, channels, s, x, xs[1..]);
  }

  // What is left to do of a pass.
  function PassWork(x: RecState): int
  {
    match x.pc
    case Off => 0
    case Sleeping => 0
    case LoadSlotNumber(p0) => 1 + (p0 - x.next) * (MAX_FRAME_BYTES + 3)
    case LoadCount(p0) => (p0 - x.next) * (MAX_FRAME_BYTES + 3)
    case Copying(p0, buf, done) => 2 + |buf| - |done| + (p0 - x.next - 1) * (MAX_FRAME_BYTES + 3)
  }

  // As long as the recorder is not back asleep it has a next load, and each leaves less to do: every
  // pass comes to its end.
  lemma PassGoesOn(c: Config, channels: nat, s: RecState, x: RecState) returns (a: RecAction)
    requires Whole(c, channels) && RingInv(c, s.room) && s.room.prod.Ready? && AmidPass(c, s, x)
    ensures (a.RecLoad? || a.RecLoadByte?) && RecEnabled(c, channels, x, a)
    ensures 0 <= PassWork(RecApply(c, channels, x, a)) < PassWork(x)
  {
    if x.next < s.room.pseq { IdleSlot(c, s.room, x.next); }
    if x.pc.Copying? && x.pc.done != Indices(|x.pc.buf|) {
      var k := MissingIndex(x.pc.done, |x.pc.buf|);
      a := RecLoadByte(k);
      CountIndices(x.pc.done + {k}, |x.pc.buf|);
    } else {
      a := RecLoad;
      if x.pc.Copying? { CountIndices(x.pc.done, |x.pc.buf|); }
    }
  }
}
