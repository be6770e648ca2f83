/**
 The locks and thread joins of every thread of the module as programs over lock regions. The programs
 respect one strict rank and join only empty-handed, and from that no set of threads can wait for one
 another, whatever they have run so far.
 */
module LockOrder {

  datatype Lock =
    | HashLock | ConfigLock | ControlMutex | SpeakerLock | ListenerLock | RecordingLock | AudioInMutex
    | EventMutex | IdMutex | PlayMutex | MohMutex

  // The last four are leaves: nothing is taken inside them.
  function Rank(l: Lock): int
  {
    match l
    case HashLock => 0
    case ConfigLock => 1
    case ControlMutex => 2
    case SpeakerLock => 3
    case ListenerLock => 4
    case RecordingLock => 5
    case AudioInMutex => 6
    case EventMutex => 7
    case IdMutex => 7
    case PlayMutex => 7
    case MohMutex => 7
  }

  const NONE: int := -1   // no lock is held
  const JOINER: int := -2 // no lock is held and threads may be joined

  datatype Kind = Session | ApiCall | Unload | Producer | Input | Writer | Emitter | Housekeeper

  // ---------------------------------------------------------------- programs

  // The functions of the module that take locks, join threads or call one that does, cut into parts.
  datatype Name = Basic(b: BasicPart) | Large(l: LargePart) | Entry(e: EntryPart)

  datatype BasicPart =
    | Enqueue | FindMember | FireEvent
    | StopInput | SpeakerSet | SetSpeaker | ClearIfCurrent | HandleDtmf | WaitTurn | MainWait | OnStage
    | Insert | ListenerAdd | ListenerDel | ListenerTick | ListenerRun
    | RecordStarted | RecordStart | CloseRecorder | RecordStop

  datatype LargePart =
    | AutoRecord | Created | Publish | Create | FindOrCreate | SpeakerEntry | SpeakerWay | ListenerStay
    | ListenerWay | Membership | AppFunction
    | Announce | Grace | MarkRoom | SilenceRoom | PollMembers | WaitOut | CloseRoom | LastSteps
    | EmptyRoom | Destroy | DestroyNext | DestroyAll | Shutdown

  datatype EntryPart =
    | FindTwice | FindPinned | RequestPromotion | Promote | Kick | KickAll | KickCommand | Info
    | MemberCommand | FlagCommand | RecordCommand | SpeakerCommand | RoomCommand | Command | RoomCall
    | ListRooms | RoomStats | GlobalCommand | Dispatch
    | ReadSpeaker | FillSilence | PickSource | ProducerTick | ProducerRun | InputFrame | InputRun
    | FireNext | DrainRoom | EmitterPass | EmitterRun | Heartbeat | InspectRoom | HousePass | Housekeeping

  // What a thread does about locks: regions under a lock, joins of threads of some kind, calls,
  // sequence, choice and repetition.
  datatype Prog =
    | Region(lock: Lock) | Under(lock: Lock, body: Prog) | Join(kind: Kind) | Call(name: Name)
    | Maybe(body: Prog) | Seq(a: Prog, b: Prog) | Alt(a: Prog, b: Prog) | Star(body: Prog)

  function BasicBody(n: BasicPart): Prog
  {
    match n
    // events and lookups
    case Enqueue => Maybe(Region(EventMutex))
    case FindMember => Seq(Region(ListenerLock), Maybe(Region(SpeakerLock)))
    case FireEvent => Maybe(Call(Basic(FindMember)))
    // the stage
    case StopInput => Maybe(Join(Input))
    case SpeakerSet => Maybe(Seq(Call(Basic(FireEvent)), Call(Basic(StopInput))))
    case SetSpeaker => Maybe(Seq(Region(SpeakerLock), Call(Basic(SpeakerSet))))
    case ClearIfCurrent => Seq(Region(SpeakerLock), Call(Basic(StopInput)))
    case HandleDtmf => Maybe(Under(ConfigLock, Call(Basic(Enqueue))))
    case WaitTurn => Seq(Star(Call(Basic(HandleDtmf))), Region(SpeakerLock))
    case MainWait => Seq(Star(Call(Basic(WaitTurn))), Seq(Region(SpeakerLock), Call(Basic(SetSpeaker))))
    case OnStage => Seq(Call(Basic(SetSpeaker)), Maybe(Call(Basic(MainWait))))
    // the listener list and the bridge
    case Insert => Under(ListenerLock, Maybe(Region(IdMutex)))
    case ListenerAdd => Maybe(Seq(Call(Basic(Insert)), Call(Basic(Enqueue))))
    case ListenerDel => Under(ListenerLock, Call(Basic(Enqueue)))
    case ListenerTick => Seq(Star(Call(Basic(HandleDtmf))), Call(Basic(Enqueue)))
    case ListenerRun => Star(Call(Basic(ListenerTick)))
    // recordings
    case RecordStarted => Alt(Region(RecordingLock), Call(Basic(Enqueue)))
    case RecordStart => Maybe(Seq(Region(RecordingLock), Call(Basic(RecordStarted))))
    case CloseRecorder => Seq(Maybe(Join(Writer)), Call(Basic(Enqueue)))
    case RecordStop => Seq(Region(RecordingLock), Star(Call(Basic(CloseRecorder))))
  }

  function LargeBody(n: LargePart): Prog
  {
    match n
    // a session in the application
    case AutoRecord => Seq(Call(Basic(RecordStart)), Call(Basic(Enqueue)))
    case Created => Maybe(Seq(Call(Basic(FireEvent)), Call(Large(AutoRecord))))
    case Publish => Seq(Region(HashLock), Call(Large(Created)))
    case Create => Seq(Region(ConfigLock), Maybe(Call(Large(Publish))))
    case FindOrCreate => Seq(Region(HashLock), Maybe(Call(Large(Create))))
    case SpeakerEntry => Seq(Region(IdMutex), Call(Basic(OnStage)))
    case SpeakerWay => Seq(Region(SpeakerLock), Maybe(Call(Large(SpeakerEntry))))
    case ListenerStay => Seq(Call(Basic(ListenerRun)), Alt(Call(Basic(OnStage)), Call(Basic(ListenerDel))))
    case ListenerWay => Seq(Call(Basic(ListenerAdd)), Maybe(Call(Large(ListenerStay))))
    case Membership => Seq(Alt(Call(Large(SpeakerWay)), Call(Large(ListenerWay))), Maybe(Call(Basic(ClearIfCurrent))))
    case AppFunction => Seq(Call(Large(FindOrCreate)), Maybe(Call(Large(Membership))))
    // destroying a room
    case Announce => Seq(Maybe(Region(PlayMutex)), Region(PlayMutex))
    case Grace => Seq(Call(Basic(Enqueue)), Call(Large(Announce)))
    case MarkRoom => Seq(Region(ControlMutex), Maybe(Call(Large(Grace))))
    case SilenceRoom => Seq(Region(ControlMutex), Seq(Region(PlayMutex), Region(MohMutex)))
    case PollMembers => Seq(Region(ListenerLock), Region(SpeakerLock))
    case WaitOut => Seq(Region(ListenerLock), Star(Call(Large(PollMembers))))
    case CloseRoom => Seq(Maybe(Join(Producer)), Seq(Region(HashLock), Call(Basic(FireEvent))))
    case LastSteps => Seq(Call(Large(WaitOut)), Call(Large(CloseRoom)))
    case EmptyRoom => Seq(Call(Basic(RecordStop)), Seq(Call(Basic(ClearIfCurrent)), Call(Large(LastSteps))))
    case Destroy => Seq(Call(Large(MarkRoom)), Seq(Call(Large(SilenceRoom)), Call(Large(EmptyRoom))))
    case DestroyNext => Seq(Region(HashLock), Maybe(Call(Large(Destroy))))
    case DestroyAll => Seq(Star(Call(Large(DestroyNext))), Region(ConfigLock))
    case Shutdown => Seq(Maybe(Join(Emitter)), Call(Large(DestroyAll)))
  }

  function EntryBody(n: EntryPart): Prog
  {
    match n
    // an API call
    case FindTwice => Seq(Call(Basic(FindMember)), Maybe(Call(Basic(FindMember))))
    case FindPinned => Maybe(Call(Entry(FindTwice)))
    case RequestPromotion => Seq(Region(ListenerLock), Maybe(Call(Basic(ListenerAdd))))
    case Promote => Seq(Call(Entry(FindPinned)), Maybe(Call(Entry(RequestPromotion))))
    case Kick => Seq(Call(Entry(FindPinned)), Call(Basic(Enqueue)))
    case KickAll => Under(ListenerLock, Star(Call(Basic(Enqueue))))
    case KickCommand => Alt(Call(Entry(Kick)), Call(Entry(KickAll)))
    case Info => Seq(Region(SpeakerLock), Seq(Region(RecordingLock), Region(SpeakerLock)))
    case MemberCommand => Alt(Alt(Call(Entry(Info)), Call(Basic(FindMember))), Alt(Call(Entry(Promote)), Call(Entry(KickCommand))))
    case FlagCommand => Seq(Region(ControlMutex), Call(Basic(Enqueue)))
    case RecordCommand => Alt(Call(Basic(RecordStart)), Call(Basic(RecordStop)))
    case SpeakerCommand => Alt(Call(Basic(SetSpeaker)), Call(Large(Destroy)))
    case RoomCommand => Alt(Alt(Call(Entry(FlagCommand)), Region(PlayMutex)), Alt(Call(Entry(RecordCommand)), Call(Entry(SpeakerCommand))))
    case Command => Alt(Call(Entry(MemberCommand)), Call(Entry(RoomCommand)))
    case RoomCall => Seq(Region(HashLock), Maybe(Call(Entry(Command))))
    case ListRooms => Under(HashLock, Star(Region(SpeakerLock)))
    case RoomStats => Under(HashLock, Star(Region(ListenerLock)))
    case GlobalCommand => Alt(Maybe(Region(ConfigLock)), Alt(Call(Entry(ListRooms)), Call(Entry(RoomStats))))
    case Dispatch => Alt(Call(Entry(GlobalCommand)), Call(Entry(RoomCall)))
    // the other threads
    case ReadSpeaker => Under(SpeakerLock, Maybe(Region(AudioInMutex)))
    case FillSilence => Maybe(Region(MohMutex))
    case PickSource => Seq(Region(PlayMutex), Seq(Call(Entry(ReadSpeaker)), Call(Entry(FillSilence))))
    case ProducerTick => Seq(Call(Basic(Enqueue)), Call(Entry(PickSource)))
    case ProducerRun => Star(Call(Entry(ProducerTick)))
    case InputFrame => Seq(Star(Call(Basic(Enqueue))), Region(AudioInMutex))
    case InputRun => Star(Call(Entry(InputFrame)))
    case FireNext => Seq(Call(Basic(FireEvent)), Region(EventMutex))
    case DrainRoom => Seq(Region(EventMutex), Star(Call(Entry(FireNext))))
    case EmitterPass => Under(HashLock, Star(Call(Entry(DrainRoom))))
    case EmitterRun => Star(Call(Entry(EmitterPass)))
    case Heartbeat => Seq(Region(SpeakerLock), Call(Basic(Enqueue)))
    case InspectRoom => Seq(Maybe(Call(Entry(Heartbeat))), Region(ListenerLock))
    case HousePass => Under(HashLock, Star(Call(Entry(InspectRoom))))
    case Housekeeping => Star(Call(Entry(HousePass)))
  }

  function Body(n: Name): Prog
  {
    match n
    case Basic(b) => BasicBody(b)
    case Large(l) => LargeBody(l)
    case Entry(e) => EntryBody(e)
  }

  function BasicLevel(n: BasicPart): int
  {
    match n
    case HandleDtmf | WaitTurn | ListenerTick | ListenerRun => 0
    case FindMember | FireEvent => 2
    case Insert | ListenerAdd | ListenerDel => 3
    case RecordStarted | RecordStart => 4
    case Enqueue => 6
    case _ => JOINER
  }

  function LargeLevel(n: LargePart): int
  {
    match n
    case Publish | Create | FindOrCreate => NONE
    case MarkRoom | SilenceRoom => 1
    case Created | PollMembers | WaitOut => 2
    case AutoRecord => 4
    case Announce | Grace => 6
    case _ => JOINER
  }

  function EntryLevel(n: EntryPart): int
  {
    match n
    case ListRooms | RoomStats | GlobalCommand | EmitterPass | EmitterRun | HousePass | Housekeeping => NONE
    case FlagCommand => 1
    case FindTwice | FindPinned | Promote | Kick | KickCommand | Info | MemberCommand | ReadSpeaker |
      PickSource | ProducerTick | ProducerRun | FireNext | DrainRoom | Heartbeat | InspectRoom => 2
    case RequestPromotion | KickAll => 3
    case InputFrame | InputRun => 5
    case FillSilence => 6
    case _ => JOINER
  }

  // The highest rank that may be held when the part is called.
  function Level(n: Name): int
  {
    match n
    case Basic(b) => BasicLevel(b)
    case Large(l) => LargeLevel(l)
    case Entry(e) => EntryLevel(e)
  }

  // Kinds of thread that are joined at all.
  predicate Joined(k: Kind) { k.Producer? || k.Input? || k.Writer? || k.Emitter? }

  // Locks nest in strictly rising rank above `top`, joins are of such kinds and only where they are
  // allowed, calls respect the callee's level.
  predicate Ordered(p: Prog, top: int)
  {
    match p
    case Region(l) => Rank(l) > top
    case Under(l, body) => Rank(l) > top && Ordered(body, Rank(l))
    case Join(k) => top == JOINER && Joined(k)
    case Call(n) => top <= Level(n)
    case Maybe(body) => Ordered(body, top)
    case Seq(a, b) => Ordered(a, top) && Ordered(b, top)
    case Alt(a, b) => Ordered(a, top) && Ordered(b, top)
    case Star(body) => Ordered(body, top)
  }

  lemma BasicOrdered(n: BasicPart)
    ensures Ordered(BasicBody(n), BasicLevel(n))
  {
  }

  lemma Large0Ordered(n: LargePart)
    requires n.AutoRecord? || n.Created? || n.Publish? || n.Create? || n.FindOrCreate? || n.SpeakerEntry? || n.SpeakerWay?
      || n.ListenerStay? || n.ListenerWay? || n.Membership? || n.AppFunction? || n.Announce? ||
      n.Grace?
    ensures Ordered(LargeBody(n), LargeLevel(n))
  {
  }

  lemma Large1Ordered(n: LargePart)
    requires n.MarkRoom? || n.SilenceRoom? || n.PollMembers? || n.WaitOut? || n.CloseRoom? || n.LastSteps? ||
      n.EmptyRoom? || n.Destroy? || n.DestroyNext? || n.DestroyAll? || n.Shutdown?
    ensures Ordered(LargeBody(n), LargeLevel(n))
  {
  }

  lemma Entry0Ordered(n: EntryPart)
    requires n.FindTwice? || n.FindPinned? || n.RequestPromotion? || n.Promote? || n.Kick? || n.KickAll? ||
      n.KickCommand? || n.Info? || n.MemberCommand?
    ensures Ordered(EntryBody(n), EntryLevel(n))
  {
  }

  lemma Entry1Ordered(n: EntryPart)
    requires n.FlagCommand? || n.RecordCommand? || n.SpeakerCommand? || n.RoomCommand? || n.Command? ||
      n.RoomCall? || n.ListRooms? || n.RoomStats? || n.GlobalCommand?
    ensures Ordered(EntryBody(n), EntryLevel(n))
  {
  }

  lemma Entry2Ordered(n: EntryPart)
    requires n.Dispatch? || n.ReadSpeaker? || n.FillSilence? || n.PickSource? || n.ProducerTick? ||
      n.ProducerRun? || n.InputFrame? || n.InputRun? || n.FireNext?
    ensures Ordered(EntryBody(n), EntryLevel(n))
  {
  }

  lemma Entry3Ordered(n: EntryPart)
    requires n.DrainRoom? || n.EmitterPass? || n.EmitterRun? || n.Heartbeat? || n.InspectRoom? ||
      n.HousePass? || n.Housekeeping?
    ensures Ordered(EntryBody(n), EntryLevel(n))
  {
  }

  lemma LargeOrdered(n: LargePart)
    ensures Ordered(LargeBody(n), LargeLevel(n))
  {
    match n
    case AutoRecord | Created | Publish | Create | FindOrCreate | SpeakerEntry | SpeakerWay | ListenerStay |
      ListenerWay | Membership | AppFunction | Announce | Grace => Large0Ordered(n);
    case MarkRoom | SilenceRoom | PollMembers | WaitOut | CloseRoom | LastSteps | EmptyRoom | Destroy |
      DestroyNext | DestroyAll | Shutdown => Large1Ordered(n);
  }

  lemma EntryOrdered(n: EntryPart)
    ensures Ordered(EntryBody(n), EntryLevel(n))
  {
    match n
    case FindTwice | FindPinned | RequestPromotion | Promote | Kick | KickAll | KickCommand | Info |
      MemberCommand => Entry0Ordered(n);
    case FlagCommand | RecordCommand | SpeakerCommand | RoomCommand | Command | RoomCall | ListRooms |
      RoomStats | GlobalCommand => Entry1Ordered(n);
    case Dispatch | ReadSpeaker | FillSilence | PickSource | ProducerTick | ProducerRun | InputFrame |
      InputRun | FireNext => Entry2Ordered(n);
    case DrainRoom | EmitterPass | EmitterRun | Heartbeat | InspectRoom | HousePass | Housekeeping => Entry3Ordered(n);
  }

  // Every part keeps to it.
  lemma BodiesOrdered(n: Name)
    ensures Ordered(Body(n), Level(n)) && Level(n) >= JOINER
  {
    match n
    case Basic(b) => BasicOrdered(b);
    case Large(l) => LargeOrdered(l);
    case Entry(e) => EntryOrdered(e);
  }

  // ---------------------------------------------------------------- traces

  // Locks and threads come in instances: one speaker_lock a room, one audio_in_mutex a member.
  datatype Op = Take(lock: Lock, inst: nat) | Drop(lock: Lock, inst: nat) | Await(kind: Kind, who: nat)

  ghost predicate IsTrace(p: Prog, depth: nat, tr: seq<Op>)
    decreases depth, p, |tr|
  {
    match p
    case Region(l) => |tr| == 2 && tr[0].Take? && tr[0].lock == l && tr[1] == Drop(l, tr[0].inst)
    case Maybe(body) => tr == [] || IsTrace(body, depth, tr)
    case Under(l, body) =>
      && |tr| >= 2 && tr[0].Take? && tr[0].lock == l && tr[|tr| - 1] == Drop(l, tr[0].inst)
      && IsTrace(body, depth, tr[1..|tr| - 1])
    case Call(n) => depth > 0 && IsTrace(Body(n), depth - 1, tr)
    case Join(k) => |tr| == 1 && tr[0].Await? && tr[0].kind == k
    case Seq(a, b) => exists n :: 0 <= n <= |tr| && IsTrace(a, depth, tr[..n]) && IsTrace(b, depth, tr[n..])
    case Alt(a, b) => IsTrace(a, depth, tr) || IsTrace(b, depth, tr)
    case Star(body) => tr == [] || exists n :: 1 <= n <= |tr| && IsTrace(body, depth, tr[..n]) && IsTrace(p, depth, tr[n..])
  }

  type Locks = set<(Lock, nat)>

  function Then(held: Locks, op: Op): Locks
  {
    match op
    case Take(l, i) => held + {(l, i)}
    case Drop(l, i) => held - {(l, i)}
    case Await(_, _) => held
  }

  function After(held: Locks, tr: seq<Op>): Locks
    decreases |tr|
  {
    if tr == [] then held else After(Then(held, tr[0]), tr[1..])
  }

  predicate OpOk(held: Locks, op: Op)
  {
    match op
    case Take(l, i) => forall x :: x in held ==> Rank(x.0) < Rank(l)
    case Drop(l, i) => (l, i) in held
    case Await(_, _) => held == {}
  }

  predicate Disciplined(held: Locks, tr: seq<Op>)
    decreases |tr|
  {
    tr == [] || (OpOk(held, tr[0]) && Disciplined(Then(held, tr[0]), tr[1..]))
  }

  lemma {:induction false} Concat(held: Locks, a: seq<Op>, b: seq<Op>)
    ensures After(held, a + b) == After(After(held, a), b)
    ensures Disciplined(held, a + b) <==> Disciplined(held, a) && Disciplined(After(held, a), b)
    decreases |a|
  {
    if a == [] {
      assert a + b == b;
    } else {
      assert (a + b)[0] == a[0] && (a + b)[1..] == a[1..] + b;
      Concat(Then(held, a[0]), a[1..], b);
    }
  }

  // The two parts of a trace give back what they take; so does the trace.
  lemma BothSound(held: Locks, tr: seq<Op>, n: nat)
    requires n <= |tr| && Disciplined(held, tr[..n]) && After(held, tr[..n]) == held
    requires Disciplined(held, tr[n..]) && After(held, tr[n..]) == held
    ensures Disciplined(held, tr) && After(held, tr) == held
  {
    Concat(held, tr[..n], tr[n..]);
    assert tr == tr[..n] + tr[n..];
  }

  lemma SoundRegion(l: Lock, top: int, held: Locks, tr: seq<Op>)
    requires Rank(l) > top && IsTrace(Region(l), 0, tr)
    requires forall x :: x in held ==> Rank(x.0) <= top
    ensures Disciplined(held, tr) && After(held, tr) == held
  {
    var x := (l, tr[0].inst);
    assert x !in held && held + {x} - {x} == held;
    assert tr[1..] == [Drop(l, tr[0].inst)] && tr[1..][1..] == [];
    assert After(held + {x}, tr[1..]) == After(held, []);
  }

  lemma SoundJoin(k: Kind, held: Locks, tr: seq<Op>)
    requires IsTrace(Join(k), 0, tr) && forall x :: x in held ==> Rank(x.0) <= JOINER
    ensures Disciplined(held, tr) && After(held, tr) == held
  {
    assert forall x :: x in held ==> Rank(x.0) >= 0;
    assert tr[1..] == [];
  }

  // Every trace of an ordered program keeps the discipline and ends with the locks it began with.
  lemma {:induction false} Sound(p: Prog, top: int, depth: nat, held: Locks, tr: seq<Op>)
    requires Ordered(p, top) && IsTrace(p, depth, tr) && top >= JOINER
    requires forall x :: x in held ==> Rank(x.0) <= top
    ensures Disciplined(held, tr) && After(held, tr) == held
    decreases depth, p, |tr|, 1
  {
    match p
    case Region(l) => SoundRegion(l, top, held, tr);
    case Under(l, body) => SoundUnder(l, body, top, depth, held, tr);
    case Join(k) => SoundJoin(k, held, tr);
    case Maybe(body) =>
      if tr != [] { Sound(body, top, depth, held, tr); }
    case Call(n) =>
      BodiesOrdered(n);
      Sound(Body(n), Level(n), depth - 1, held, tr);
    case Seq(a, b) => SoundSeq(a, b, top, depth, held, tr);
    case Alt(a, b) =>
      if IsTrace(a, depth, tr) { Sound(a, top, depth, held, tr); } else { Sound(b, top, depth, held, tr); }
    case Star(body) =>
      if tr != [] { SoundStar(body, top, depth, held, tr); }
  }

  lemma {:induction false} SoundSeq(a: Prog, b: Prog, top: int, depth: nat, held: Locks, tr: seq<Op>)
    requires Ordered(Seq(a, b), top) && IsTrace(Seq(a, b), depth, tr) && top >= JOINER
    requires forall x :: x in held ==> Rank(x.0) <= top
    ensures Disciplined(held, tr) && After(held, tr) == held
    decreases depth, Seq(a, b), |tr|, 0
  {
    var n :| 0 <= n <= |tr| && IsTrace(a, depth, tr[..n]) && IsTrace(b, depth, tr[n..]);
    Sound(a, top, depth, held, tr[..n]);
    Sound(b, top, depth, held, tr[n..]);
    BothSound(held, tr, n);
  }

  lemma {:induction false} SoundStar(body: Prog, top: int, depth: nat, held: Locks, tr: seq<Op>)
    requires Ordered(Star(body), top) && IsTrace(Star(body), depth, tr) && top >= JOINER && tr != []
    requires forall x :: x in held ==> Rank(x.0) <= top
    ensures Disciplined(held, tr) && After(held, tr) == held
    decreases depth, Star(body), |tr|, 0
  {
    var n :| 1 <= n <= |tr| && IsTrace(body, depth, tr[..n]) && IsTrace(Star(body), depth, tr[n..]);
    Sound(body, top, depth, held, tr[..n]);
    Sound(Star(body), top, depth, held, tr[n..]);
    BothSound(held, tr, n);
  }

  lemma {:induction false} SoundUnder(l: Lock, body: Prog, top: int, depth: nat, held: Locks, tr: seq<Op>)
    requires Ordered(Under(l, body), top) && IsTrace(Under(l, body), depth, tr) && top >= JOINER
    requires forall x :: x in held ==> Rank(x.0) <= top
    ensures Disciplined(held, tr) && After(held, tr) == held
    decreases depth, Under(l, body), |tr|, 0
  {
    var x, mid, end := (l, tr[0].inst), tr[1..|tr| - 1], [tr[|tr| - 1]];
    Sound(body, Rank(l), depth, held + {x}, mid);
    Concat(held + {x}, mid, end);
    assert tr[1..] == mid + end && end[1..] == [];
    assert held + {x} - {x} == held;
  }

  lemma {:induction false} JoinsOnly(p: Prog, top: int, depth: nat, tr: seq<Op>, i: nat)
    requires Ordered(p, top) && IsTrace(p, depth, tr) && top >= JOINER && i < |tr| && tr[i].Await?
    ensures top == JOINER && Joined(tr[i].kind)
    decreases depth, p, |tr|
  {
    match p
    case Join(k) =>
    case Maybe(body) =>
      JoinsOnly(body, top, depth, tr, i);
    case Call(n) =>
      BodiesOrdered(n);
      JoinsOnly(Body(n), Level(n), depth - 1, tr, i);
    case Under(l, body) =>
      JoinsOnly(body, Rank(l), depth, tr[1..|tr| - 1], i - 1);
    case Seq(a, b) =>
      var n :| 0 <= n <= |tr| && IsTrace(a, depth, tr[..n]) && IsTrace(b, depth, tr[n..]);
      if i < n { JoinsOnly(a, top, depth, tr[..n], i); } else { JoinsOnly(b, top, depth, tr[n..], i - n); }
    case Alt(a, b) =>
      if IsTrace(a, depth, tr) { JoinsOnly(a, top, depth, tr, i); } else { JoinsOnly(b, top, depth, tr, i); }
    case Star(body) =>
      var n :| 1 <= n <= |tr| && IsTrace(body, depth, tr[..n]) && IsTrace(p, depth, tr[n..]);
      if i < n { JoinsOnly(body, top, depth, tr[..n], i); } else { JoinsOnly(p, top, depth, tr[n..], i - n); }
  }

  // ---------------------------------------------------------------- threads in the middle of their work

  // What a thread of each kind runs.
  function Main(k: Kind): Name
  {
    match k
    case Session => Large(AppFunction)
    case ApiCall => Entry(Dispatch)
    case Unload => Large(Shutdown)
    case Producer => Entry(ProducerRun)
    case Input => Entry(InputRun)
    case Writer => Basic(Enqueue)
    case Emitter => Entry(EmitterRun)
    case Housekeeper => Entry(Housekeeping)
  }

  // A thread that has done the first `done` steps of a trace of its program.
  datatype Thread = Thread(kind: Kind, trace: seq<Op>, done: nat)

  ghost predicate Running(th: Thread) { (exists depth :: IsTrace(Body(Main(th.kind)), depth, th.trace)) && th.done <= |th.trace| }

  predicate Finished(th: Thread) { th.done >= |th.trace| }

  function Held(th: Thread): Locks
    requires th.done <= |th.trace|
  {
    After({}, th.trace[..th.done])
  }

  type Threads = map<nat, Thread>

  ghost predicate AllRunning(ts: Threads) { forall t :: t in ts ==> Running(ts[t]) }

  // t's next step waits for u: to let go of a lock, or to end.
  predicate Waits(ts: Threads, t: nat, u: nat)
    requires t in ts && u in ts && ts[t].done <= |ts[t].trace| && ts[u].done <= |ts[u].trace|
  {
    && t != u && !Finished(ts[t])
    && match ts[t].trace[ts[t].done]
       case Take(l, i) => (l, i) in Held(ts[u])
       case Drop(_, _) => false
       case Await(k, who) => who == u && ts[u].kind == k && !Finished(ts[u])
  }

  lemma WholeTrace(n: Name, depth: nat, tr: seq<Op>)
    requires IsTrace(Body(n), depth, tr)
    ensures Disciplined({}, tr) && After({}, tr) == {}
    ensures forall i :: 0 <= i < |tr| && tr[i].Await? ==> Level(n) == JOINER && Joined(tr[i].kind)
  {
    BodiesOrdered(n);
    Sound(Body(n), Level(n), depth, {}, tr);
    forall i | 0 <= i < |tr| && tr[i].Await? ensures Level(n) == JOINER && Joined(tr[i].kind) {
      JoinsOnly(Body(n), Level(n), depth, tr, i);
    }
  }

  lemma NextOk(th: Thread)
    requires Running(th)
    ensures !Finished(th) ==> OpOk(Held(th), th.trace[th.done])
    ensures Finished(th) ==> Held(th) == {}
    ensures !Finished(th) && th.trace[th.done].Await? ==> !Joined(th.kind) && Joined(th.trace[th.done].kind)
  {
    var tr := th.trace;
    var depth :| IsTrace(Body(Main(th.kind)), depth, tr);
    WholeTrace(Main(th.kind), depth, tr);
    Concat({}, tr[..th.done], tr[th.done..]);
    assert tr == tr[..th.done] + tr[th.done..];
  }

  // How far a thread's next step is from one that waits for nobody.
  function Distance(th: Thread): int
    requires th.done <= |th.trace|
    ensures Distance(th) >= 0
  {
    if Finished(th) then 0
    else
      match th.trace[th.done]
      case Take(l, _) => 8 - Rank(l)
      case Drop(_, _) => 0
      case Await(_, _) => 9
  }

  lemma WaitCloser(ts: Threads, t: nat, u: nat)
    requires AllRunning(ts) && t in ts && u in ts && Waits(ts, t, u)
    ensures Distance(ts[u]) < Distance(ts[t])
  {
    NextOk(ts[t]);
    NextOk(ts[u]);
  }

  // Follow the waiting from t: it ends at a thread that waits for nobody in S.
  lemma {:induction false} FindFree(ts: Threads, S: set<nat>, t: nat) returns (f: nat)
    requires AllRunning(ts) && S <= ts.Keys && t in S
    ensures f in S && forall u :: u in S ==> !Waits(ts, f, u)
    decreases Distance(ts[t])
  {
    if u :| u in S && Waits(ts, t, u) {
      WaitCloser(ts, t, u);
      f := FindFree(ts, S, u);
    } else {
      f := t;
    }
  }

  // No set of threads, wherever each is in its program, waits for one another.
  lemma NoWaitCycle(ts: Threads, S: set<nat>)
    requires AllRunning(ts) && S <= ts.Keys && S != {}
    ensures exists f :: f in S && forall u :: u in S ==> !Waits(ts, f, u)
  {
    var t :| t in S;
    var f := FindFree(ts, S, t);
  }

  // t can take its next step: the lock is in nobody else's hands, or the thread it joins has ended.
  predicate CanStep(ts: Threads, t: nat)
    requires t in ts && forall u :: u in ts ==> ts[u].done <= |ts[u].trace|
  {
    && !Finished(ts[t])
    && match ts[t].trace[ts[t].done]
       case Take(l, i) => forall u :: u in ts && u != t ==> (l, i) !in Held(ts[u])
       case Drop(_, _) => true
       case Await(k, who) => who in ts && ts[who].kind == k && who != t ==> Finished(ts[who])
  }

  // A thread with work left that cannot take its next step waits for another one, and the other way
  // round.
  lemma BlockedIffWaits(ts: Threads, t: nat)
    requires AllRunning(ts) && t in ts && !Finished(ts[t])
    ensures !CanStep(ts, t) <==> exists u :: u in ts && Waits(ts, t, u)
  {
    match ts[t].trace[ts[t].done]
    case Take(l, i) =>
      if u :| u in ts && u != t && (l, i) in Held(ts[u]) { assert Waits(ts, t, u); }
    case Drop(_, _) =>
    case Await(k, who) =>
      if who in ts && ts[who].kind == k && who != t && !Finished(ts[who]) { assert Waits(ts, t, who); }
  }

  // So as long as some thread has work left, one that has can take its next step.
  lemma SomeoneMoves(ts: Threads)
    requires AllRunning(ts) && exists t :: t in ts && !Finished(ts[t])
    ensures exists f :: f in ts && CanStep(ts, f)
  {
    var S := set t | t in ts && !Finished(ts[t]);
    var t :| t in ts && !Finished(ts[t]);
    assert t in S;
    NoWaitCycle(ts, S);
    var f :| f in S && forall u :: u in S ==> !Waits(ts, f, u);
    forall u | u in ts ensures !Waits(ts, f, u) {
      NextOk(ts[u]);
    }
    BlockedIffWaits(ts, f);
  }
}
