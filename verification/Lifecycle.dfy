/**
 Members, API calls, the destroyer, the producer and the threads that walk the room table, as one step
 relation over one room. Each lock region is one step, and so is each atomic load or store that a
 decision hangs on. Any thread may move next, so a run is any sequence of steps.

 What is taken for granted: the room table lookup with its reference, and the table insert with the
 seed of the reference count, are one step each; listener timers open; one thread destroys the room,
 and its ten-second waits end by their condition and not by the clock.
 */
module Lifecycle {
  import opened Options

  type Tid = nat // a thread; a member goes by the session thread that runs the application for it
  type Sid = nat // a session; its pool holds the members that were made in it

  // `atomicRollback`: a promotion that times out looks at the bridge flag and puts the member back on
  // the list in one step.
  datatype Config = Config(maxListeners: nat, speakerOverride: bool, atomicRollback: bool)

  datatype Role = AsSpeaker | AsListener

  // Where a session thread is in the application.
  datatype Place =
    | Creating(role: Role) | Entering(role: Role) | Refused
    | Claiming | Naming | Taking(promoted: bool) | OnAir | Leaving | Clearing // the speaker's way
    | Adding | Inserting | Added | InBridge | OffBridge | Unlisting           // the listener's way
    | LastClear | Releasing

  // Where an API call is. A lookup goes through the listeners and then the speaker (`Up`), twice: for
  // the session, and once that is pinned for the member. `first` is the member found the first time.
  datatype Request =
    | Idle
    | Looking(id: nat) | LookingUp(id: nat)
    | Seen(id: nat, sid: Sid, first: Tid)
    | Pinned(id: nat, sid: Sid, first: Tid) | PinnedUp(id: nat, sid: Sid, first: Tid)
    | Held(id: nat, m: Tid, sid: Sid, first: Tid)
    | Asked(m: Tid, sid: Sid) | Unlinked(m: Tid, sid: Sid) | Awaiting(m: Tid, sid: Sid)
    | Expired(m: Tid, sid: Sid) | ReAdding(m: Tid, sid: Sid)

  // What the destroyer has done so far. `was` is the speaker it took down.
  datatype Stage =
    | Marked | Down | Dropped(was: Option<Tid>) | Emptied(was: Option<Tid>) | Silenced(was: Option<Tid>)
    | Drained | Alone | Stopped | Joined | Unhashed

  datatype Pc =
    | Absent
    | Member(at: Place)
    | Caller(req: Request)
    | Destroyer(stage: Stage)
    | Walker // emitter, housekeeping or an API listing, holding the table's read lock
    | Returned

  datatype Producer = NoProducer | Running | Exited

  datatype Reader = TheProducer | Thread(t: Tid)

  datatype Room = Room(made: bool, inHash: bool, destruct: bool, destroyed: bool, freed: bool,
                       producer: Producer, producerRun: bool)

  datatype State = State(
    pc: map<Tid, Pc>,
    sess: map<Tid, Sid>,                // member -> its session
    ids: map<Tid, nat>, nextId: nat,    // member ids given out
    gone: set<Sid>,                     // sessions whose pool is freed
    listed: set<Tid>,                   // the listener list
    wants: set<Tid>,                    // members flagged for promotion
    speaker: Option<Tid>,               // current_speaker
    readers: map<Reader, Option<Tid>>,  // who holds speaker_lock to read, and the pointer it saw
    liveRefs: int,
    room: Room)

  const INIT := State(map[], map[], map[], 0, {}, {}, {}, None, map[], 0,
                      Room(false, false, false, false, false, NoProducer, false))

  function At(pc: map<Tid, Pc>, t: Tid): Pc { if t in pc then pc[t] else Absent }

  predicate IsAt(s: State, t: Tid, p: Place) { At(s.pc, t) == Member(p) }

  function Move(s: State, t: Tid, p: Pc): State { s.(pc := s.pc[t := p]) }

  function Go(s: State, t: Tid, p: Place): State { Move(s, t, Member(p)) }

  function Grant(s: State, t: Tid, p: Pc): State { s.(pc := s.pc[t := p], liveRefs := s.liveRefs + 1) }

  function Release(s: State, t: Tid): State { s.(pc := s.pc[t := Returned], liveRefs := s.liveRefs - 1) }

  // Name the member unless it has an id.
  function Name(s: State, m: Tid): State
  {
    if m in s.ids then s else s.(ids := s.ids[m := s.nextId + 1], nextId := s.nextId + 1)
  }

  // The room can be found and referenced.
  predicate Open(r: Room) { r.inHash && !r.destroyed && !r.destruct }

  // Nobody reads under speaker_lock: the condition for taking it to write.
  predicate NoReaders(s: State) { s.readers == map[] }

  // The thread has a reference to the room.
  predicate Holds(p: Pc) { (p.Member? && !p.at.Creating?) || p.Caller? || p.Destroyer? }

  // Between publishing itself and clearing the stage.
  predicate OnStage(p: Pc) { p.Member? && (p.at.OnAir? || p.at.Leaving? || p.at.Clearing?) }

  // in_speaker_wait is certainly up. It is raised some time after the publication, on the way into the
  // wait loop, so that OnAir stands for both.
  predicate InWait(p: Pc) { p == Member(Leaving) || p == Member(Clearing) }

  // ---------------------------------------------------------------- a session thread

  // The session lives and its thread is not in the application.
  predicate SessionFree(s: State, sid: Sid)
  {
    sid !in s.gone && forall u :: u in s.sess && s.sess[u] == sid ==> At(s.pc, u) == Returned
  }

  function Enter(s: State, t: Tid, sid: Sid, role: Role, exclusive: bool): Option<State>
  {
    if At(s.pc, t) != Absent || !SessionFree(s, sid) then None
    else
      var s1 := s.(sess := s.sess[t := sid]);
      if Open(s.room) then Some(Grant(s1, t, Member(if exclusive then Refused else Entering(role))))
      else Some(Go(s1, t, Creating(role)))
  }

  // Fails when the name is taken, there are too many rooms or no thread starts.
  function Create(s: State, t: Tid, ok: bool): Option<State>
  {
    var p := At(s.pc, t);
    if !(p.Member? && p.at.Creating?) then None
    else if ok && !s.room.made then
      Some(Grant(s, t, Member(Entering(p.at.role))).(room := s.room.(made := true, inHash := true, producer := Running, producerRun := true)))
    else Some(Move(s, t, Returned))
  }

  function Prepare(s: State, t: Tid, ok: bool): Option<State>
  {
    var p := At(s.pc, t);
    if !(p.Member? && p.at.Entering?) then None
    else Some(Go(s, t, if !ok then Refused else if p.at.role == AsSpeaker then Claiming else Adding))
  }

  function Claim(c: Config, s: State, t: Tid): Option<State>
  {
    if !IsAt(s, t, Claiming) then None
    else Some(Go(s, t, if s.speaker.Some? && s.speaker != Some(t) && !c.speakerOverride then Refused else Naming))
  }

  function TakeId(s: State, t: Tid): Option<State>
  {
    if !IsAt(s, t, Naming) then None else Some(Go(Name(s, t), t, Taking(false)))
  }

  // set_speaker, which runs on the member's own thread; it can fail before it publishes.
  function Take(s: State, t: Tid, ok: bool): Option<State>
  {
    var p := At(s.pc, t);
    if !(p.Member? && p.at.Taking?) then None
    else if !ok then Some(Go(s, t, if p.at.promoted then LastClear else Refused))
    else if NoReaders(s) then Some(Go(s, t, OnAir).(speaker := Some(t)))
    else None
  }

  function Leave(s: State, t: Tid): Option<State>
  {
    if !IsAt(s, t, OnAir) then None else Some(Go(s, t, Leaving))
  }

  // Am I still installed?
  function Test(s: State, t: Tid): Option<State>
  {
    if !IsAt(s, t, Leaving) then None else Some(Go(s, t, if s.speaker == Some(t) then Clearing else LastClear))
  }

  // Clears whoever is installed by now.
  function Clear(s: State, t: Tid): Option<State>
  {
    if IsAt(s, t, Clearing) && NoReaders(s) then Some(Go(s, t, LastClear).(speaker := None)) else None
  }

  function AddCheck(s: State, t: Tid, locked: bool): Option<State>
  {
    if !IsAt(s, t, Adding) then None else Some(Go(s, t, if s.room.destroyed || locked then Refused else Inserting))
  }

  function AddLocked(c: Config, s: State, t: Tid): Option<State>
  {
    if !IsAt(s, t, Inserting) then None
    else if |s.listed| >= c.maxListeners then Some(Go(s, t, Refused))
    else Some(Go(Name(s, t), t, Added).(listed := s.listed + {t}))
  }

  function Cross(s: State, t: Tid): Option<State>
  {
    if !IsAt(s, t, Added) then None else Some(Go(s, t, InBridge))
  }

  function Exit(s: State, t: Tid): Option<State>
  {
    if !IsAt(s, t, InBridge) then None else Some(Go(s, t, OffBridge))
  }

  // Was I promoted?
  function Branch(s: State, t: Tid): Option<State>
  {
    if !IsAt(s, t, OffBridge) then None
    else if t in s.wants then Some(Go(s, t, Taking(true)).(wants := s.wants - {t}))
    else Some(Go(s, t, Unlisting))
  }

  function Unlist(s: State, t: Tid): Option<State>
  {
    if !IsAt(s, t, Unlisting) then None else Some(Go(s, t, LastClear).(listed := s.listed - {t}))
  }

  // Compare and clear in one lock region.
  function FinalClear(s: State, t: Tid): Option<State>
  {
    if IsAt(s, t, LastClear) && NoReaders(s) then
      Some(Go(s, t, Releasing).(speaker := if s.speaker == Some(t) then None else s.speaker))
    else None
  }

  function LetGo(s: State, t: Tid): Option<State>
  {
    if IsAt(s, t, Releasing) || IsAt(s, t, Refused) then Some(Release(s, t)) else None
  }

  // ---------------------------------------------------------------- an API call

  predicate AtRequest(s: State, t: Tid, q: Request) { At(s.pc, t) == Caller(q) && Thread(t) !in s.readers }

  function Ask(s: State, t: Tid, q: Request): State { Move(s, t, Caller(q)) }

  predicate NamedListed(s: State, m: Tid, id: nat) { m in s.listed && m in s.ids && s.ids[m] == id }

  predicate NoneListed(s: State, id: nat) { forall m :: m in s.listed ==> !NamedListed(s, m, id) }

  predicate SpeakerNamed(s: State, id: nat)
  {
    s.speaker.Some? && s.speaker.value in s.ids && s.ids[s.speaker.value] == id
  }

  function Call(s: State, t: Tid): Option<State>
  {
    if At(s.pc, t) != Absent then None
    else if Open(s.room) then Some(Grant(s, t, Caller(Idle)))
    else Some(Move(s, t, Returned))
  }

  function Hangup(s: State, t: Tid): Option<State>
  {
    if !AtRequest(s, t, Idle) then None else Some(Release(s, t))
  }

  function ClearSpeaker(s: State, t: Tid): Option<State>
  {
    if AtRequest(s, t, Idle) && NoReaders(s) then Some(s.(speaker := None)) else None
  }

  function Look(s: State, t: Tid, id: nat): Option<State>
  {
    if !AtRequest(s, t, Idle) then None else Some(if id == 0 then s else Ask(s, t, Looking(id)))
  }

  // The listener scan, which may come upon m.
  function LookListed(s: State, t: Tid, id: nat, m: Option<Tid>): Option<State>
  {
    if !AtRequest(s, t, Looking(id)) then None
    else if m.None? then (if NoneListed(s, id) then Some(Ask(s, t, LookingUp(id))) else None)
    else if NamedListed(s, m.value, id) && m.value in s.sess then Some(Ask(s, t, Seen(id, s.sess[m.value], m.value)))
    else None
  }

  function LookSpeaker(s: State, t: Tid, id: nat): Option<State>
  {
    if !AtRequest(s, t, LookingUp(id)) then None
    else if SpeakerNamed(s, id) && s.speaker.value in s.sess then
      Some(Ask(s, t, Seen(id, s.sess[s.speaker.value], s.speaker.value)))
    else Some(Ask(s, t, Idle))
  }

  // Locating a session fails once it is gone.
  function Pin(s: State, t: Tid): Option<State>
  {
    var p := At(s.pc, t);
    if !(p.Caller? && p.req.Seen?) then None
    else Some(Ask(s, t, if p.req.sid in s.gone then Idle else Pinned(p.req.id, p.req.sid, p.req.first)))
  }

  function AgainListed(s: State, t: Tid, m: Option<Tid>): Option<State>
  {
    var p := At(s.pc, t);
    if !(p.Caller? && p.req.Pinned?) then None
    else if m.None? then
      (if NoneListed(s, p.req.id) then Some(Ask(s, t, PinnedUp(p.req.id, p.req.sid, p.req.first))) else None)
    else if NamedListed(s, m.value, p.req.id) then Some(Ask(s, t, Held(p.req.id, m.value, p.req.sid, p.req.first)))
    else None
  }

  function AgainSpeaker(s: State, t: Tid): Option<State>
  {
    var p := At(s.pc, t);
    if !(p.Caller? && p.req.PinnedUp?) then None
    else if SpeakerNamed(s, p.req.id) then Some(Ask(s, t, Held(p.req.id, s.speaker.value, p.req.sid, p.req.first)))
    else Some(Ask(s, t, Idle))
  }

  // A command that only needed the member, or a promotion refused at the bridge flag.
  function DropOrAsk(s: State, t: Tid, promote: bool): Option<State>
  {
    var p := At(s.pc, t);
    if !(p.Caller? && p.req.Held?) then None
    else Some(Ask(s, t, if promote && At(s.pc, p.req.m) == Member(InBridge) then Asked(p.req.m, p.req.sid) else Idle))
  }

  function UnlinkHeld(s: State, t: Tid): Option<State>
  {
    var p := At(s.pc, t);
    if !(p.Caller? && p.req.Asked?) then None
    else if p.req.m in s.listed then
      Some(Ask(s, t, Unlinked(p.req.m, p.req.sid)).(listed := s.listed - {p.req.m}))
    else Some(Ask(s, t, Idle))
  }

  function Flag(s: State, t: Tid): Option<State>
  {
    var p := At(s.pc, t);
    if !(p.Caller? && p.req.Unlinked?) then None
    else Some(Ask(s, t, Awaiting(p.req.m, p.req.sid)).(wants := s.wants + {p.req.m}))
  }

  function Done(s: State, t: Tid): Option<State>
  {
    var p := At(s.pc, t);
    if p.Caller? && p.req.Awaiting? && At(s.pc, p.req.m) != Member(InBridge) then Some(Ask(s, t, Idle)) else None
  }

  // listener_add on a member that was taken off.
  function AddBack(c: Config, s: State, m: Tid, locked: bool): State
  {
    if s.room.destroyed || locked || |s.listed| >= c.maxListeners then s else Name(s, m).(listed := s.listed + {m})
  }

  // Timed out with the member still in its bridge.
  function Rollback(c: Config, s: State, t: Tid, locked: bool): Option<State>
  {
    var p := At(s.pc, t);
    if c.atomicRollback && p.Caller? && p.req.Awaiting? && At(s.pc, p.req.m) == Member(InBridge) then
      Some(Ask(AddBack(c, s.(wants := s.wants - {p.req.m}), p.req.m, locked), t, Idle))
    else None
  }

  // The same in three steps: look, lower the flag, add back.
  function Expire(c: Config, s: State, t: Tid): Option<State>
  {
    var p := At(s.pc, t);
    if !c.atomicRollback && p.Caller? && p.req.Awaiting? && At(s.pc, p.req.m) == Member(InBridge) then
      Some(Ask(s, t, Expired(p.req.m, p.req.sid)))
    else None
  }

  function Unflag(s: State, t: Tid): Option<State>
  {
    var p := At(s.pc, t);
    if !(p.Caller? && p.req.Expired?) then None
    else Some(Ask(s, t, ReAdding(p.req.m, p.req.sid)).(wants := s.wants - {p.req.m}))
  }

  function ReAdd(c: Config, s: State, t: Tid, locked: bool): Option<State>
  {
    var p := At(s.pc, t);
    if !(p.Caller? && p.req.ReAdding?) then None
    else Some(Ask(AddBack(c, s, p.req.m, locked), t, Idle))
  }

  // ---------------------------------------------------------------- the destroyer

  function Destruct(s: State, t: Tid): Option<State>
  {
    if AtRequest(s, t, Idle) && !s.room.destruct then
      Some(Move(s, t, Destroyer(Marked)).(room := s.room.(destruct := true)))
    else None
  }

  function TearDown(s: State, t: Tid): Option<State>
  {
    var p := At(s.pc, t);
    if !p.Destroyer? then None else
    match p.stage
    case Marked => Some(Move(s, t, Destroyer(Down)).(room := s.room.(destroyed := true)))
    case Down => if NoReaders(s) then Some(Move(s, t, Destroyer(Dropped(s.speaker))).(speaker := None)) else None
    case Dropped(was) => if s.listed == {} then Some(Move(s, t, Destroyer(Emptied(was)))) else None
    case Emptied(was) => if s.speaker.None? then Some(Move(s, t, Destroyer(Silenced(was)))) else None
    case Silenced(was) =>
      if was.Some? && InWait(At(s.pc, was.value)) then None else Some(Move(s, t, Destroyer(Drained)))
    case Drained => if s.liveRefs <= 1 then Some(Move(s, t, Destroyer(Alone))) else None
    case Alone => Some(Move(s, t, Destroyer(Stopped)).(room := s.room.(producerRun := false)))
    case Stopped => if s.room.producer.Exited? then Some(Move(s, t, Destroyer(Joined))) else None
    case Joined => // the table is locked to write, so nobody walks it
      if forall u :: u in s.pc ==> s.pc[u] != Walker then
        Some(Move(s, t, Destroyer(Unhashed)).(room := s.room.(inHash := false)))
      else None
    case Unhashed => Some(Move(s, t, Returned).(room := s.room.(freed := true)))
  }

  // ---------------------------------------------------------------- everything else

  // Some walkers skip a destroyed room, the listing of rooms does not.
  function Walk(s: State, w: Tid): Option<State>
  {
    if At(s.pc, w) == Absent && s.room.inHash then Some(Move(s, w, Walker)) else None
  }

  function WalkOn(s: State, w: Tid): Option<State>
  {
    if At(s.pc, w) == Walker && Thread(w) !in s.readers then Some(Move(s, w, Returned)) else None
  }

  predicate CanRead(pc: map<Tid, Pc>, producer: Producer, r: Reader)
  {
    match r
    case TheProducer => producer.Running?
    case Thread(t) => At(pc, t) == Caller(Idle) || At(pc, t) == Walker
  }

  function ReadLock(s: State, r: Reader): Option<State>
  {
    if CanRead(s.pc, s.room.producer, r) then Some(s.(readers := s.readers[r := s.speaker])) else None
  }

  function ReadUnlock(s: State, r: Reader): Option<State>
  {
    if r in s.readers then Some(s.(readers := s.readers - {r})) else None
  }

  // The loop condition of the producer fails between two ticks.
  function ProducerExit(s: State): Option<State>
  {
    if s.room.producer.Running? && (!s.room.producerRun || s.room.destroyed) && TheProducer !in s.readers then
      Some(s.(room := s.room.(producer := Exited, producerRun := false)))
    else None
  }

  predicate Pins(p: Pc, sid: Sid)
  {
    && p.Caller?
    && (p.req.Pinned? || p.req.PinnedUp? || p.req.Held? || p.req.Asked? || p.req.Unlinked? || p.req.Awaiting?
        || p.req.Expired? || p.req.ReAdding?)
    && p.req.sid == sid
  }

  // A session's pool goes when its thread has left the application and no one pins the session.
  function EndSession(s: State, sid: Sid): Option<State>
  {
    if SessionFree(s, sid) && forall u :: u in s.pc ==> !Pins(s.pc[u], sid) then Some(s.(gone := s.gone + {sid})) else None
  }

  // ---------------------------------------------------------------- runs

  datatype Act =
    | AEnter(sid: Sid, role: Role, exclusive: bool) | ACreate(ok: bool) | APrepare(ok: bool)
    | AClaim | ATakeId | ATake(ok: bool) | ALeave | ATest | AClear
    | AAddCheck(locked: bool) | AAddLocked | ACross | AExit | ABranch | AUnlist
    | AFinalClear | ALetGo

  datatype Cmd =
    | CCall | CHangup | CClearSpeaker
    | CLook(id: nat) | CLookListed(id: nat, m: Option<Tid>) | CLookSpeaker(id: nat)
    | CPin | CAgainListed(m: Option<Tid>) | CAgainSpeaker | CDropOrAsk(promote: bool)
    | CUnlink | CFlag | CDone | CRollback(locked: bool) | CExpire | CUnflag | CReAdd(locked: bool)

  datatype Env = EWalk | EWalkOn | EDestruct | ETearDown

  datatype Step =
    | App(t: Tid, act: Act) | Api(t: Tid, cmd: Cmd) | Sys(t: Tid, env: Env)
    | Lock(r: Reader) | Unlock(r: Reader) | StopTicking | Gone(sid: Sid)

  function DoAct(c: Config, s: State, t: Tid, a: Act): Option<State>
  {
    match a
    case AEnter(sid, role, exclusive) => Enter(s, t, sid, role, exclusive)
    case ACreate(ok) => Create(s, t, ok)
    case APrepare(ok) => Prepare(s, t, ok)
    case AClaim => Claim(c, s, t)
    case ATakeId => TakeId(s, t)
    case ATake(ok) => Take(s, t, ok)
    case ALeave => Leave(s, t)
    case ATest => Test(s, t)
    case AClear => Clear(s, t)
    case AAddCheck(locked) => AddCheck(s, t, locked)
    case AAddLocked => AddLocked(c, s, t)
    case ACross => Cross(s, t)
    case AExit => Exit(s, t)
    case ABranch => Branch(s, t)
    case AUnlist => Unlist(s, t)
    case AFinalClear => FinalClear(s, t)
    case ALetGo => LetGo(s, t)
  }

  function DoCmd(c: Config, s: State, t: Tid, cmd: Cmd): Option<State>
  {
    match cmd
    case CCall => Call(s, t)
    case CHangup => Hangup(s, t)
    case CClearSpeaker => ClearSpeaker(s, t)
    case CLook(id) => Look(s, t, id)
    case CLookListed(id, m) => LookListed(s, t, id, m)
    case CLookSpeaker(id) => LookSpeaker(s, t, id)
    case CPin => Pin(s, t)
    case CAgainListed(m) => AgainListed(s, t, m)
    case CAgainSpeaker => AgainSpeaker(s, t)
    case CDropOrAsk(promote) => DropOrAsk(s, t, promote)
    case CUnlink => UnlinkHeld(s, t)
    case CFlag => Flag(s, t)
    case CDone => Done(s, t)
    case CRollback(locked) => Rollback(c, s, t, locked)
    case CExpire => Expire(c, s, t)
    case CUnflag => Unflag(s, t)
    case CReAdd(locked) => ReAdd(c, s, t, locked)
  }

  // None when the step cannot be taken.
  function Do(c: Config, s: State, step: Step): Option<State>
  {
    match step
    case App(t, a) => DoAct(c, s, t, a)
    case Api(t, cmd) => DoCmd(c, s, t, cmd)
    case Sys(t, EWalk) => Walk(s, t)
    case Sys(t, EWalkOn) => WalkOn(s, t)
    case Sys(t, EDestruct) => Destruct(s, t)
    case Sys(t, ETearDown) => TearDown(s, t)
    case Lock(r) => ReadLock(s, r)
    case Unlock(r) => ReadUnlock(s, r)
    case StopTicking => ProducerExit(s)
    case Gone(sid) => EndSession(s, sid)
  }

  function Run(c: Config, s: State, steps: seq<Step>): Option<State>
    decreases |steps|
  {
    if steps == [] then Some(s)
    else match Do(c, s, steps[0]) case None => None case Some(s1) => Run(c, s1, steps[1..])
  }
}
