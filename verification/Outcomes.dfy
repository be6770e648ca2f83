/**
 What the steps of Lifecycle.dfy decide and what they leave alone, told by where the thread was and
 where it goes, and for every state the runs can reach. So much for what happens; that something can
 always happen is shown beside it.
 */
module Outcomes {
  import opened Options
  import opened Lifecycle
  import opened LifecycleSafety

  // ---------------------------------------------------------------- a session thread

  // Somebody else is the current speaker and may not be replaced.
  predicate StageTaken(c: Config, s: State, t: Tid)
  {
    !c.speakerOverride && s.speaker.Some? && s.speaker.value != t
  }

  // Where a member goes on to. Preparing codecs, publishing and the pre-checks of a listener can fail.
  predicate GoesOn(c: Config, s: State, t: Tid, at: Place, q: Pc)
  {
    match at
    case Creating(role) => q == Returned || (q == Member(Entering(role)) && !s.room.made)
    case Entering(role) => q == Member(Refused) || q == Member(if role == AsSpeaker then Claiming else Adding)
    case Claiming => q == Member(if StageTaken(c, s, t) then Refused else Naming)
    case Naming => q == Member(Taking(false))
    case Taking(promoted) => q == Member(OnAir) || q == Member(if promoted then LastClear else Refused)
    case OnAir => q == Member(Leaving)
    case Leaving => q == Member(if s.speaker == Some(t) then Clearing else LastClear)
    case Clearing => q == Member(LastClear)
    case Adding => q == Member(Refused) || (q == Member(Inserting) && !s.room.destroyed)
    case Inserting => q == Member(if |s.listed| < c.maxListeners then Added else Refused)
    case Added => q == Member(InBridge)
    case InBridge => q == Member(OffBridge)
    case OffBridge => q == Member(if t in s.wants then Taking(true) else Unlisting)
    case Unlisting => q == Member(LastClear)
    case LastClear => q == Member(Releasing)
    case Releasing | Refused => q == Returned
  }

  // Who enters: a room that can be found counts the session in, another one is to be created.
  predicate Enters(s: State, q: Pc)
  {
    if Open(s.room) then q == Member(Refused) || (q.Member? && q.at.Entering?) else q.Member? && q.at.Creating?
  }

  // What the move of t from p to q does to what the threads share.
  ghost predicate MoveDoes(s: State, s': State, t: Tid, p: Pc, q: Pc)
  {
    && s'.pc == s.pc[t := q]
    && s'.speaker == (if q == Member(OnAir) then Some(t) else if p == Member(Clearing) then None else s.speaker)
    && s'.listed == (if q == Member(Added) then s.listed + {t} else if p == Member(Unlisting) then s.listed - {t} else s.listed)
    && s'.wants == (if q == Member(Taking(true)) then s.wants - {t} else s.wants)
    && (if (q == Member(Added) || q == Member(Taking(false))) && t !in s.ids then
          s'.nextId == s.nextId + 1 && s'.ids == s.ids[t := s'.nextId]
        else s'.nextId == s.nextId && s'.ids == s.ids)
    && s'.liveRefs - s.liveRefs == One(Holds(q)) - One(Holds(p))
    && s'.readers == s.readers && s'.gone == s.gone
    && s'.room == (if p.Member? && p.at.Creating? && q.Member? then
                     s.room.(made := true, inHash := true, producer := Running, producerRun := true)
                   else s.room)
    && (p.Member? ==> s'.sess == s.sess)
  }

  ghost predicate ActAsTold(c: Config, s: State, s': State, t: Tid)
  {
    var p, q := At(s.pc, t), At(s'.pc, t);
    && (p.Member? || p.Absent?) && MoveDoes(s, s', t, p, q)
    && (if p.Member? then GoesOn(c, s, t, p.at, q)
        else Enters(s, q) && t in s'.sess && s'.sess == s.sess[t := s'.sess[t]] && SessionFree(s, s'.sess[t]))
  }

  // Nobody who is past the stage is on it.
  predicate PastStage(s: State, t: Tid) { At(s.pc, t) == Member(LastClear) ==> s.speaker != Some(t) }

  lemma EnterAsTold(c: Config, s: State, t: Tid, sid: Sid, role: Role, exclusive: bool)
    requires Enter(s, t, sid, role, exclusive).Some?
    ensures ActAsTold(c, s, Enter(s, t, sid, role, exclusive).value, t)
  {
  }

  lemma CreateAsTold(c: Config, s: State, t: Tid, ok: bool)
    requires Create(s, t, ok).Some?
    ensures ActAsTold(c, s, Create(s, t, ok).value, t)
  {
  }

  lemma ReadyAsTold(c: Config, s: State, t: Tid, a: Act)
    requires DoAct(c, s, t, a).Some? && (a.APrepare? || a.ALetGo? || a.AClaim? || a.AAddCheck?)
    ensures ActAsTold(c, s, DoAct(c, s, t, a).value, t)
  {
  }

  lemma TakeIdAsTold(c: Config, s: State, t: Tid)
    requires TakeId(s, t).Some?
    ensures ActAsTold(c, s, TakeId(s, t).value, t)
  {
  }

  lemma TakeAsTold(c: Config, s: State, t: Tid, ok: bool)
    requires Take(s, t, ok).Some?
    ensures ActAsTold(c, s, Take(s, t, ok).value, t)
  {
  }

  lemma InsertAsTold(c: Config, s: State, t: Tid)
    requires AddLocked(c, s, t).Some?
    ensures ActAsTold(c, s, AddLocked(c, s, t).value, t)
  {
  }

  lemma LeaveAsTold(c: Config, s: State, t: Tid, a: Act)
    requires PastStage(s, t) && DoAct(c, s, t, a).Some? && (a.ALeave? || a.ATest? || a.AClear? || a.AFinalClear?)
    ensures ActAsTold(c, s, DoAct(c, s, t, a).value, t)
  {
  }

  lemma CrossAsTold(c: Config, s: State, t: Tid, a: Act)
    requires DoAct(c, s, t, a).Some? && (a.ACross? || a.AExit?)
    ensures ActAsTold(c, s, DoAct(c, s, t, a).value, t)
  {
  }

  lemma BranchAsTold(c: Config, s: State, t: Tid, a: Act)
    requires DoAct(c, s, t, a).Some? && (a.ABranch? || a.AUnlist?)
    ensures ActAsTold(c, s, DoAct(c, s, t, a).value, t)
  {
  }

  // Every step of a session thread.
  lemma ActOutcome(c: Config, s: State, t: Tid, a: Act)
    requires Inv(s) && DoAct(c, s, t, a).Some?
    ensures ActAsTold(c, s, DoAct(c, s, t, a).value, t)
  {
    match a
    case AEnter(sid, role, exclusive) => EnterAsTold(c, s, t, sid, role, exclusive);
    case ACreate(ok) => CreateAsTold(c, s, t, ok);
    case APrepare(_) | ALetGo | AClaim | AAddCheck(_) => ReadyAsTold(c, s, t, a);
    case ATakeId => TakeIdAsTold(c, s, t);
    case ATake(ok) => TakeAsTold(c, s, t, ok);
    case AAddLocked => InsertAsTold(c, s, t);
    case ALeave | ATest | AClear | AFinalClear => LeaveAsTold(c, s, t, a);
    case ACross | AExit => CrossAsTold(c, s, t, a);
    case ABranch | AUnlist => BranchAsTold(c, s, t, a);
  }

  // The one act that is up to a member where it is.
  function NextAct(at: Place, ok: bool): Act
  {
    match at
    case Creating(_) => ACreate(ok)
    case Entering(_) => APrepare(ok)
    case Claiming => AClaim
    case Naming => ATakeId
    case Taking(_) => ATake(ok)
    case OnAir => ALeave
    case Leaving => ATest
    case Clearing => AClear
    case Adding => AAddCheck(!ok)
    case Inserting => AAddLocked
    case Added => ACross
    case InBridge => AExit
    case OffBridge => ABranch
    case Unlisting => AUnlist
    case LastClear => AFinalClear
    case Releasing | Refused => ALetGo
  }

  // Where it takes the member, when what can fail does or does not.
  predicate Arrives(s: State, at: Place, ok: bool, q: Pc)
  {
    match at
    case Creating(role) => q == if ok && !s.room.made then Member(Entering(role)) else Returned
    case Entering(role) => q == Member(if !ok then Refused else if role == AsSpeaker then Claiming else Adding)
    case Taking(promoted) => q == Member(if ok then OnAir else if promoted then LastClear else Refused)
    case Adding => q == Member(if ok && !s.room.destroyed then Inserting else Refused)
    case _ => true
  }

  // A member is never stuck: once nobody reads under speaker_lock it can go on, wherever it is, and both
  // ways where it may go two.
  lemma MemberCanGo(c: Config, s: State, t: Tid, ok: bool)
    requires At(s.pc, t).Member? && NoReaders(s)
    ensures var s' := DoAct(c, s, t, NextAct(At(s.pc, t).at, ok));
            s'.Some? && Arrives(s, At(s.pc, t).at, ok, At(s'.value.pc, t))
  {
  }

  // A thread whose session is alive and not yet in the application can enter it: an exclusive one only
  // to be refused if the room is there.
  lemma AnyoneCanEnter(c: Config, s: State, t: Tid, sid: Sid, role: Role, exclusive: bool)
    requires At(s.pc, t) == Absent && SessionFree(s, sid)
    ensures var s' := DoAct(c, s, t, AEnter(sid, role, exclusive));
            s'.Some? && t in s'.value.sess && s'.value.sess[t] == sid
            && At(s'.value.pc, t) ==
                 Member(if !s.room.inHash || s.room.destroyed || s.room.destruct then Creating(role)
                        else if exclusive then Refused else Entering(role))
  {
  }

  // Anyone can call; the call holds the room if it can be found.
  lemma AnyoneCanCall(c: Config, s: State, t: Tid)
    requires At(s.pc, t) == Absent
    ensures var s' := DoCmd(c, s, t, CCall);
            s'.Some? && At(s'.value.pc, t) ==
              if s.room.inHash && !s.room.destroyed && !s.room.destruct then Caller(Idle) else Returned
  {
  }

  // ---------------------------------------------------------------- an API call

  predicate Wears(s: State, m: Tid, id: nat) { m in s.ids && s.ids[m] == id }

  predicate ListedAs(s: State, id: nat) { exists m :: m in s.listed && Wears(s, m, id) }

  predicate OnStageAs(s: State, id: nat) { s.speaker.Some? && Wears(s, s.speaker.value, id) }

  // Where a call goes on to. A lookup finds the listed member with the id, else the speaker with it, else
  // nobody; a promotion goes on while the member is in its bridge.
  ghost predicate CallGoesOn(c: Config, s: State, r: Request, q: Pc)
  {
    match r
    case Idle => q == Returned || q == Caller(Idle) || (q.Caller? && q.req.Looking? && q.req.id != 0)
    case Looking(id) =>
      if ListedAs(s, id) then
        q.Caller? && q.req.Seen? && q.req.id == id && q.req.first in s.listed && Wears(s, q.req.first, id)
        && q.req.first in s.sess && q.req.sid == s.sess[q.req.first]
      else q == Caller(LookingUp(id))
    case LookingUp(id) =>
      q == Caller(if OnStageAs(s, id) && s.speaker.value in s.sess then Seen(id, s.sess[s.speaker.value], s.speaker.value) else Idle)
    case Seen(id, sid, first) => q == Caller(if sid in s.gone then Idle else Pinned(id, sid, first))
    case Pinned(id, sid, first) =>
      if ListedAs(s, id) then
        q.Caller? && q.req.Held? && q.req.m in s.listed && Wears(s, q.req.m, id) && q.req == Held(id, q.req.m, sid, first)
      else q == Caller(PinnedUp(id, sid, first))
    case PinnedUp(id, sid, first) =>
      q == Caller(if OnStageAs(s, id) then Held(id, s.speaker.value, sid, first) else Idle)
    case Held(_, m, sid, _) => q == Caller(Idle) || (q == Caller(Asked(m, sid)) && At(s.pc, m) == Member(InBridge))
    case Asked(m, sid) => q == Caller(if m in s.listed then Unlinked(m, sid) else Idle)
    case Unlinked(m, sid) => q == Caller(Awaiting(m, sid))
    case Awaiting(m, sid) =>
      if At(s.pc, m) == Member(InBridge) then q == Caller(if c.atomicRollback then Idle else Expired(m, sid))
      else q == Caller(Idle)
    case Expired(m, sid) => q == Caller(ReAdding(m, sid))
    case ReAdding(_, _) => q == Caller(Idle)
  }

  // The promotion of m gives up, and puts it back on the list if the room takes it.
  predicate GivesUp(c: Config, s: State, r: Request)
  {
    r.ReAdding? || (r.Awaiting? && c.atomicRollback && At(s.pc, r.m) == Member(InBridge))
  }

  ghost predicate PutsBack(c: Config, s: State, s': State, m: Tid)
  {
    || (s'.listed == s.listed && s'.ids == s.ids && s'.nextId == s.nextId)
    || (!s.room.destroyed && |s.listed| < c.maxListeners && s'.listed == s.listed + {m}
        && (if m in s.ids then s'.ids == s.ids && s'.nextId == s.nextId
            else s'.nextId == s.nextId + 1 && s'.ids == s.ids[m := s'.nextId]))
  }

  ghost predicate CallDoes(c: Config, s: State, s': State, t: Tid, p: Pc, q: Pc)
  {
    && s'.pc == s.pc[t := q]
    && (s'.speaker == s.speaker || (s'.speaker == None && p == Caller(Idle) && NoReaders(s)))
    && (if p.Caller? && GivesUp(c, s, p.req) then PutsBack(c, s, s', p.req.m)
        else
          && s'.listed == (if q.Caller? && q.req.Unlinked? then s.listed - {q.req.m} else s.listed)
          && s'.ids == s.ids && s'.nextId == s.nextId)
    && s'.wants == (if q.Caller? && q.req.Awaiting? then s.wants + {q.req.m}
                    else if q.Caller? && q.req.ReAdding? then s.wants - {q.req.m}
                    else if p.Caller? && p.req.Awaiting? && GivesUp(c, s, p.req) then s.wants - {p.req.m}
                    else s.wants)
    && s'.liveRefs - s.liveRefs == One(Holds(q)) - One(Holds(p))
    && s'.sess == s.sess && s'.readers == s.readers && s'.gone == s.gone && s'.room == s.room
  }

  ghost predicate CallAsTold(c: Config, s: State, s': State, t: Tid)
  {
    var p, q := At(s.pc, t), At(s'.pc, t);
    && (p.Caller? || p.Absent?) && CallDoes(c, s, s', t, p, q)
    && (if p.Caller? then CallGoesOn(c, s, p.req, q)
        else q == if Open(s.room) then Caller(Idle) else Returned)
  }

  lemma BeginAsTold(c: Config, s: State, t: Tid, cmd: Cmd)
    requires DoCmd(c, s, t, cmd).Some? && (cmd.CCall? || cmd.CHangup? || cmd.CClearSpeaker? || cmd.CLook?)
    ensures CallAsTold(c, s, DoCmd(c, s, t, cmd).value, t)
  {
  }

  lemma LookAsTold(c: Config, s: State, t: Tid, cmd: Cmd)
    requires DoCmd(c, s, t, cmd).Some? && (cmd.CLookListed? || cmd.CLookSpeaker? || cmd.CPin?)
    ensures CallAsTold(c, s, DoCmd(c, s, t, cmd).value, t)
  {
  }

  lemma AgainAsTold(c: Config, s: State, t: Tid, cmd: Cmd)
    requires DoCmd(c, s, t, cmd).Some? && (cmd.CAgainListed? || cmd.CAgainSpeaker?)
    ensures CallAsTold(c, s, DoCmd(c, s, t, cmd).value, t)
  {
  }

  lemma PromoteAsTold(c: Config, s: State, t: Tid, cmd: Cmd)
    requires DoCmd(c, s, t, cmd).Some? && (cmd.CDropOrAsk? || cmd.CUnlink? || cmd.CFlag? || cmd.CDone?)
    ensures CallAsTold(c, s, DoCmd(c, s, t, cmd).value, t)
  {
  }

  lemma ExpireAsTold(c: Config, s: State, t: Tid, cmd: Cmd)
    requires DoCmd(c, s, t, cmd).Some? && (cmd.CExpire? || cmd.CUnflag?)
    ensures CallAsTold(c, s, DoCmd(c, s, t, cmd).value, t)
  {
  }

  lemma RollbackAsTold(c: Config, s: State, t: Tid, locked: bool)
    requires Rollback(c, s, t, locked).Some?
    ensures CallAsTold(c, s, Rollback(c, s, t, locked).value, t)
  {
  }

  lemma ReAddAsTold(c: Config, s: State, t: Tid, locked: bool)
    requires ReAdd(c, s, t, locked).Some?
    ensures CallAsTold(c, s, ReAdd(c, s, t, locked).value, t)
  {
  }

  // Every step of an API call.
  lemma CmdOutcome(c: Config, s: State, t: Tid, cmd: Cmd)
    requires DoCmd(c, s, t, cmd).Some?
    ensures CallAsTold(c, s, DoCmd(c, s, t, cmd).value, t)
  {
    match cmd
    case CCall | CHangup | CClearSpeaker | CLook(_) => BeginAsTold(c, s, t, cmd);
    case CLookListed(_, _) | CLookSpeaker(_) | CPin => LookAsTold(c, s, t, cmd);
    case CAgainListed(_) | CAgainSpeaker => AgainAsTold(c, s, t, cmd);
    case CDropOrAsk(_) | CUnlink | CFlag | CDone => PromoteAsTold(c, s, t, cmd);
    case CExpire | CUnflag => ExpireAsTold(c, s, t, cmd);
    case CRollback(locked) => RollbackAsTold(c, s, t, locked);
    case CReAdd(locked) => ReAddAsTold(c, s, t, locked);
  }

  // The command that takes a call on, with the member a scan comes upon.
  function NextCmd(c: Config, s: State, r: Request, m: Option<Tid>): Cmd
  {
    match r
    case Idle => CHangup
    case Looking(id) => CLookListed(id, m)
    case LookingUp(id) => CLookSpeaker(id)
    case Seen(_, _, _) => CPin
    case Pinned(_, _, _) => CAgainListed(m)
    case PinnedUp(_, _, _) => CAgainSpeaker
    case Held(_, _, _, _) => CDropOrAsk(true)
    case Asked(_, _) => CUnlink
    case Unlinked(_, _) => CFlag
    case Awaiting(w, _) => if At(s.pc, w) != Member(InBridge) then CDone else if c.atomicRollback then CRollback(false) else CExpire
    case Expired(_, _) => CUnflag
    case ReAdding(_, _) => CReAdd(false)
  }

  // The member a scan for the id comes upon.
  ghost function Scanned(s: State, r: Request): (m: Option<Tid>)
    requires r.Looking? || r.Pinned?
    ensures m.Some? ==> m.value in s.listed && Wears(s, m.value, r.id)
    ensures m.None? ==> !ListedAs(s, r.id)
  {
    if ListedAs(s, r.id) then
      var m: Tid :| m in s.listed && Wears(s, m, r.id);
      Some(m)
    else None
  }

  // A lookup is never stuck.
  lemma LookupCanGo(c: Config, s: State, t: Tid)
    requires Inv(s) && At(s.pc, t).Caller? && (At(s.pc, t).req.Looking? || At(s.pc, t).req.Pinned?) && Thread(t) !in s.readers
    ensures var r := At(s.pc, t).req; DoCmd(c, s, t, NextCmd(c, s, r, Scanned(s, r))).Some?
  {
    var m := Scanned(s, At(s.pc, t).req);
    assert m.Some? ==> m.value in s.sess && NamedListed(s, m.value, At(s.pc, t).req.id);
    assert m.None? ==> NoneListed(s, At(s.pc, t).req.id);
  }

  // Nor is any other call: a promotion goes on while its member is in the bridge, and ends or gives up.
  lemma CallCanGo(c: Config, s: State, t: Tid)
    requires At(s.pc, t).Caller? && !At(s.pc, t).req.Looking? && !At(s.pc, t).req.Pinned? && Thread(t) !in s.readers
    ensures var r := At(s.pc, t).req;
            var s' := DoCmd(c, s, t, NextCmd(c, s, r, None));
            s'.Some? && (r.Held? && At(s.pc, r.m) == Member(InBridge) ==> At(s'.value.pc, t) == Caller(Asked(r.m, r.sid)))
  {
  }

  // What an idle call can ask for.
  lemma IdleCanAsk(c: Config, s: State, t: Tid, id: nat)
    requires At(s.pc, t) == Caller(Idle) && Thread(t) !in s.readers
    ensures DoCmd(c, s, t, CClearSpeaker) == if NoReaders(s) then Some(s.(speaker := None)) else None
    ensures var s' := DoCmd(c, s, t, CLook(id));
            s'.Some? && At(s'.value.pc, t) == Caller(if id == 0 then Idle else Looking(id))
  {
  }

  // A rollback that finds the room open for listeners does put the member back.
  lemma BackOnTheList(c: Config, s: State, t: Tid, cmd: Cmd)
    requires DoCmd(c, s, t, cmd).Some? && (cmd.CRollback? || cmd.CReAdd?)
    requires !cmd.locked && !s.room.destroyed && |s.listed| < c.maxListeners
    ensures At(s.pc, t).req.m in DoCmd(c, s, t, cmd).value.listed
  {
  }

  // ---------------------------------------------------------------- the destroyer

  // What each stage waits for.
  predicate MayPass(s: State, st: Stage)
  {
    match st
    case Marked => true
    case Down => NoReaders(s)
    case Dropped(_) => s.listed == {}
    case Emptied(_) => s.speaker == None
    case Silenced(was) => was.Some? ==> At(s.pc, was.value) != Member(Leaving) && At(s.pc, was.value) != Member(Clearing)
    case Drained => s.liveRefs <= 1
    case Alone => true
    case Stopped => s.room.producer == Exited
    case Joined => forall u :: u in s.pc ==> s.pc[u] != Walker
    case Unhashed => true
  }

  // Where it goes then. It remembers the speaker it takes down.
  function NextStage(s: State, st: Stage): Pc
  {
    match st
    case Marked => Destroyer(Down)
    case Down => Destroyer(Dropped(s.speaker))
    case Dropped(was) => Destroyer(Emptied(was))
    case Emptied(was) => Destroyer(Silenced(was))
    case Silenced(_) => Destroyer(Drained)
    case Drained => Destroyer(Alone)
    case Alone => Destroyer(Stopped)
    case Stopped => Destroyer(Joined)
    case Joined => Destroyer(Unhashed)
    case Unhashed => Returned
  }

  function RoomAfter(r: Room, st: Stage): Room
  {
    match st
    case Marked => r.(destroyed := true)
    case Alone => r.(producerRun := false)
    case Joined => r.(inHash := false)
    case Unhashed => r.(freed := true)
    case _ => r
  }

  // The destroyer passes a stage if and only if what it waits for is there.
  lemma TearDownOutcome(c: Config, s: State, t: Tid)
    requires At(s.pc, t).Destroyer?
    ensures var st := s.pc[t].stage;
            Do(c, s, Sys(t, ETearDown)) ==
              if !MayPass(s, st) then None
              else Some(s.(pc := s.pc[t := NextStage(s, st)], room := RoomAfter(s.room, st),
                           speaker := if st == Down then None else s.speaker))
  {
    match s.pc[t].stage
    case _ =>
  }

  // ---------------------------------------------------------------- everything else

  // A call that is not busy becomes the destroyer unless there is one; then the room is marked.
  lemma DestructOutcome(c: Config, s: State, t: Tid)
    ensures Do(c, s, Sys(t, EDestruct)).Some? <==> At(s.pc, t) == Caller(Idle) && Thread(t) !in s.readers && !s.room.destruct
    ensures Do(c, s, Sys(t, EDestruct)).Some? ==>
              Do(c, s, Sys(t, EDestruct)).value == s.(pc := s.pc[t := Destroyer(Marked)], room := s.room.(destruct := true))
  {
  }

  // The table is walked while the room is in it, and a walk ends when nothing is read any more.
  lemma WalkOutcome(c: Config, s: State, w: Tid)
    ensures Do(c, s, Sys(w, EWalk)).Some? <==> At(s.pc, w) == Absent && s.room.inHash
    ensures Do(c, s, Sys(w, EWalk)).Some? ==> Do(c, s, Sys(w, EWalk)).value == s.(pc := s.pc[w := Walker])
    ensures Do(c, s, Sys(w, EWalkOn)).Some? <==> At(s.pc, w) == Walker && Thread(w) !in s.readers
    ensures Do(c, s, Sys(w, EWalkOn)).Some? ==> Do(c, s, Sys(w, EWalkOn)).value == s.(pc := s.pc[w := Returned])
  {
  }

  // The running producer, calls that are not busy and walkers may read under speaker_lock; a reader sees
  // the current speaker, and nothing else changes.
  lemma ReadOutcome(c: Config, s: State, r: Reader)
    ensures Do(c, s, Lock(r)).Some? <==>
              || (r.TheProducer? && s.room.producer == Running)
              || (r.Thread? && (At(s.pc, r.t) == Caller(Idle) || At(s.pc, r.t) == Walker))
    ensures Do(c, s, Lock(r)).Some? ==> Do(c, s, Lock(r)).value == s.(readers := s.readers[r := s.speaker])
    ensures Do(c, s, Unlock(r)).Some? <==> r in s.readers
    ensures Do(c, s, Unlock(r)).Some? ==> Do(c, s, Unlock(r)).value == s.(readers := s.readers - {r})
  {
  }

  // The producer ends when it is told to or the room is destroyed, between two ticks; a session's pool
  // goes when no thread of it is in the application and nobody pins it.
  lemma EndOutcome(c: Config, s: State, sid: Sid)
    ensures Do(c, s, StopTicking).Some? <==>
              s.room.producer == Running && (!s.room.producerRun || s.room.destroyed) && TheProducer !in s.readers
    ensures Do(c, s, StopTicking).Some? ==> Do(c, s, StopTicking).value == s.(room := s.room.(producer := Exited, producerRun := false))
    ensures Do(c, s, Gone(sid)).Some? <==>
              && sid !in s.gone && (forall u :: u in s.sess && s.sess[u] == sid ==> At(s.pc, u) == Returned)
              && (forall u :: u in s.pc ==> !Pins(s.pc[u], sid))
    ensures Do(c, s, Gone(sid)).Some? ==> Do(c, s, Gone(sid)).value == s.(gone := s.gone + {sid})
  {
  }

  lemma {:induction false} SysMoves(c: Config, s: State, step: Step, u: Tid)
    requires !step.App? && !step.Api? && Do(c, s, step).Some? && (step.Sys? ==> step.t != u)
    ensures At(Do(c, s, step).value.pc, u) == At(s.pc, u)
  {
    if step.Sys? && step.env.ETearDown? { TearDownOutcome(c, s, step.t); }
  }

  // Nobody moves another thread.
  lemma OnlyOwnMoves(c: Config, s: State, step: Step, u: Tid)
    requires Inv(s) && Do(c, s, step).Some? && At(Do(c, s, step).value.pc, u) != At(s.pc, u)
    ensures (step.App? || step.Api? || step.Sys?) && step.t == u
  {
    match step
    case App(t, a) => ActOutcome(c, s, t, a);
    case Api(t, cmd) => CmdOutcome(c, s, t, cmd);
    case Sys(t, _) => if t != u { SysMoves(c, s, step, u); }
    case _ => SysMoves(c, s, step, u);
  }

  lemma SysStage(c: Config, s: State, step: Step)
    requires !step.App? && !step.Api? && Do(c, s, step).Some?
    ensures var s' := Do(c, s, step).value;
            && s'.listed == s.listed
            && (s'.speaker == s.speaker || (s'.speaker == None && step.Sys? && At(s.pc, step.t) == Destroyer(Down)))
  {
    if step.Sys? && step.env.ETearDown? { TearDownOutcome(c, s, step.t); }
  }

  // ---------------------------------------------------------------- over whole runs

  lemma ClaimTold(c: Config, s: State, s': State, t: Tid)
    requires At(s.pc, t) == Member(Claiming) && ActAsTold(c, s, s', t)
    ensures At(s'.pc, t) == Member(if StageTaken(c, s, t) then Refused else Naming)
  {
  }

  lemma StepClaims(c: Config, s: State, step: Step, t: Tid)
    requires Inv(s) && Do(c, s, step).Some? && At(s.pc, t) == Member(Claiming)
    requires At(Do(c, s, step).value.pc, t) != Member(Claiming)
    ensures At(Do(c, s, step).value.pc, t) == Member(if StageTaken(c, s, t) then Refused else Naming)
  {
    OnlyOwnMoves(c, s, step, t);
    match step
    case App(_, a) =>
      ActOutcome(c, s, t, a);
      ClaimTold(c, s, Do(c, s, step).value, t);
    case Api(_, cmd) => CmdOutcome(c, s, t, cmd);
    case Sys(_, _) =>
  }

  // A speaker that asks for the stage is refused if and only if somebody else is on it and the profile
  // does not let speakers be replaced; else it goes on.
  lemma SecondSpeakerRefused(c: Config, steps: seq<Step>, step: Step, t: Tid)
    requires Run(c, INIT, steps).Some? && Do(c, Run(c, INIT, steps).value, step).Some?
    requires At(Run(c, INIT, steps).value.pc, t) == Member(Claiming)
    requires At(Do(c, Run(c, INIT, steps).value, step).value.pc, t) != Member(Claiming)
    ensures var s := Run(c, INIT, steps).value;
            At(Do(c, s, step).value.pc, t) == Member(if StageTaken(c, s, t) then Refused else Naming)
  {
    RunKeeps(c, INIT, steps);
    StepClaims(c, Run(c, INIT, steps).value, step, t);
  }

  // The step from s to s' changes the stage as it may.
  predicate StageChange(s: State, s': State, step: Step)
  {
    && (s'.speaker != s.speaker && s'.speaker.Some? ==>
          step.App? && s'.speaker == Some(step.t) && At(s.pc, step.t).Member? && At(s.pc, step.t).at.Taking?)
    && (s'.speaker != s.speaker && s'.speaker.None? ==>
          || (step.App? && At(s.pc, step.t) == Member(Clearing))
          || (step.Api? && At(s.pc, step.t) == Caller(Idle))
          || (step.Sys? && At(s.pc, step.t) == Destroyer(Down)))
  }

  lemma ActChange(c: Config, s: State, s': State, t: Tid, a: Act)
    requires ActAsTold(c, s, s', t)
    ensures StageChange(s, s', App(t, a))
  {
  }

  lemma ActBounded(c: Config, s: State, s': State, t: Tid)
    requires ActAsTold(c, s, s', t) && |s.listed| <= c.maxListeners
    ensures |s'.listed| <= c.maxListeners
  {
    ShrinksByOne(s.listed, t);
    if |s.listed| < c.maxListeners { GrowsByOne(s.listed, t, c.maxListeners); }
  }

  lemma CallChange(c: Config, s: State, s': State, t: Tid, cmd: Cmd)
    requires CallAsTold(c, s, s', t)
    ensures StageChange(s, s', Api(t, cmd))
  {
  }

  lemma CallBounded(c: Config, s: State, s': State, t: Tid)
    requires CallAsTold(c, s, s', t) && |s.listed| <= c.maxListeners
    ensures |s'.listed| <= c.maxListeners
  {
    var p, q := At(s.pc, t), At(s'.pc, t);
    if p.Caller? && GivesUp(c, s, p.req) {
      if |s.listed| < c.maxListeners { GrowsByOne(s.listed, p.req.m, c.maxListeners); }
    } else if q.Caller? && q.req.Unlinked? {
      ShrinksByOne(s.listed, q.req.m);
    }
  }

  lemma GrowsByOne(S: set<Tid>, m: Tid, n: nat)
    requires |S| < n
    ensures |S + {m}| <= n
  {
    if m in S { assert S + {m} == S; }
  }

  lemma ShrinksByOne(S: set<Tid>, m: Tid)
    ensures |S - {m}| <= |S|
  {
    assert S == (S - {m}) + (S * {m});
  }

  lemma StepChange(c: Config, s: State, step: Step)
    requires Inv(s) && Do(c, s, step).Some?
    ensures StageChange(s, Do(c, s, step).value, step)
  {
    match step
    case App(t, a) =>
      ActOutcome(c, s, t, a);
      ActChange(c, s, Do(c, s, step).value, t, a);
    case Api(t, cmd) =>
      CmdOutcome(c, s, t, cmd);
      CallChange(c, s, Do(c, s, step).value, t, cmd);
    case _ => SysStage(c, s, step);
  }

  lemma StepBounded(c: Config, s: State, step: Step)
    requires Inv(s) && Do(c, s, step).Some? && |s.listed| <= c.maxListeners
    ensures |Do(c, s, step).value.listed| <= c.maxListeners
  {
    match step
    case App(t, a) =>
      ActOutcome(c, s, t, a);
      ActBounded(c, s, Do(c, s, step).value, t);
    case Api(t, cmd) =>
      CmdOutcome(c, s, t, cmd);
      CallBounded(c, s, Do(c, s, step).value, t);
    case _ => SysStage(c, s, step);
  }

  // Only a member's own publication puts it on the stage, and only the speaker itself on its way out, a
  // call that clears the stage, or the destroyer takes it off without putting another one there.
  lemma StageChanges(c: Config, steps: seq<Step>, step: Step)
    requires Run(c, INIT, steps).Some? && Do(c, Run(c, INIT, steps).value, step).Some?
    ensures StageChange(Run(c, INIT, steps).value, Do(c, Run(c, INIT, steps).value, step).value, step)
  {
    RunKeeps(c, INIT, steps);
    StepChange(c, Run(c, INIT, steps).value, step);
  }

  // The list never holds more members than the profile allows.
  lemma {:induction false} ListBounded(c: Config, s: State, steps: seq<Step>)
    requires Inv(s) && |s.listed| <= c.maxListeners && Run(c, s, steps).Some?
    ensures |Run(c, s, steps).value.listed| <= c.maxListeners
    decreases |steps|
  {
    if steps != [] {
      StepBounded(c, s, steps[0]);
      StepKeeps(c, s, steps[0]);
      ListBounded(c, Do(c, s, steps[0]).value, steps[1..]);
    }
  }
}
