/**
 What every run of Lifecycle.dfy keeps: who may be current speaker, how long memory stays pinned, what
 the reference count counts, and what is left when the room's pool is freed.
 */
module LifecycleSafety {
  import opened Options
  import opened Lifecycle

  type Pcs = map<Tid, Pc>

  // ---------------------------------------------------------------- the invariants

  // The points where a member may be on the listener list.
  predicate MayBeListed(p: Pc) { p.Member? && (p.at.Added? || p.at.InBridge? || p.at.OffBridge? || p.at.Unlisting?) }

  predicate HasId(p: Pc) { (p.Member? && p.at.Taking?) || OnStage(p) || MayBeListed(p) }

  // Ids are not zero, not reused, and belong to members.
  ghost predicate Unique(sess: map<Tid, Sid>, ids: map<Tid, nat>, nextId: nat)
  {
    && (forall m :: m in ids ==> m in sess && 1 <= ids[m] <= nextId)
    && (forall m, n :: m in ids && n in ids && ids[m] == ids[n] ==> m == n)
  }

  // Session threads have sessions; those that can be looked up have ids.
  ghost predicate Named(pc: Pcs, sess: map<Tid, Sid>, ids: map<Tid, nat>)
  {
    && (forall m :: m in sess ==> At(pc, m).Member? || At(pc, m).Returned?)
    && (forall t :: t in pc && pc[t].Member? ==> t in sess)
    && (forall t :: t in pc && HasId(pc[t]) ==> t in ids)
  }

  // The current speaker is between its own publication and its own clear, and whoever reads under
  // speaker_lock still sees the pointer it started with.
  ghost predicate Staged(pc: Pcs, speaker: Option<Tid>, readers: map<Reader, Option<Tid>>, producer: Producer)
  {
    && (speaker.Some? ==> OnStage(At(pc, speaker.value)))
    && (forall r :: r in readers ==> readers[r] == speaker && CanRead(pc, producer, r))
  }

  // A freed session has no member in the application and nobody pins it.
  ghost predicate Housed(pc: Pcs, sess: map<Tid, Sid>, gone: set<Sid>)
  {
    && (forall m :: m in sess && sess[m] in gone ==> At(pc, m).Returned?)
    && (forall t, sid :: t in pc && Pins(pc[t], sid) ==> sid !in gone)
  }

  // A lookup remembers the member it first found; the one it ends with is the same.
  predicate LooksRight(p: Pc, sess: map<Tid, Sid>, ids: map<Tid, nat>)
  {
    p.Caller? ==>
      var q := p.req;
      && (q.Seen? || q.Pinned? || q.PinnedUp? ==>
            q.first in ids && q.first in sess && ids[q.first] == q.id && sess[q.first] == q.sid)
      && (q.Held? ==> q.m == q.first && q.m in ids && ids[q.m] == q.id)
      && (q.Held? || q.Asked? || q.Unlinked? || q.Awaiting? || q.Expired? || q.ReAdding? ==>
            q.m in sess && q.m in ids && sess[q.m] == q.sid)
  }

  ghost predicate Looked(pc: Pcs, sess: map<Tid, Sid>, ids: map<Tid, nat>)
  {
    forall t :: t in pc ==> LooksRight(pc[t], sess, ids)
  }

  function Holders(pc: Pcs): set<Tid> { set t | t in pc && Holds(pc[t]) }

  function Rank(st: Stage): nat
  {
    match st
    case Marked => 0
    case Down => 1
    case Dropped(_) => 2
    case Emptied(_) => 2
    case Silenced(_) => 2
    case Drained => 2
    case Alone => 3
    case Stopped => 4
    case Joined => 5
    case Unhashed => 6
  }

  // What the destroyer has achieved by its stage.
  ghost predicate Achieved(t: Tid, st: Stage, holders: set<Tid>, room: Room)
  {
    && room.destruct
    && (Rank(st) >= 1 ==> room.destroyed)
    && (Rank(st) >= 3 ==> holders == {t})
    && (Rank(st) >= 4 ==> !room.producerRun)
    && (Rank(st) >= 5 ==> room.producer == Exited)
    && (Rank(st) >= 6 ==> !room.inHash)
  }

  // The count is the number of threads with a reference. A room that is not there yet, or no more,
  // has none and is not in the table.
  ghost predicate Counted(pc: Pcs, liveRefs: int, room: Room)
  {
    && (!room.freed ==> liveRefs == |Holders(pc)|)
    && (!room.made || room.freed ==> Holders(pc) == {} && !room.inHash)
    && (room.freed ==> room.producer == Exited)
    && (!room.destruct ==> !room.destroyed && !room.freed)
    && (!room.made ==> !room.destruct)
  }

  ghost predicate Torn(pc: Pcs, room: Room)
  {
    && (forall t :: t in pc && pc[t] == Walker ==> room.inHash)
    && (forall t :: t in pc && pc[t].Destroyer? ==> Achieved(t, pc[t].stage, Holders(pc), room))
    && (forall t, u :: t in pc && u in pc && pc[t].Destroyer? && pc[u].Destroyer? ==> t == u)
  }

  ghost predicate Inv(s: State)
  {
    && Unique(s.sess, s.ids, s.nextId)
    && Named(s.pc, s.sess, s.ids)
    && (forall m :: m in s.listed ==> m in s.ids)
    && Staged(s.pc, s.speaker, s.readers, s.room.producer)
    && Housed(s.pc, s.sess, s.gone)
    && Looked(s.pc, s.sess, s.ids)
    && Counted(s.pc, s.liveRefs, s.room)
    && Torn(s.pc, s.room)
  }

  // ---------------------------------------------------------------- one thread moves

  lemma HoldersAfter(pc: Pcs, t: Tid, p: Pc)
    ensures Holders(pc[t := p]) == if Holds(p) then Holders(pc) + {t} else Holders(pc) - {t}
    ensures t in Holders(pc) <==> Holds(At(pc, t))
  {
  }

  lemma MoveNamed(pc: Pcs, sess: map<Tid, Sid>, ids: map<Tid, nat>, t: Tid, p: Pc)
    requires Named(pc, sess, ids)
    requires (p.Member? ==> t in sess) && (t in sess ==> p.Member? || p.Returned?) && (HasId(p) ==> t in ids)
    ensures Named(pc[t := p], sess, ids)
  {
  }

  lemma MoveStaged(pc: Pcs, speaker: Option<Tid>, readers: map<Reader, Option<Tid>>, producer: Producer, t: Tid, p: Pc)
    requires Staged(pc, speaker, readers, producer)
    requires (speaker == Some(t) ==> OnStage(p)) && (Thread(t) in readers ==> p == Caller(Idle) || p == Walker)
    ensures Staged(pc[t := p], speaker, readers, producer)
  {
  }

  lemma MoveHoused(pc: Pcs, sess: map<Tid, Sid>, gone: set<Sid>, t: Tid, p: Pc)
    requires Housed(pc, sess, gone)
    requires (t in sess && sess[t] in gone ==> p.Returned?) && (forall sid :: Pins(p, sid) ==> sid !in gone)
    ensures Housed(pc[t := p], sess, gone)
  {
  }

  function One(b: bool): nat { if b then 1 else 0 }

  // A move that gains or loses a reference counts it. References are gained only while the room is open.
  lemma MoveCounted(pc: Pcs, liveRefs: int, room: Room, t: Tid, p: Pc)
    requires Counted(pc, liveRefs, room)
    requires Holds(p) && !Holds(At(pc, t)) ==> room.made && !room.destruct
    ensures Counted(pc[t := p], liveRefs + One(Holds(p)) - One(Holds(At(pc, t))), room)
  {
    HoldersAfter(pc, t, p);
    assert Holds(p) == Holds(At(pc, t)) ==> Holders(pc[t := p]) == Holders(pc);
  }

  lemma MoveTorn(pc: Pcs, room: Room, t: Tid, p: Pc)
    requires Torn(pc, room)
    requires !p.Destroyer? && !At(pc, t).Destroyer? && (p == Walker ==> room.inHash)
    requires Holds(p) && !Holds(At(pc, t)) ==> !room.destruct
    ensures Torn(pc[t := p], room)
  {
    HoldersAfter(pc, t, p);
    assert Holds(p) == Holds(At(pc, t)) ==> Holders(pc[t := p]) == Holders(pc);
    forall u | u in pc && u != t && pc[u].Destroyer?
      ensures Achieved(u, pc[u].stage, Holders(pc[t := p]), room)
    {
      assert Achieved(u, pc[u].stage, Holders(pc), room);
      assert u in Holders(pc);
    }
  }

  // What the invariant asks of a thread, other than the destroyer, that goes on to p.
  ghost predicate MayMove(s: State, t: Tid, p: Pc)
  {
    && (p.Member? ==> t in s.sess) && (t in s.sess ==> p.Member? || p.Returned?) && (HasId(p) ==> t in s.ids)
    && (s.speaker == Some(t) ==> OnStage(p))
    && (Thread(t) in s.readers ==> p == Caller(Idle) || p == Walker)
    && (t in s.sess && s.sess[t] in s.gone ==> p.Returned?)
    && (forall sid :: Pins(p, sid) ==> sid !in s.gone)
    && LooksRight(p, s.sess, s.ids)
    && !p.Destroyer? && !At(s.pc, t).Destroyer? && (p == Walker ==> s.room.inHash)
    && (Holds(p) && !Holds(At(s.pc, t)) ==> s.room.made && !s.room.destruct)
  }

  lemma MoveKeeps(s: State, t: Tid, p: Pc)
    requires Inv(s) && MayMove(s, t, p)
    ensures Inv(s.(pc := s.pc[t := p], liveRefs := s.liveRefs + One(Holds(p)) - One(Holds(At(s.pc, t)))))
  {
    MoveNamed(s.pc, s.sess, s.ids, t, p);
    MoveStaged(s.pc, s.speaker, s.readers, s.room.producer, t, p);
    MoveHoused(s.pc, s.sess, s.gone, t, p);
    MoveCounted(s.pc, s.liveRefs, s.room, t, p);
    MoveTorn(s.pc, s.room, t, p);
  }

  // A session thread inside the application goes on.
  lemma GoKeeps(s: State, t: Tid, p: Place)
    requires Inv(s) && At(s.pc, t).Member? && !At(s.pc, t).at.Creating? && !p.Creating?
    requires HasId(Member(p)) ==> HasId(At(s.pc, t)) || t in s.ids
    requires s.speaker == Some(t) ==> OnStage(Member(p))
    ensures Inv(Go(s, t, p))
  {
    MoveKeeps(s, t, Member(p));
  }

  lemma SetSpeaker(s: State, v: Option<Tid>)
    requires Inv(s) && NoReaders(s) && (v.Some? ==> OnStage(At(s.pc, v.value)))
    ensures Inv(s.(speaker := v))
  {
  }

  lemma NameKeeps(s: State, m: Tid)
    requires Inv(s) && m in s.sess
    ensures Inv(Name(s, m)) && m in Name(s, m).ids
  {
    var s' := Name(s, m);
    forall t | t in s.pc ensures LooksRight(s.pc[t], s'.sess, s'.ids) {
      assert LooksRight(s.pc[t], s.sess, s.ids);
    }
  }

  // ---------------------------------------------------------------- a session thread's steps

  lemma EnterKeeps(s: State, t: Tid, sid: Sid, role: Role, exclusive: bool)
    requires Inv(s) && Enter(s, t, sid, role, exclusive).Some?
    ensures Inv(Enter(s, t, sid, role, exclusive).value)
  {
    var p := Member(if !Open(s.room) then Creating(role) else if exclusive then Refused else Entering(role));
    NewSession(s.pc, s.sess, s.ids, s.gone, t, sid, p);
    MoveStaged(s.pc, s.speaker, s.readers, s.room.producer, t, p);
    MoveCounted(s.pc, s.liveRefs, s.room, t, p);
    MoveTorn(s.pc, s.room, t, p);
  }

  lemma NewSession(pc: Pcs, sess: map<Tid, Sid>, ids: map<Tid, nat>, gone: set<Sid>, t: Tid, sid: Sid, p: Pc)
    requires Named(pc, sess, ids) && Housed(pc, sess, gone) && Looked(pc, sess, ids)
    requires At(pc, t) == Absent && p.Member? && !HasId(p) && sid !in gone
    ensures var pc', sess' := pc[t := p], sess[t := sid];
            Named(pc', sess', ids) && Housed(pc', sess', gone) && Looked(pc', sess', ids)
  {
    forall u | u in pc ensures LooksRight(pc[u], sess[t := sid], ids) {
      assert LooksRight(pc[u], sess, ids);
    }
  }

  lemma CreateKeeps(s: State, t: Tid, ok: bool)
    requires Inv(s) && Create(s, t, ok).Some?
    ensures Inv(Create(s, t, ok).value)
  {
    var s' := Create(s, t, ok).value;
    var p := s'.pc[t];
    if p.Returned? {
      MoveKeeps(s, t, p);
    } else {
      MoveNamed(s.pc, s.sess, s.ids, t, p);
      MoveStaged(s.pc, s.speaker, s.readers, s.room.producer, t, p);
      MoveHoused(s.pc, s.sess, s.gone, t, p);
      FirstHolder(s, t, p);
    }
  }

  lemma FirstHolder(s: State, t: Tid, p: Pc)
    requires Counted(s.pc, s.liveRefs, s.room) && Torn(s.pc, s.room) && !s.room.made && Holds(p) && !p.Destroyer?
    ensures var room := s.room.(made := true, inHash := true, producer := Running, producerRun := true);
            Counted(s.pc[t := p], s.liveRefs + 1, room) && Torn(s.pc[t := p], room) && !s.room.freed
  {
    HoldersAfter(s.pc, t, p);
    assert forall u :: u in s.pc && s.pc[u].Destroyer? ==> u in Holders(s.pc);
  }

  lemma LetGoKeeps(s: State, t: Tid)
    requires Inv(s) && LetGo(s, t).Some?
    ensures Inv(LetGo(s, t).value)
  {
    MoveKeeps(s, t, Returned);
  }

  lemma ClaimKeeps(c: Config, s: State, t: Tid)
    requires Inv(s) && Claim(c, s, t).Some?
    ensures Inv(Claim(c, s, t).value)
  {
    GoKeeps(s, t, Claim(c, s, t).value.pc[t].at);
  }

  lemma LeaveKeeps(s: State, t: Tid)
    requires Inv(s)
    ensures Leave(s, t).Some? ==> Inv(Leave(s, t).value)
    ensures Test(s, t).Some? ==> Inv(Test(s, t).value)
  {
    if Leave(s, t).Some? { GoKeeps(s, t, Leaving); }
    if Test(s, t).Some? { GoKeeps(s, t, Test(s, t).value.pc[t].at); }
  }

  lemma TakeIdKeeps(s: State, t: Tid)
    requires Inv(s) && TakeId(s, t).Some?
    ensures Inv(TakeId(s, t).value)
  {
    NameKeeps(s, t);
    GoKeeps(Name(s, t), t, Taking(false));
  }

  lemma TakeKeeps(s: State, t: Tid, ok: bool)
    requires Inv(s) && Take(s, t, ok).Some?
    ensures Inv(Take(s, t, ok).value)
  {
    var p := Take(s, t, ok).value.pc[t].at;
    GoKeeps(s, t, p);
    if ok { SetSpeaker(Go(s, t, p), Some(t)); }
  }

  lemma ClearKeeps(s: State, t: Tid)
    requires Inv(s) && Clear(s, t).Some?
    ensures Inv(Clear(s, t).value)
  {
    SetSpeaker(s, None);
    GoKeeps(s.(speaker := None), t, LastClear);
  }

  // The comparison in the final clear never comes out true.
  lemma FinalClearKeeps(s: State, t: Tid)
    requires Inv(s) && FinalClear(s, t).Some?
    ensures FinalClear(s, t) == Some(Go(s, t, Releasing)) && Inv(FinalClear(s, t).value)
  {
    GoKeeps(s, t, Releasing);
  }

  lemma PrepareKeeps(s: State, t: Tid, ok: bool)
    requires Inv(s) && Prepare(s, t, ok).Some?
    ensures Inv(Prepare(s, t, ok).value)
  {
    GoKeeps(s, t, Prepare(s, t, ok).value.pc[t].at);
  }

  lemma AddCheckKeeps(s: State, t: Tid, locked: bool)
    requires Inv(s) && AddCheck(s, t, locked).Some?
    ensures Inv(AddCheck(s, t, locked).value)
  {
    GoKeeps(s, t, AddCheck(s, t, locked).value.pc[t].at);
  }

  lemma BridgeKeeps(s: State, t: Tid)
    requires Inv(s)
    ensures Cross(s, t).Some? ==> Inv(Cross(s, t).value)
    ensures Exit(s, t).Some? ==> Inv(Exit(s, t).value)
  {
    if Cross(s, t).Some? { GoKeeps(s, t, InBridge); }
    if Exit(s, t).Some? { GoKeeps(s, t, OffBridge); }
  }

  lemma BranchKeeps(s: State, t: Tid)
    requires Inv(s) && Branch(s, t).Some?
    ensures Inv(Branch(s, t).value)
  {
    GoKeeps(s, t, Branch(s, t).value.pc[t].at);
  }

  lemma UnlistKeeps(s: State, t: Tid)
    requires Inv(s) && Unlist(s, t).Some?
    ensures Inv(Unlist(s, t).value)
  {
    GoKeeps(s, t, LastClear);
  }

  lemma ListKeeps(s: State, m: Tid)
    requires Inv(s) && m in s.ids
    ensures Inv(s.(listed := s.listed + {m}))
  {
  }

  lemma InsertKeeps(s: State, t: Tid)
    requires Inv(s) && IsAt(s, t, Inserting)
    ensures Inv(Go(Name(s, t).(listed := s.listed + {t}), t, Added))
  {
    NameKeeps(s, t);
    ListKeeps(Name(s, t), t);
    GoKeeps(Name(s, t).(listed := s.listed + {t}), t, Added);
  }

  lemma AddLockedKeeps(c: Config, s: State, t: Tid)
    requires Inv(s) && AddLocked(c, s, t).Some?
    ensures Inv(AddLocked(c, s, t).value)
  {
    if |s.listed| >= c.maxListeners {
      GoKeeps(s, t, Refused);
    } else {
      InsertKeeps(s, t);
      assert AddLocked(c, s, t).value == Go(Name(s, t).(listed := s.listed + {t}), t, Added);
    }
  }

  lemma ActKeeps(c: Config, s: State, t: Tid, a: Act)
    requires Inv(s) && DoAct(c, s, t, a).Some?
    ensures Inv(DoAct(c, s, t, a).value)
  {
    match a
    case AEnter(sid, role, exclusive) => EnterKeeps(s, t, sid, role, exclusive);
    case ACreate(ok) => CreateKeeps(s, t, ok);
    case APrepare(ok) => PrepareKeeps(s, t, ok);
    case AClaim => ClaimKeeps(c, s, t);
    case ATakeId => TakeIdKeeps(s, t);
    case ATake(ok) => TakeKeeps(s, t, ok);
    case ALeave => LeaveKeeps(s, t);
    case ATest => LeaveKeeps(s, t);
    case AClear => ClearKeeps(s, t);
    case AAddCheck(locked) => AddCheckKeeps(s, t, locked);
    case AAddLocked => AddLockedKeeps(c, s, t);
    case ACross => BridgeKeeps(s, t);
    case AExit => BridgeKeeps(s, t);
    case ABranch => BranchKeeps(s, t);
    case AUnlist => UnlistKeeps(s, t);
    case AFinalClear => FinalClearKeeps(s, t);
    case ALetGo => LetGoKeeps(s, t);
  }

  // ---------------------------------------------------------------- an API call's steps

  lemma AskKeeps(s: State, t: Tid, q: Request)
    requires Inv(s) && At(s.pc, t).Caller? && Thread(t) !in s.readers
    requires forall sid :: Pins(Caller(q), sid) ==> sid !in s.gone
    requires LooksRight(Caller(q), s.sess, s.ids)
    ensures Inv(Ask(s, t, q))
  {
    MoveKeeps(s, t, Caller(q));
  }

  // A call that is busy reads nothing under speaker_lock.
  lemma Busy(s: State, t: Tid)
    requires Inv(s) && At(s.pc, t).Caller? && !At(s.pc, t).req.Idle?
    ensures Thread(t) !in s.readers && LooksRight(At(s.pc, t), s.sess, s.ids)
    ensures forall sid :: Pins(At(s.pc, t), sid) ==> sid !in s.gone
  {
    assert At(s.pc, t) == s.pc[t];
  }

  lemma CallKeeps(s: State, t: Tid)
    requires Inv(s) && Call(s, t).Some?
    ensures Inv(Call(s, t).value)
  {
    MoveKeeps(s, t, if Open(s.room) then Caller(Idle) else Returned);
  }

  lemma HangupKeeps(s: State, t: Tid)
    requires Inv(s) && Hangup(s, t).Some?
    ensures Inv(Hangup(s, t).value)
  {
    MoveKeeps(s, t, Returned);
  }

  lemma LookKeeps(s: State, t: Tid, id: nat)
    requires Inv(s) && Look(s, t, id).Some?
    ensures Inv(Look(s, t, id).value)
  {
    if id != 0 { AskKeeps(s, t, Looking(id)); }
  }

  lemma LookListedKeeps(s: State, t: Tid, id: nat, m: Option<Tid>)
    requires Inv(s) && LookListed(s, t, id, m).Some?
    ensures Inv(LookListed(s, t, id, m).value)
  {
    AskKeeps(s, t, LookListed(s, t, id, m).value.pc[t].req);
  }

  lemma LookSpeakerKeeps(s: State, t: Tid, id: nat)
    requires Inv(s) && LookSpeaker(s, t, id).Some?
    ensures Inv(LookSpeaker(s, t, id).value)
  {
    AskKeeps(s, t, LookSpeaker(s, t, id).value.pc[t].req);
  }

  lemma PinKeeps(s: State, t: Tid)
    requires Inv(s) && Pin(s, t).Some?
    ensures Inv(Pin(s, t).value)
  {
    Busy(s, t);
    AskKeeps(s, t, Pin(s, t).value.pc[t].req);
  }

  lemma AgainListedKeeps(s: State, t: Tid, m: Option<Tid>)
    requires Inv(s) && AgainListed(s, t, m).Some?
    ensures Inv(AgainListed(s, t, m).value)
  {
    Busy(s, t);
    AskKeeps(s, t, AgainListed(s, t, m).value.pc[t].req);
  }

  lemma AgainSpeakerKeeps(s: State, t: Tid)
    requires Inv(s) && AgainSpeaker(s, t).Some?
    ensures Inv(AgainSpeaker(s, t).value)
  {
    Busy(s, t);
    AskKeeps(s, t, AgainSpeaker(s, t).value.pc[t].req);
  }

  lemma DropOrAskKeeps(s: State, t: Tid, promote: bool)
    requires Inv(s) && DropOrAsk(s, t, promote).Some?
    ensures Inv(DropOrAsk(s, t, promote).value)
  {
    Busy(s, t);
    AskKeeps(s, t, DropOrAsk(s, t, promote).value.pc[t].req);
  }

  lemma UnlinkKeeps(s: State, t: Tid)
    requires Inv(s) && UnlinkHeld(s, t).Some?
    ensures Inv(UnlinkHeld(s, t).value)
  {
    Busy(s, t);
    AskKeeps(s, t, UnlinkHeld(s, t).value.pc[t].req);
  }

  lemma FlagKeeps(s: State, t: Tid)
    requires Inv(s) && Flag(s, t).Some?
    ensures Inv(Flag(s, t).value)
  {
    Busy(s, t);
    AskKeeps(s, t, Flag(s, t).value.pc[t].req);
  }

  lemma AwaitKeeps(c: Config, s: State, t: Tid)
    requires Inv(s)
    ensures Done(s, t).Some? ==> Inv(Done(s, t).value)
    ensures Expire(c, s, t).Some? ==> Inv(Expire(c, s, t).value)
    ensures Unflag(s, t).Some? ==> Inv(Unflag(s, t).value)
  {
    if Done(s, t).Some? {
      Busy(s, t);
      AskKeeps(s, t, Idle);
    }
    if Expire(c, s, t).Some? {
      Busy(s, t);
      AskKeeps(s, t, Expire(c, s, t).value.pc[t].req);
    }
    if Unflag(s, t).Some? {
      Busy(s, t);
      AskKeeps(s, t, Unflag(s, t).value.pc[t].req);
    }
  }

  lemma AddBackKeeps(c: Config, s: State, m: Tid, locked: bool)
    requires Inv(s) && m in s.ids
    ensures Inv(AddBack(c, s, m, locked))
  {
  }

  lemma RollbackKeeps(c: Config, s: State, t: Tid, locked: bool)
    requires Inv(s) && Rollback(c, s, t, locked).Some?
    ensures Inv(Rollback(c, s, t, locked).value)
  {
    var m := At(s.pc, t).req.m;
    Busy(s, t);
    AskKeeps(s, t, Idle);
    AddBackKeeps(c, Ask(s, t, Idle).(wants := s.wants - {m}), m, locked);
  }

  lemma ReAddKeeps(c: Config, s: State, t: Tid, locked: bool)
    requires Inv(s) && ReAdd(c, s, t, locked).Some?
    ensures Inv(ReAdd(c, s, t, locked).value)
  {
    Busy(s, t);
    AskKeeps(s, t, Idle);
    AddBackKeeps(c, Ask(s, t, Idle), At(s.pc, t).req.m, locked);
  }

  lemma CmdKeeps(c: Config, s: State, t: Tid, cmd: Cmd)
    requires Inv(s) && DoCmd(c, s, t, cmd).Some?
    ensures Inv(DoCmd(c, s, t, cmd).value)
  {
    match cmd
    case CCall => CallKeeps(s, t);
    case CHangup => HangupKeeps(s, t);
    case CClearSpeaker => SetSpeaker(s, None);
    case CLook(id) => LookKeeps(s, t, id);
    case CLookListed(id, m) => LookListedKeeps(s, t, id, m);
    case CLookSpeaker(id) => LookSpeakerKeeps(s, t, id);
    case CPin => PinKeeps(s, t);
    case CAgainListed(m) => AgainListedKeeps(s, t, m);
    case CAgainSpeaker => AgainSpeakerKeeps(s, t);
    case CDropOrAsk(promote) => DropOrAskKeeps(s, t, promote);
    case CUnlink => UnlinkKeeps(s, t);
    case CFlag => FlagKeeps(s, t);
    case CDone => AwaitKeeps(c, s, t);
    case CRollback(locked) => RollbackKeeps(c, s, t, locked);
    case CExpire => AwaitKeeps(c, s, t);
    case CUnflag => AwaitKeeps(c, s, t);
    case CReAdd(locked) => ReAddKeeps(c, s, t, locked);
  }

  // ---------------------------------------------------------------- the destroyer's steps

  lemma StageMove(pc: Pcs, liveRefs: int, room: Room, t: Tid, st: Stage, room': Room)
    requires Counted(pc, liveRefs, room) && Torn(pc, room)
    requires At(pc, t).Destroyer? || (At(pc, t).Caller? && !room.destruct)
    requires room'.made == room.made && room'.freed == room.freed && room'.producer == room.producer
    requires room'.inHash == room.inHash || (!room'.inHash && forall u :: u in pc ==> pc[u] != Walker)
    requires Achieved(t, st, Holders(pc), room')
    ensures Counted(pc[t := Destroyer(st)], liveRefs, room') && Torn(pc[t := Destroyer(st)], room')
  {
    HoldersAfter(pc, t, Destroyer(st));
    assert Holders(pc[t := Destroyer(st)]) == Holders(pc);
  }

  lemma StageKeeps(s: State, t: Tid, st: Stage, room': Room)
    requires Inv(s) && Thread(t) !in s.readers
    requires At(s.pc, t).Destroyer? || (At(s.pc, t).Caller? && !s.room.destruct)
    requires room'.made == s.room.made && room'.freed == s.room.freed && room'.producer == s.room.producer
    requires room'.inHash == s.room.inHash || (!room'.inHash && forall u :: u in s.pc ==> s.pc[u] != Walker)
    requires Achieved(t, st, Holders(s.pc), room')
    ensures Inv(Move(s, t, Destroyer(st)).(room := room'))
  {
    MoveNamed(s.pc, s.sess, s.ids, t, Destroyer(st));
    MoveStaged(s.pc, s.speaker, s.readers, s.room.producer, t, Destroyer(st));
    MoveHoused(s.pc, s.sess, s.gone, t, Destroyer(st));
    StageMove(s.pc, s.liveRefs, s.room, t, st, room');
  }

  // One reference left, and the destroyer has one.
  lemma OnlyOne(S: set<Tid>, t: Tid)
    requires t in S && |S| <= 1
    ensures S == {t}
  {
    assert |S - {t}| == |S| - 1;
    assert S - {t} == {};
  }

  lemma DropSpeakerKeeps(s: State, t: Tid)
    requires Inv(s) && At(s.pc, t) == Destroyer(Down) && NoReaders(s)
    ensures Inv(Move(s, t, Destroyer(Dropped(s.speaker))).(speaker := None))
  {
    SetSpeaker(s, None);
    assert Achieved(t, Down, Holders(s.pc), s.room);
    StageKeeps(s.(speaker := None), t, Dropped(s.speaker), s.room);
  }

  lemma DrainKeeps(s: State, t: Tid)
    requires Inv(s) && TearDown(s, t).Some? && Rank(s.pc[t].stage) <= 2 && !s.pc[t].stage.Drained?
    ensures Inv(TearDown(s, t).value)
  {
    var st := s.pc[t].stage;
    assert Achieved(t, st, Holders(s.pc), s.room);
    match st
    case Marked => StageKeeps(s, t, Down, s.room.(destroyed := true));
    case Down => DropSpeakerKeeps(s, t);
    case Dropped(was) => StageKeeps(s, t, Emptied(was), s.room);
    case Emptied(was) => StageKeeps(s, t, Silenced(was), s.room);
    case Silenced(was) => StageKeeps(s, t, Drained, s.room);
  }

  lemma AloneKeeps(s: State, t: Tid)
    requires Inv(s) && At(s.pc, t) == Destroyer(Drained) && s.liveRefs <= 1
    ensures Inv(Move(s, t, Destroyer(Alone)))
  {
    assert Achieved(t, Drained, Holders(s.pc), s.room) && t in Holders(s.pc);
    OnlyOne(Holders(s.pc), t);
    StageKeeps(s, t, Alone, s.room);
  }

  lemma CloseKeeps(s: State, t: Tid)
    requires Inv(s) && TearDown(s, t).Some? && (Rank(s.pc[t].stage) >= 3 || s.pc[t].stage.Drained?)
    ensures Inv(TearDown(s, t).value)
  {
    var st := s.pc[t].stage;
    assert Achieved(t, st, Holders(s.pc), s.room);
    match st
    case Drained => AloneKeeps(s, t);
    case Alone => StageKeeps(s, t, Stopped, s.room.(producerRun := false));
    case Stopped => StageKeeps(s, t, Joined, s.room);
    case Joined => StageKeeps(s, t, Unhashed, s.room.(inHash := false));
    case Unhashed => FreeKeeps(s, t);
  }

  lemma FreeKeeps(s: State, t: Tid)
    requires Inv(s) && At(s.pc, t) == Destroyer(Unhashed)
    ensures Inv(Move(s, t, Returned).(room := s.room.(freed := true)))
  {
    var p := Returned;
    MoveNamed(s.pc, s.sess, s.ids, t, p);
    MoveStaged(s.pc, s.speaker, s.readers, s.room.producer, t, p);
    MoveHoused(s.pc, s.sess, s.gone, t, p);
    HoldersAfter(s.pc, t, p);
    assert Holders(s.pc) == {t};
  }

  // ---------------------------------------------------------------- the rest

  lemma ReadersKeep(s: State, r: Reader)
    requires Inv(s)
    ensures ReadLock(s, r).Some? ==> Inv(ReadLock(s, r).value)
    ensures ReadUnlock(s, r).Some? ==> Inv(ReadUnlock(s, r).value)
  {
  }

  lemma WalkKeeps(s: State, t: Tid)
    requires Inv(s)
    ensures Walk(s, t).Some? ==> Inv(Walk(s, t).value)
    ensures WalkOn(s, t).Some? ==> Inv(WalkOn(s, t).value)
  {
    if Walk(s, t).Some? { MoveKeeps(s, t, Walker); }
    if WalkOn(s, t).Some? { MoveKeeps(s, t, Returned); }
  }

  lemma ProducerExitKeeps(s: State)
    requires Inv(s) && ProducerExit(s).Some?
    ensures Inv(ProducerExit(s).value)
  {
  }

  lemma EndSessionKeeps(s: State, sid: Sid)
    requires Inv(s) && EndSession(s, sid).Some?
    ensures Inv(EndSession(s, sid).value)
  {
  }

  lemma StepKeeps(c: Config, s: State, step: Step)
    requires Inv(s) && Do(c, s, step).Some?
    ensures Inv(Do(c, s, step).value)
  {
    match step
    case App(t, a) => ActKeeps(c, s, t, a);
    case Api(t, cmd) => CmdKeeps(c, s, t, cmd);
    case Sys(t, EDestruct) => StageKeeps(s, t, Marked, s.room.(destruct := true));
    case Sys(t, ETearDown) => if Rank(s.pc[t].stage) <= 2 && !s.pc[t].stage.Drained? { DrainKeeps(s, t); } else { CloseKeeps(s, t); }
    case Sys(t, _) => WalkKeeps(s, t);
    case Lock(r) => ReadersKeep(s, r);
    case Unlock(r) => ReadersKeep(s, r);
    case StopTicking => ProducerExitKeeps(s);
    case Gone(sid) => EndSessionKeeps(s, sid);
  }

  lemma {:induction false} RunKeeps(c: Config, s: State, steps: seq<Step>)
    requires Inv(s) && Run(c, s, steps).Some?
    ensures Inv(Run(c, s, steps).value)
    decreases |steps|
  {
    if steps != [] {
      StepKeeps(c, s, steps[0]);
      RunKeeps(c, Do(c, s, steps[0]).value, steps[1..]);
    }
  }

  // ---------------------------------------------------------------- what it comes to

  // A pointer to a member is good: its thread is in the application and its session is not freed.
  ghost predicate Alive(s: State, m: Tid)
  {
    Holds(At(s.pc, m)) && At(s.pc, m).Member? && m in s.sess && s.sess[m] !in s.gone
  }

  // In every run the current speaker is a member that its own thread has published and not yet
  // cleared, and the pointer that the producer or anyone else took under speaker_lock is still the
  // current one, so that no read-locked region touches a member whose application call is over.
  lemma SpeakerIsAlive(c: Config, steps: seq<Step>)
    requires Run(c, INIT, steps).Some?
    ensures var s := Run(c, INIT, steps).value;
            && (s.speaker.Some? ==> OnStage(At(s.pc, s.speaker.value)) && Alive(s, s.speaker.value))
            && (forall r :: r in s.readers ==>
                  s.readers[r] == s.speaker && (s.readers[r].Some? ==> Alive(s, s.readers[r].value)))
  {
    RunKeeps(c, INIT, steps);
  }

  // The last guard of every member's way out finds nothing to clear.
  lemma FinalClearIdle(c: Config, steps: seq<Step>, t: Tid)
    requires Run(c, INIT, steps).Some? && FinalClear(Run(c, INIT, steps).value, t).Some?
    ensures FinalClear(Run(c, INIT, steps).value, t).value.speaker == Run(c, INIT, steps).value.speaker
  {
    RunKeeps(c, INIT, steps);
    FinalClearKeeps(Run(c, INIT, steps).value, t);
  }

  // The reference count is the number of threads that hold the room: sessions in the application, API
  // calls and the destroyer.
  lemma RefsCounted(c: Config, steps: seq<Step>)
    requires Run(c, INIT, steps).Some?
    ensures var s := Run(c, INIT, steps).value;
            !s.room.freed ==> s.liveRefs == |Holders(s.pc)|
  {
    RunKeeps(c, INIT, steps);
  }

  predicate GivesId(a: Act) { a.ATakeId? || a.AAddLocked? }

  predicate OnTheList(a: Act) { a.AAddCheck? || a.ACross? || a.AExit? || a.ABranch? || a.AUnlist? || a.AFinalClear? || a.ALetGo? }

  lemma NamedGainsNone(c: Config, s: State, t: Tid, a: Act)
    requires DoAct(c, s, t, a).Some? && GivesId(a)
    ensures var s' := DoAct(c, s, t, a).value;
            s'.pc == s.pc[t := At(s'.pc, t)] && (Holds(At(s'.pc, t)) ==> Holds(At(s.pc, t)))
  {
  }

  lemma ListGainsNone(c: Config, s: State, t: Tid, a: Act)
    requires DoAct(c, s, t, a).Some? && OnTheList(a)
    ensures var s' := DoAct(c, s, t, a).value;
            s'.pc == s.pc[t := At(s'.pc, t)] && (Holds(At(s'.pc, t)) ==> Holds(At(s.pc, t)))
  {
  }

  lemma StageGainsNone(c: Config, s: State, t: Tid, a: Act)
    requires s.room.destruct && s.room.made && DoAct(c, s, t, a).Some? && !GivesId(a) && !OnTheList(a)
    ensures var s' := DoAct(c, s, t, a).value;
            s'.pc == s.pc[t := At(s'.pc, t)] && (Holds(At(s'.pc, t)) ==> Holds(At(s.pc, t)))
  {
  }

  lemma ActGainsNone(c: Config, s: State, t: Tid, a: Act)
    requires s.room.destruct && s.room.made && DoAct(c, s, t, a).Some?
    ensures var s' := DoAct(c, s, t, a).value;
            s'.pc == s.pc[t := At(s'.pc, t)] && (Holds(At(s'.pc, t)) ==> Holds(At(s.pc, t)))
  {
    if GivesId(a) {
      NamedGainsNone(c, s, t, a);
    } else if OnTheList(a) {
      ListGainsNone(c, s, t, a);
    } else {
      StageGainsNone(c, s, t, a);
    }
  }

  predicate IsLookup(cmd: Cmd)
  {
    cmd.CCall? || cmd.CHangup? || cmd.CClearSpeaker? || cmd.CLook? || cmd.CLookListed? || cmd.CLookSpeaker? || cmd.CPin?
  }

  lemma LookupGainsNone(c: Config, s: State, t: Tid, cmd: Cmd)
    requires s.room.destruct && IsLookup(cmd) && DoCmd(c, s, t, cmd).Some?
    ensures var s' := DoCmd(c, s, t, cmd).value;
            s'.pc == s.pc[t := At(s'.pc, t)] && (Holds(At(s'.pc, t)) ==> Holds(At(s.pc, t)))
  {
  }

  lemma PromoterGainsNone(c: Config, s: State, t: Tid, cmd: Cmd)
    requires !IsLookup(cmd) && DoCmd(c, s, t, cmd).Some?
    ensures var s' := DoCmd(c, s, t, cmd).value;
            s'.pc == s.pc[t := At(s'.pc, t)] && (Holds(At(s'.pc, t)) ==> Holds(At(s.pc, t)))
  {
    if cmd.CRollback? || cmd.CReAdd? { BackGainsNone(c, s, t, cmd.locked); }
  }

  lemma BackGainsNone(c: Config, s: State, t: Tid, locked: bool)
    ensures Rollback(c, s, t, locked).Some? ==>
              Rollback(c, s, t, locked).value.pc == s.pc[t := Caller(Idle)] && Holds(At(s.pc, t))
    ensures ReAdd(c, s, t, locked).Some? ==>
              ReAdd(c, s, t, locked).value.pc == s.pc[t := Caller(Idle)] && Holds(At(s.pc, t))
  {
  }

  lemma TearDownMoves(s: State, t: Tid)
    requires TearDown(s, t).Some?
    ensures var s' := TearDown(s, t).value;
            && s'.pc == s.pc[t := At(s'.pc, t)] && s'.listed == s.listed && s'.wants == s.wants
            && (At(s'.pc, t).Destroyer? || At(s'.pc, t).Returned?) && At(s.pc, t).Destroyer?
            && (s'.speaker == if s.pc[t].stage.Down? then None else s.speaker)
  {
    match s.pc[t].stage
    case Marked =>
    case Down =>
    case _ =>
  }

  lemma SysGainsNone(c: Config, s: State, step: Step)
    requires s.room.destruct && !step.App? && !step.Api? && Do(c, s, step).Some?
    ensures Holders(Do(c, s, step).value.pc) <= Holders(s.pc)
  {
    match step
    case Sys(t, ETearDown) =>
      TearDownMoves(s, t);
      HoldersAfter(s.pc, t, At(Do(c, s, step).value.pc, t));
    case Sys(t, EWalk) => HoldersAfter(s.pc, t, Walker);
    case Sys(t, EWalkOn) => HoldersAfter(s.pc, t, Returned);
    case Sys(t, EDestruct) => HoldersAfter(s.pc, t, Destroyer(Marked));
    case _ =>
  }

  // Once the room is marked for destruction nobody new gets a reference.
  lemma NoneAfterDestruct(c: Config, steps: seq<Step>, step: Step)
    requires Run(c, INIT, steps).Some? && Do(c, Run(c, INIT, steps).value, step).Some?
    requires Run(c, INIT, steps).value.room.destruct
    ensures Holders(Do(c, Run(c, INIT, steps).value, step).value.pc) <= Holders(Run(c, INIT, steps).value.pc)
  {
    var s := Run(c, INIT, steps).value;
    assert s.room.made by { RunKeeps(c, INIT, steps); }
    match step
    case App(t, a) => ActGainsNone(c, s, t, a); HoldersAfter(s.pc, t, At(Do(c, s, step).value.pc, t));
    case Api(t, cmd) =>
      if IsLookup(cmd) { LookupGainsNone(c, s, t, cmd); } else { PromoterGainsNone(c, s, t, cmd); }
      HoldersAfter(s.pc, t, At(Do(c, s, step).value.pc, t));
    case _ => SysGainsNone(c, s, step);
  }

  lemma FreedFacts(s: State)
    requires Inv(s) && s.room.freed
    ensures forall t :: !Holds(At(s.pc, t)) && At(s.pc, t) != Walker
    ensures s.readers == map[] && s.speaker == None
  {
    forall t ensures !Holds(At(s.pc, t)) && At(s.pc, t) != Walker {
      assert t !in Holders(s.pc);
    }
    assert forall r :: !CanRead(s.pc, s.room.producer, r);
    assert s.readers.Keys == {};
  }

  // When the pool is freed no thread holds the room or walks over it, none reads its speaker, the
  // producer has ended and the table does not lead to it.
  lemma NothingAtFree(c: Config, steps: seq<Step>)
    requires Run(c, INIT, steps).Some? && Run(c, INIT, steps).value.room.freed
    ensures var s := Run(c, INIT, steps).value;
            && (forall t :: !Holds(At(s.pc, t)) && At(s.pc, t) != Walker)
            && s.readers == map[] && s.speaker == None
            && s.room.producer == Exited && !s.room.inHash
  {
    RunKeeps(c, INIT, steps);
    FreedFacts(Run(c, INIT, steps).value);
  }

  // A call that holds a member has that very member's session pinned: the member is the one it found
  // first, the session is its session and is not freed, and it carries the id that was asked for.
  lemma PinnedIsHeld(c: Config, steps: seq<Step>, t: Tid)
    requires Run(c, INIT, steps).Some? && At(Run(c, INIT, steps).value.pc, t).Caller?
    requires At(Run(c, INIT, steps).value.pc, t).req.Held?
    ensures var s := Run(c, INIT, steps).value;
            var q := s.pc[t].req;
            && q.m == q.first && q.m in s.ids && s.ids[q.m] == q.id && q.id != 0
            && q.m in s.sess && s.sess[q.m] == q.sid && q.sid !in s.gone
            && (forall m :: m in s.ids && s.ids[m] == q.id ==> m == q.m)
  {
    RunKeeps(c, INIT, steps);
    Busy(Run(c, INIT, steps).value, t);
  }

  ghost predicate Grows(ids: map<Tid, nat>, ids': map<Tid, nat>)
  {
    forall m :: m in ids ==> m in ids' && ids'[m] == ids[m]
  }

  lemma NewIds(c: Config, s: State, t: Tid, a: Act)
    requires DoAct(c, s, t, a).Some? && GivesId(a)
    ensures Grows(s.ids, DoAct(c, s, t, a).value.ids)
  {
  }

  lemma ListIds(c: Config, s: State, t: Tid, a: Act)
    requires DoAct(c, s, t, a).Some? && OnTheList(a)
    ensures DoAct(c, s, t, a).value.ids == s.ids
  {
  }

  lemma StageIds(c: Config, s: State, t: Tid, a: Act)
    requires DoAct(c, s, t, a).Some? && !GivesId(a) && !OnTheList(a)
    ensures DoAct(c, s, t, a).value.ids == s.ids
  {
  }

  lemma ActIds(c: Config, s: State, t: Tid, a: Act)
    requires DoAct(c, s, t, a).Some?
    ensures Grows(s.ids, DoAct(c, s, t, a).value.ids)
  {
    if GivesId(a) {
      NewIds(c, s, t, a);
    } else if OnTheList(a) {
      ListIds(c, s, t, a);
    } else {
      StageIds(c, s, t, a);
    }
  }

  lemma CmdIds(c: Config, s: State, t: Tid, cmd: Cmd)
    requires DoCmd(c, s, t, cmd).Some?
    ensures Grows(s.ids, DoCmd(c, s, t, cmd).value.ids)
  {
    if cmd.CRollback? || cmd.CReAdd? {
      BackIds(c, s, t, cmd.locked);
    } else {
      assert DoCmd(c, s, t, cmd).value.ids == s.ids;
    }
  }

  lemma BackIds(c: Config, s: State, t: Tid, locked: bool)
    ensures Rollback(c, s, t, locked).Some? ==> Grows(s.ids, Rollback(c, s, t, locked).value.ids)
    ensures ReAdd(c, s, t, locked).Some? ==> Grows(s.ids, ReAdd(c, s, t, locked).value.ids)
  {
  }

  lemma StepIds(c: Config, s: State, step: Step)
    requires Do(c, s, step).Some?
    ensures Grows(s.ids, Do(c, s, step).value.ids)
  {
    match step
    case App(t, a) => ActIds(c, s, t, a);
    case Api(t, cmd) => CmdIds(c, s, t, cmd);
    case _ =>
  }

  lemma {:induction false} RunIds(c: Config, s: State, steps: seq<Step>)
    requires Run(c, s, steps).Some?
    ensures Grows(s.ids, Run(c, s, steps).value.ids)
    decreases |steps|
  {
    if steps != [] {
      StepIds(c, s, steps[0]);
      RunIds(c, Do(c, s, steps[0]).value, steps[1..]);
    }
  }

  // An id once given stays with its member and is nobody else's, whatever happens afterwards.
  lemma IdsStay(c: Config, s: State, steps: seq<Step>, m: Tid)
    requires Inv(s) && m in s.ids && Run(c, s, steps).Some?
    ensures var ids := Run(c, s, steps).value.ids;
            m in ids && ids[m] == s.ids[m] != 0 && forall n :: n in ids && ids[n] == ids[m] ==> n == m
  {
    RunKeeps(c, s, steps);
    RunIds(c, s, steps);
  }
}
