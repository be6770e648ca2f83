/**
 Promoting a listener on runs of Lifecycle.dfy: a member is on the listener list or on the stage and
 never both, as long as no timed-out promotion puts a member back that has left the list for good.
 With the rollback in one step that cannot happen; with the rollback in three it can.
 */
module Promotion {
  import opened Options
  import opened Lifecycle
  import opened LifecycleSafety
  import Scenarios

  // A promotion of m that has taken m off the list and is not over.
  predicate Promotes(p: Pc, m: Tid)
  {
    p.Caller? && (p.req.Unlinked? || p.req.Awaiting? || p.req.Expired? || p.req.ReAdding?) && p.req.m == m
  }

  // It is rolling back, in three steps.
  predicate Splits(p: Pc) { p.Caller? && (p.req.Expired? || p.req.ReAdding?) }

  predicate ReAdds(p: Pc, m: Tid) { p == Caller(ReAdding(m, if p.Caller? && p.req.ReAdding? then p.req.sid else 0)) }

  // Not before the insertion into the list any more.
  predicate Started(p: Pc)
  {
    && !p.Absent?
    && (p.Member? ==> !(p.at.Creating? || p.at.Entering? || p.at.Claiming? || p.at.Naming? || p.at.Adding? || p.at.Inserting?))
  }

  // Only members between their insertion and their removal are on the list, members flagged for
  // promotion are off it, a listing is taken off by one promotion at a time, and the flag is down
  // before a member is put back.
  ghost predicate Orderly(pc: Pcs, listed: set<Tid>, wants: set<Tid>)
  {
    && (forall m :: m in listed ==> MayBeListed(At(pc, m)))
    && (forall m :: m in wants ==> m !in listed && Started(At(pc, m)))
    && (forall t, m :: t in pc && Promotes(pc[t], m) ==> m !in listed && Started(At(pc, m)))
    && (forall t, u, m :: t in pc && u in pc && Promotes(pc[t], m) && Promotes(pc[u], m) ==> t == u)
    && (forall t, m :: t in pc && ReAdds(pc[t], m) ==> m !in wants)
  }

  // Nobody is promoted in a room that lists nobody, and then, or with the rollback in one step, no
  // rollback is ever split up.
  ghost predicate Bare(c: Config, pc: Pcs, listed: set<Tid>)
  {
    && (c.maxListeners == 0 ==> listed == {} && forall t, m :: t in pc ==> !Promotes(pc[t], m))
    && (c.atomicRollback || c.maxListeners == 0 ==> forall t :: t in pc ==> !Splits(pc[t]))
  }

  ghost predicate Fine(c: Config, s: State) { Orderly(s.pc, s.listed, s.wants) && Bare(c, s.pc, s.listed) }

  // ---------------------------------------------------------------- one thread moves

  predicate MayGo(pc: Pcs, listed: set<Tid>, t: Tid, p: Pc)
  {
    (t in listed ==> MayBeListed(p)) && (Started(At(pc, t)) ==> Started(p)) && !p.Caller?
  }

  // A thread that is no call goes on.
  lemma GoFine(c: Config, pc: Pcs, listed: set<Tid>, wants: set<Tid>, t: Tid, p: Pc)
    requires Orderly(pc, listed, wants) && Bare(c, pc, listed) && MayGo(pc, listed, t, p)
    ensures Orderly(pc[t := p], listed, wants) && Bare(c, pc[t := p], listed)
  {
    assert forall m :: !Promotes(p, m) && !ReAdds(p, m);
  }

  // A call goes on with the promotion it is in, or with none.
  lemma AskFine(c: Config, pc: Pcs, listed: set<Tid>, wants: set<Tid>, t: Tid, q: Request)
    requires Orderly(pc, listed, wants) && Bare(c, pc, listed) && !MayBeListed(At(pc, t))
    requires forall m :: Promotes(Caller(q), m) ==> Promotes(At(pc, t), m)
    requires forall m :: ReAdds(Caller(q), m) ==> m !in wants
    requires c.atomicRollback || c.maxListeners == 0 ==> !Splits(Caller(q))
    ensures Orderly(pc[t := Caller(q)], listed, wants) && Bare(c, pc[t := Caller(q)], listed)
  {
  }

  lemma BeginFine(pc: Pcs, listed: set<Tid>, wants: set<Tid>, t: Tid, m: Tid, sid: Sid)
    requires Orderly(pc, listed, wants) && At(pc, t).Caller? && m in listed
    ensures Orderly(pc[t := Caller(Unlinked(m, sid))], listed - {m}, wants)
  {
  }

  lemma JoinFine(pc: Pcs, listed: set<Tid>, wants: set<Tid>, t: Tid)
    requires Orderly(pc, listed, wants) && !Started(At(pc, t))
    ensures Orderly(pc[t := Member(Added)], listed + {t}, wants)
  {
  }

  // Lowering a flag, and putting a member back whose flag is down.
  lemma BackFine(pc: Pcs, listed: set<Tid>, wants: set<Tid>, m: Tid)
    requires Orderly(pc, listed, wants)
    ensures Orderly(pc, listed, wants - {m})
    ensures MayBeListed(At(pc, m)) && m !in wants && (forall t :: t in pc ==> !Promotes(pc[t], m)) ==>
              Orderly(pc, listed + {m}, wants)
  {
  }

  // ---------------------------------------------------------------- a session thread's steps

  lemma OutsideFine(c: Config, s: State, t: Tid, a: Act)
    requires Fine(c, s) && DoAct(c, s, t, a).Some?
    requires a.AEnter? || a.ACreate? || a.APrepare? || a.AAddCheck? || a.ALetGo?
    ensures Fine(c, DoAct(c, s, t, a).value)
  {
    GoFine(c, s.pc, s.listed, s.wants, t, DoAct(c, s, t, a).value.pc[t]);
  }

  lemma EntryFine(c: Config, s: State, t: Tid, a: Act)
    requires Fine(c, s) && DoAct(c, s, t, a).Some? && (a.AClaim? || a.ATakeId? || a.ATake?)
    ensures Fine(c, DoAct(c, s, t, a).value)
  {
    GoFine(c, s.pc, s.listed, s.wants, t, DoAct(c, s, t, a).value.pc[t]);
  }

  lemma StageFine(c: Config, s: State, t: Tid, a: Act)
    requires Fine(c, s) && DoAct(c, s, t, a).Some? && (a.ALeave? || a.ATest? || a.AClear? || a.AFinalClear?)
    ensures Fine(c, DoAct(c, s, t, a).value)
  {
    GoFine(c, s.pc, s.listed, s.wants, t, DoAct(c, s, t, a).value.pc[t]);
  }

  lemma AddLockedFine(c: Config, s: State, t: Tid)
    requires Fine(c, s) && AddLocked(c, s, t).Some?
    ensures Fine(c, AddLocked(c, s, t).value)
  {
    GoFine(c, s.pc, s.listed, s.wants, t, Member(Refused));
    if |s.listed| < c.maxListeners {
      JoinFine(s.pc, s.listed, s.wants, t);
    }
  }

  lemma UnlistFine(c: Config, s: State, t: Tid)
    requires Fine(c, s) && Unlist(s, t).Some?
    ensures Fine(c, Unlist(s, t).value)
  {
    GoFine(c, s.pc, s.listed - {t}, s.wants, t, Member(LastClear));
  }

  lemma BridgeFine(c: Config, s: State, t: Tid)
    requires Fine(c, s)
    ensures Cross(s, t).Some? ==> Fine(c, Cross(s, t).value)
    ensures Exit(s, t).Some? ==> Fine(c, Exit(s, t).value)
  {
    if Cross(s, t).Some? { GoFine(c, s.pc, s.listed, s.wants, t, Member(InBridge)); }
    if Exit(s, t).Some? { GoFine(c, s.pc, s.listed, s.wants, t, Member(OffBridge)); }
  }

  lemma BranchFine(c: Config, s: State, t: Tid)
    requires Fine(c, s) && Branch(s, t).Some?
    ensures Fine(c, Branch(s, t).value)
  {
    var p := Branch(s, t).value.pc[t];
    GoFine(c, s.pc, s.listed, s.wants, t, p);
    BackFine(s.pc[t := p], s.listed, s.wants, t);
  }

  lemma ActFine(c: Config, s: State, t: Tid, a: Act)
    requires Fine(c, s) && DoAct(c, s, t, a).Some?
    ensures Fine(c, DoAct(c, s, t, a).value)
  {
    match a
    case AAddLocked => AddLockedFine(c, s, t);
    case AUnlist => UnlistFine(c, s, t);
    case ACross => BridgeFine(c, s, t);
    case AExit => BridgeFine(c, s, t);
    case ABranch => BranchFine(c, s, t);
    case _ =>
      if a.AClaim? || a.ATakeId? || a.ATake? {
        EntryFine(c, s, t, a);
      } else if a.ALeave? || a.ATest? || a.AClear? || a.AFinalClear? {
        StageFine(c, s, t, a);
      } else {
        OutsideFine(c, s, t, a);
      }
  }

  // ---------------------------------------------------------------- an API call's steps

  lemma CallFine(c: Config, s: State, t: Tid)
    requires Fine(c, s)
    ensures Call(s, t).Some? ==> Fine(c, Call(s, t).value)
    ensures Hangup(s, t).Some? ==> Fine(c, Hangup(s, t).value)
    ensures ClearSpeaker(s, t).Some? ==> Fine(c, ClearSpeaker(s, t).value)
  {
    if Call(s, t).Some? {
      if Open(s.room) { AskFine(c, s.pc, s.listed, s.wants, t, Idle); } else { GoFine(c, s.pc, s.listed, s.wants, t, Returned); }
    }
    if Hangup(s, t).Some? { GoFine(c, s.pc, s.listed, s.wants, t, Returned); }
  }

  // The lookups, and leaving one with or without a member.
  lemma LookFine(c: Config, s: State, t: Tid, cmd: Cmd)
    requires Fine(c, s) && DoCmd(c, s, t, cmd).Some?
    requires cmd.CLook? || cmd.CLookListed? || cmd.CLookSpeaker? || cmd.CPin?
    ensures Fine(c, DoCmd(c, s, t, cmd).value)
  {
    AskFine(c, s.pc, s.listed, s.wants, t, DoCmd(c, s, t, cmd).value.pc[t].req);
  }

  lemma HoldFine(c: Config, s: State, t: Tid, cmd: Cmd)
    requires Fine(c, s) && DoCmd(c, s, t, cmd).Some?
    requires cmd.CAgainListed? || cmd.CAgainSpeaker? || cmd.CDropOrAsk? || cmd.CDone?
    ensures Fine(c, DoCmd(c, s, t, cmd).value)
  {
    AskFine(c, s.pc, s.listed, s.wants, t, DoCmd(c, s, t, cmd).value.pc[t].req);
  }

  lemma UnlinkFine(c: Config, s: State, t: Tid)
    requires Fine(c, s) && UnlinkHeld(s, t).Some?
    ensures Fine(c, UnlinkHeld(s, t).value)
  {
    var q := s.pc[t].req;
    AskFine(c, s.pc, s.listed, s.wants, t, Idle);
    if q.m in s.listed {
      BeginFine(s.pc, s.listed, s.wants, t, q.m, q.sid);
    }
  }

  lemma FlagFine(c: Config, s: State, t: Tid)
    requires Fine(c, s) && Flag(s, t).Some?
    ensures Fine(c, Flag(s, t).value)
  {
    var q := s.pc[t].req;
    assert Promotes(s.pc[t], q.m);
    AskFine(c, s.pc, s.listed, s.wants, t, Awaiting(q.m, q.sid));
  }

  lemma RollbackFine(c: Config, s: State, t: Tid, locked: bool)
    requires Fine(c, s) && Rollback(c, s, t, locked).Some?
    ensures Fine(c, Rollback(c, s, t, locked).value)
  {
    var m, pc' := s.pc[t].req.m, s.pc[t := Caller(Idle)];
    assert Promotes(s.pc[t], m);
    AskFine(c, s.pc, s.listed, s.wants, t, Idle);
    BackFine(pc', s.listed, s.wants, m);
    BackFine(pc', s.listed, s.wants - {m}, m);
  }

  lemma ExpireFine(c: Config, s: State, t: Tid)
    requires Fine(c, s) && Expire(c, s, t).Some?
    ensures Fine(c, Expire(c, s, t).value)
  {
    var q := s.pc[t].req;
    assert Promotes(s.pc[t], q.m);
    AskFine(c, s.pc, s.listed, s.wants, t, Expired(q.m, q.sid));
  }

  lemma UnflagFine(c: Config, s: State, t: Tid)
    requires Fine(c, s) && Unflag(s, t).Some?
    ensures Fine(c, Unflag(s, t).value)
  {
    var q := s.pc[t].req;
    assert Splits(s.pc[t]);
    BackFine(s.pc, s.listed, s.wants, q.m);
    AskFine(c, s.pc, s.listed, s.wants - {q.m}, t, ReAdding(q.m, q.sid));
  }

  // The member is put back although it has left the list for good.
  predicate Late(c: Config, s: State, step: Step)
  {
    && step.Api? && step.cmd.CReAdd? && At(s.pc, step.t).Caller? && At(s.pc, step.t).req.ReAdding?
    && !s.room.destroyed && !step.cmd.locked && |s.listed| < c.maxListeners
    && !MayBeListed(At(s.pc, At(s.pc, step.t).req.m))
  }

  lemma ReAddFine(c: Config, s: State, t: Tid, locked: bool)
    requires Fine(c, s) && ReAdd(c, s, t, locked).Some? && !Late(c, s, Api(t, CReAdd(locked)))
    ensures Fine(c, ReAdd(c, s, t, locked).value)
  {
    var q, pc' := s.pc[t].req, s.pc[t := Caller(Idle)];
    assert Promotes(s.pc[t], q.m) && Splits(s.pc[t]) && s.pc[t] == Caller(ReAdding(q.m, q.sid));
    assert ReAdds(s.pc[t], q.m);
    AskFine(c, s.pc, s.listed, s.wants, t, Idle);
    BackFine(pc', s.listed, s.wants, q.m);
  }

  lemma CmdFine(c: Config, s: State, t: Tid, cmd: Cmd)
    requires Fine(c, s) && DoCmd(c, s, t, cmd).Some? && !Late(c, s, Api(t, cmd))
    ensures Fine(c, DoCmd(c, s, t, cmd).value)
  {
    match cmd
    case CUnlink => UnlinkFine(c, s, t);
    case CFlag => FlagFine(c, s, t);
    case CRollback(locked) => RollbackFine(c, s, t, locked);
    case CReAdd(locked) => ReAddFine(c, s, t, locked);
    case CExpire => ExpireFine(c, s, t);
    case CUnflag => UnflagFine(c, s, t);
    case CCall => CallFine(c, s, t);
    case CHangup => CallFine(c, s, t);
    case CClearSpeaker => CallFine(c, s, t);
    case _ =>
      if cmd.CAgainListed? || cmd.CAgainSpeaker? || cmd.CDropOrAsk? || cmd.CDone? {
        HoldFine(c, s, t, cmd);
      } else {
        LookFine(c, s, t, cmd);
      }
  }

  // ---------------------------------------------------------------- the rest

  lemma TearDownFine(c: Config, s: State, t: Tid)
    requires Fine(c, s) && TearDown(s, t).Some?
    ensures Fine(c, TearDown(s, t).value)
  {
    TearDownMoves(s, t);
    GoFine(c, s.pc, s.listed, s.wants, t, TearDown(s, t).value.pc[t]);
  }

  lemma SysFine(c: Config, s: State, step: Step)
    requires Fine(c, s) && !step.App? && !step.Api? && Do(c, s, step).Some?
    ensures Fine(c, Do(c, s, step).value)
  {
    match step
    case Sys(t, ETearDown) => TearDownFine(c, s, t);
    case Sys(t, EWalk) => GoFine(c, s.pc, s.listed, s.wants, t, Walker);
    case Sys(t, EWalkOn) => GoFine(c, s.pc, s.listed, s.wants, t, Returned);
    case Sys(t, EDestruct) => GoFine(c, s.pc, s.listed, s.wants, t, Destroyer(Marked));
    case _ =>
  }

  lemma StepFine(c: Config, s: State, step: Step)
    requires Fine(c, s) && Do(c, s, step).Some? && !Late(c, s, step)
    ensures Fine(c, Do(c, s, step).value)
  {
    match step
    case App(t, a) => ActFine(c, s, t, a);
    case Api(t, cmd) => CmdFine(c, s, t, cmd);
    case _ => SysFine(c, s, step);
  }

  // ---------------------------------------------------------------- what it comes to

  // Everybody on the list is alive and neither past the list nor on the stage; nobody in the bridge is
  // on the stage; a listing in promotion is off the list and in the hands of one call.
  ghost predicate Safe(s: State)
  {
    && (forall m :: m in s.listed ==> MayBeListed(At(s.pc, m)) && Alive(s, m) && s.speaker != Some(m))
    && (s.speaker.Some? ==> At(s.pc, s.speaker.value) != Member(InBridge))
    && (forall t, m :: t in s.pc && Promotes(s.pc[t], m) ==> m !in s.listed)
    && (forall t, u, m :: t in s.pc && u in s.pc && Promotes(s.pc[t], m) && Promotes(s.pc[u], m) ==> t == u)
  }

  ghost predicate AlwaysSafe(c: Config, s: State, steps: seq<Step>)
    requires Run(c, s, steps).Some?
    decreases |steps|
  {
    Safe(s) && (steps == [] || AlwaysSafe(c, Do(c, s, steps[0]).value, steps[1..]))
  }

  predicate NeverLate(c: Config, s: State, steps: seq<Step>)
    requires Run(c, s, steps).Some?
    decreases |steps|
  {
    steps == [] || (!Late(c, s, steps[0]) && NeverLate(c, Do(c, s, steps[0]).value, steps[1..]))
  }

  lemma FineIsSafe(c: Config, s: State)
    requires Fine(c, s) && Inv(s)
    ensures Safe(s)
  {
  }

  lemma LateIsUnsafe(c: Config, s: State, step: Step)
    requires Late(c, s, step) && Do(c, s, step).Some?
    ensures !Safe(Do(c, s, step).value)
  {
    var m := At(s.pc, step.t).req.m;
    var s' := Do(c, s, step).value;
    assert m in s'.listed && !MayBeListed(At(s'.pc, m));
  }

  // Of every run: each state it passes through is safe if and only if no rollback puts a member back
  // late. Whoever calls listener_add for the rollback could look at the member first.
  lemma {:induction false} SafeIffNeverLate(c: Config, s: State, steps: seq<Step>)
    requires Fine(c, s) && Inv(s) && Run(c, s, steps).Some?
    ensures AlwaysSafe(c, s, steps) <==> NeverLate(c, s, steps)
    ensures AlwaysSafe(c, s, steps) ==> Safe(Run(c, s, steps).value)
    decreases |steps|
  {
    FineIsSafe(c, s);
    if steps != [] {
      var s' := Do(c, s, steps[0]).value;
      if Late(c, s, steps[0]) {
        LateIsUnsafe(c, s, steps[0]);
      } else {
        StepFine(c, s, steps[0]);
        StepKeeps(c, s, steps[0]);
        SafeIffNeverLate(c, s', steps[1..]);
      }
    }
  }

  lemma {:induction false} OneStepIsNeverLate(c: Config, s: State, steps: seq<Step>)
    requires Fine(c, s) && (c.atomicRollback || c.maxListeners == 0) && Run(c, s, steps).Some?
    ensures NeverLate(c, s, steps)
    decreases |steps|
  {
    if steps != [] {
      var step := steps[0];
      assert step.Api? ==> !Splits(At(s.pc, step.t));
      StepFine(c, s, step);
      OneStepIsNeverLate(c, Do(c, s, step).value, steps[1..]);
    }
  }

  // Of the room: every run is safe exactly when the rollback is one step, or no one can ever be listed.
  lemma SafeIffAtomic(c: Config)
    ensures (forall steps {:trigger Run(c, INIT, steps)} :: Run(c, INIT, steps).Some? ==> Safe(Run(c, INIT, steps).value))
            <==> (c.atomicRollback || c.maxListeners == 0)
  {
    if c.atomicRollback || c.maxListeners == 0 {
      forall steps {:trigger Run(c, INIT, steps)} | Run(c, INIT, steps).Some? ensures Safe(Run(c, INIT, steps).value) {
        OneStepIsNeverLate(c, INIT, steps);
        SafeIffNeverLate(c, INIT, steps);
      }
    } else {
      var s := Scenarios.SplitRollback(c);
      var steps := Scenarios.Reached(c, s);
      assert !Safe(s);
    }
  }
}
