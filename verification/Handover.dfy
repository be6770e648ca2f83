/**
 A speaker on its way out tests in one lock region whether it is still installed and clears the stage
 in another. This says exactly when that clear hits nobody but itself.
 */
module Handover {
  import opened Options
  import opened Lifecycle
  import opened LifecycleSafety

  // The lock regions that install a speaker or clear the stage without comparing.
  predicate Writes(s: State, step: Step)
  {
    || (step.App? && (step.act == ATake(true) || step.act.AClear?))
    || (step.Api? && step.cmd.CClearSpeaker?)
    || (step.Sys? && step.env.ETearDown? && At(s.pc, step.t) == Destroyer(Down))
  }

  predicate Untouched(c: Config, s: State, steps: seq<Step>)
    requires Run(c, s, steps).Some?
    decreases |steps|
  {
    steps == [] || (!Writes(s, steps[0]) && Untouched(c, Do(c, s, steps[0]).value, steps[1..]))
  }

  // t waits to clear; what a step of anyone else does to the stage.
  ghost predicate Meanwhile(s: State, s': State, t: Tid, write: bool)
  {
    && At(s'.pc, t) == At(s.pc, t)
    && (write || s.speaker != Some(t) ==> s'.speaker != Some(t))
    && (!write && s.speaker == Some(t) ==> s'.speaker == Some(t))
  }

  lemma StageMeanwhile(c: Config, s: State, t: Tid, u: Tid, a: Act)
    requires u != t && DoAct(c, s, u, a).Some? && (a.ATake? || a.AClear? || a.AFinalClear?)
    ensures Meanwhile(s, DoAct(c, s, u, a).value, t, Writes(s, App(u, a)))
  {
  }

  lemma ListMeanwhile(c: Config, s: State, t: Tid, u: Tid, a: Act)
    requires u != t && DoAct(c, s, u, a).Some?
    requires a.AAddCheck? || a.AAddLocked? || a.ACross? || a.AExit? || a.ABranch? || a.AUnlist? || a.ALetGo?
    ensures Meanwhile(s, DoAct(c, s, u, a).value, t, Writes(s, App(u, a)))
  {
  }

  lemma EntryMeanwhile(c: Config, s: State, t: Tid, u: Tid, a: Act)
    requires u != t && DoAct(c, s, u, a).Some?
    requires a.AEnter? || a.ACreate? || a.APrepare? || a.AClaim? || a.ATakeId? || a.ALeave? || a.ATest?
    ensures Meanwhile(s, DoAct(c, s, u, a).value, t, Writes(s, App(u, a)))
  {
  }

  lemma ActMeanwhile(c: Config, s: State, t: Tid, u: Tid, a: Act)
    requires u != t && DoAct(c, s, u, a).Some?
    ensures Meanwhile(s, DoAct(c, s, u, a).value, t, Writes(s, App(u, a)))
  {
    if a.ATake? || a.AClear? || a.AFinalClear? {
      StageMeanwhile(c, s, t, u, a);
    } else if a.AAddCheck? || a.AAddLocked? || a.ACross? || a.AExit? || a.ABranch? || a.AUnlist? || a.ALetGo? {
      ListMeanwhile(c, s, t, u, a);
    } else {
      EntryMeanwhile(c, s, t, u, a);
    }
  }

  lemma LookupMeanwhile(c: Config, s: State, t: Tid, u: Tid, cmd: Cmd)
    requires u != t && IsLookup(cmd) && DoCmd(c, s, u, cmd).Some?
    ensures Meanwhile(s, DoCmd(c, s, u, cmd).value, t, Writes(s, Api(u, cmd)))
  {
  }

  lemma HoldMeanwhile(c: Config, s: State, t: Tid, u: Tid, cmd: Cmd)
    requires u != t && DoCmd(c, s, u, cmd).Some?
    requires cmd.CAgainListed? || cmd.CAgainSpeaker? || cmd.CDropOrAsk? || cmd.CDone? || cmd.CExpire?
    ensures Meanwhile(s, DoCmd(c, s, u, cmd).value, t, Writes(s, Api(u, cmd)))
  {
  }

  lemma FlagMeanwhile(c: Config, s: State, t: Tid, u: Tid, cmd: Cmd)
    requires u != t && DoCmd(c, s, u, cmd).Some? && (cmd.CUnlink? || cmd.CFlag? || cmd.CUnflag?)
    ensures Meanwhile(s, DoCmd(c, s, u, cmd).value, t, Writes(s, Api(u, cmd)))
  {
  }

  lemma BackMeanwhile(c: Config, s: State, t: Tid, u: Tid, cmd: Cmd)
    requires u != t && DoCmd(c, s, u, cmd).Some? && (cmd.CRollback? || cmd.CReAdd?)
    ensures Meanwhile(s, DoCmd(c, s, u, cmd).value, t, Writes(s, Api(u, cmd)))
  {
  }

  lemma PromoterMeanwhile(c: Config, s: State, t: Tid, u: Tid, cmd: Cmd)
    requires u != t && !IsLookup(cmd) && DoCmd(c, s, u, cmd).Some?
    ensures Meanwhile(s, DoCmd(c, s, u, cmd).value, t, Writes(s, Api(u, cmd)))
  {
    if cmd.CRollback? || cmd.CReAdd? {
      BackMeanwhile(c, s, t, u, cmd);
    } else if cmd.CUnlink? || cmd.CFlag? || cmd.CUnflag? {
      FlagMeanwhile(c, s, t, u, cmd);
    } else {
      HoldMeanwhile(c, s, t, u, cmd);
    }
  }

  lemma TearDownMeanwhile(c: Config, s: State, t: Tid, u: Tid)
    requires At(s.pc, t) == Member(Clearing) && TearDown(s, u).Some?
    ensures Meanwhile(s, TearDown(s, u).value, t, Writes(s, Sys(u, ETearDown)))
  {
    TearDownMoves(s, u);
  }

  lemma SysMeanwhile(c: Config, s: State, t: Tid, step: Step)
    requires !step.App? && !step.Api? && At(s.pc, t) == Member(Clearing) && Do(c, s, step).Some?
    ensures Meanwhile(s, Do(c, s, step).value, t, Writes(s, step))
  {
    if step.Sys? && step.env.ETearDown? { TearDownMeanwhile(c, s, t, step.t); }
  }

  // t itself can do nothing but clear.
  lemma OnlyClears(c: Config, s: State, t: Tid, step: Step)
    requires At(s.pc, t) == Member(Clearing) && Do(c, s, step).Some?
    requires step.App? || step.Api?
    ensures step.t == t ==> step == App(t, AClear)
  {
  }

  // t has found itself installed. Its clear then hits only itself if and only if no one else wrote the
  // stage in between. SuccessorCleared in Scenarios.dfy is a run where someone did.
  lemma {:induction false} ClearsItselfIff(c: Config, s: State, steps: seq<Step>, t: Tid)
    requires At(s.pc, t) == Member(Clearing) && Run(c, s, steps).Some?
    requires forall x :: x in steps ==> x != App(t, AClear)
    ensures var s' := Run(c, s, steps).value;
            && At(s'.pc, t) == Member(Clearing)
            && (s.speaker != Some(t) ==> s'.speaker != Some(t))
            && (s.speaker == Some(t) ==> (s'.speaker == Some(t) <==> Untouched(c, s, steps)))
    decreases |steps|
  {
    if steps != [] {
      var step := steps[0];
      assert step in steps;
      assert forall x :: x in steps[1..] ==> x in steps;
      match step {
        case App(u, a) => OnlyClears(c, s, t, step); ActMeanwhile(c, s, t, u, a);
        case Api(u, cmd) =>
          OnlyClears(c, s, t, step);
          if IsLookup(cmd) { LookupMeanwhile(c, s, t, u, cmd); } else { PromoterMeanwhile(c, s, t, u, cmd); }
        case _ => SysMeanwhile(c, s, t, step);
      }
      ClearsItselfIff(c, Do(c, s, step).value, steps[1..], t);
    }
  }
}
