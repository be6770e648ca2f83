/**
 Particular runs of Lifecycle.dfy.
 */
module Scenarios {
  import opened Options
  import opened Lifecycle

  // The states that a run passes through.
  ghost predicate Path(c: Config, seen: seq<State>, steps: seq<Step>)
  {
    && |seen| == |steps| + 1
    && (forall i {:trigger Do(c, seen[i], steps[i])} :: 0 <= i < |steps| ==> Do(c, seen[i], steps[i]) == Some(seen[i + 1]))
  }

  // Some run leads to s.
  ghost predicate Reach(c: Config, s: State)
  {
    exists seen, steps {:trigger Path(c, seen, steps)} :: Path(c, seen, steps) && seen[0] == INIT && seen[|steps|] == s
  }

  lemma {:induction false} PathRuns(c: Config, seen: seq<State>, steps: seq<Step>)
    requires Path(c, seen, steps)
    ensures Run(c, seen[0], steps) == Some(seen[|steps|])
    decreases |steps|
  {
    if steps != [] {
      assert Do(c, seen[0], steps[0]) == Some(seen[1]);
      forall i {:trigger Do(c, seen[1..][i], steps[1..][i])} | 0 <= i < |steps| - 1
        ensures Do(c, seen[1..][i], steps[1..][i]) == Some(seen[1..][i + 1])
      {
        assert Do(c, seen[i + 1], steps[i + 1]) == Some(seen[i + 2]);
      }
      PathRuns(c, seen[1..], steps[1..]);
    }
  }

  lemma Reached(c: Config, s: State) returns (steps: seq<Step>)
    requires Reach(c, s)
    ensures Run(c, INIT, steps) == Some(s)
  {
    var seen, steps' :| Path(c, seen, steps') && seen[0] == INIT && seen[|steps'|] == s;
    PathRuns(c, seen, steps');
    steps := steps';
  }

  // One step further, to s'.
  lemma Then(c: Config, s: State, step: Step, s': State)
    requires Reach(c, s) && Do(c, s, step) == Some(s')
    ensures Reach(c, s')
  {
    var seen, steps :| Path(c, seen, steps) && seen[0] == INIT && seen[|steps|] == s;
    var seen', steps' := seen + [s'], steps + [step];
    forall i {:trigger Do(c, seen'[i], steps'[i])} | 0 <= i < |steps'|
      ensures Do(c, seen'[i], steps'[i]) == Some(seen'[i + 1])
    {
      if i < |steps| { assert Do(c, seen[i], steps[i]) == Some(seen[i + 1]); }
    }
    assert Path(c, seen', steps');
  }

  lemma AtInit(c: Config)
    ensures Reach(c, INIT)
  {
    assert Path(c, [INIT], []);
  }

  lemma ThenAct(c: Config, s: State, t: Tid, a: Act, s': State)
    requires Reach(c, s) && DoAct(c, s, t, a) == Some(s')
    ensures Reach(c, s')
  {
    Then(c, s, App(t, a), s');
  }

  lemma ThenCmd(c: Config, s: State, t: Tid, cmd: Cmd, s': State)
    requires Reach(c, s) && DoCmd(c, s, t, cmd) == Some(s')
    ensures Reach(c, s')
  {
    Then(c, s, Api(t, cmd), s');
  }

  // Session thread 1 finds no room and makes it.
  lemma Opening(c: Config, role: Role) returns (s: State)
    ensures Reach(c, s)
    ensures s == INIT.(pc := map[1 := Member(Entering(role))], sess := map[1 := 11], liveRefs := 1,
                       room := Room(true, true, false, false, false, Running, true))
  {
    var s1 := INIT.(pc := map[1 := Member(Creating(role))], sess := map[1 := 11]);
    s := s1.(pc := map[1 := Member(Entering(role))], liveRefs := 1, room := Room(true, true, false, false, false, Running, true));
    assert s1.pc == INIT.pc[1 := Member(Creating(role))] && s.pc == s1.pc[1 := Member(Entering(role))];
    assert s1.sess == INIT.sess[1 := 11];
    AtInit(c);
    ThenAct(c, INIT, 1, AEnter(11, role, false), s1);
    ThenAct(c, s1, 1, ACreate(true), s);
  }

  // A speaker in the room gets as far as set_speaker while no one is on stage.
  lemma Readying(c: Config, s: State, t: Tid) returns (s': State)
    requires Reach(c, s) && At(s.pc, t) == Member(Entering(AsSpeaker)) && s.speaker == None
    ensures Reach(c, s') && s' == Go(Name(s, t), t, Taking(false))
  {
    var s1, s2 := Go(s, t, Claiming), Go(s, t, Naming);
    s' := Go(Name(s, t), t, Taking(false));
    assert s2 == Go(s1, t, Naming) && s' == Go(Name(s2, t), t, Taking(false));
    ThenAct(c, s, t, APrepare(true), s1);
    ThenAct(c, s1, t, AClaim, s2);
    ThenAct(c, s2, t, ATakeId, s');
  }

  // A speaker leaves: after its test and before its clear another one takes over, and is cleared.
  lemma SuccessorCleared(c: Config) returns (s: State)
    ensures Reach(c, s) && s.speaker == Some(2)
    ensures Clear(s, 1).Some? && Clear(s, 1).value.speaker == None && At(Clear(s, 1).value.pc, 2) == Member(OnAir)
  {
    s := Opening(c, AsSpeaker);
    var s1 := Grant(s.(sess := s.sess[2 := 12]), 2, Member(Entering(AsSpeaker)));
    ThenAct(c, s, 2, AEnter(12, AsSpeaker, false), s1);
    s := Readying(c, s1, 1);
    s := Readying(c, s, 2);
    s := Takeover(c, s);
  }

  lemma Takeover(c: Config, s: State) returns (s': State)
    requires Reach(c, s) && NoReaders(s)
    requires At(s.pc, 1) == At(s.pc, 2) == Member(Taking(false))
    ensures Reach(c, s') && NoReaders(s') && s'.speaker == Some(2)
    ensures At(s'.pc, 1) == Member(Clearing) && At(s'.pc, 2) == Member(OnAir)
  {
    var s1 := Go(s, 1, OnAir).(speaker := Some(1));
    var s2 := Go(s1, 1, Leaving);
    var s3 := Go(s2, 1, Clearing);
    s' := Go(s3, 2, OnAir).(speaker := Some(2));
    ThenAct(c, s, 1, ATake(true), s1);
    ThenAct(c, s1, 1, ALeave, s2);
    ThenAct(c, s2, 1, ATest, s3);
    ThenAct(c, s3, 2, ATake(true), s');
  }

  // A listener gets on the list and crosses into its bridge.
  lemma Bridging(c: Config, s: State, t: Tid) returns (s': State)
    requires Reach(c, s) && At(s.pc, t) == Member(Entering(AsListener)) && !s.room.destroyed
    requires |s.listed| < c.maxListeners
    ensures Reach(c, s') && s' == Go(Name(s, t), t, InBridge).(listed := s.listed + {t})
  {
    s' := Checked(c, s, t);
    s' := Inserted(c, s', t);
    assert s'.pc == s.pc[t := Member(InBridge)];
  }

  lemma Checked(c: Config, s: State, t: Tid) returns (s': State)
    requires Reach(c, s) && At(s.pc, t) == Member(Entering(AsListener)) && !s.room.destroyed
    ensures Reach(c, s') && s' == Go(s, t, Inserting)
  {
    var s1 := Go(s, t, Adding);
    s' := Go(s1, t, Inserting);
    assert s'.pc == s.pc[t := Member(Inserting)];
    ThenAct(c, s, t, APrepare(true), s1);
    ThenAct(c, s1, t, AAddCheck(false), s');
  }

  lemma Inserted(c: Config, s: State, t: Tid) returns (s': State)
    requires Reach(c, s) && At(s.pc, t) == Member(Inserting) && |s.listed| < c.maxListeners
    ensures Reach(c, s') && s' == Go(Name(s, t), t, InBridge).(listed := s.listed + {t})
  {
    var s1 := AddLocked(c, s, t).value;
    s' := Go(s1, t, InBridge);
    assert s'.pc == s.pc[t := Member(InBridge)];
    ThenAct(c, s, t, AAddLocked, s1);
    ThenAct(c, s1, t, ACross, s');
  }

  // A call finds listener m and holds it pinned.
  lemma Holding(c: Config, s: State, t: Tid, m: Tid) returns (s': State)
    requires Reach(c, s) && At(s.pc, t) == Caller(Idle) && Thread(t) !in s.readers
    requires m in s.ids && NamedListed(s, m, s.ids[m]) && s.ids[m] != 0 && m in s.sess && s.sess[m] !in s.gone
    ensures Reach(c, s') && s' == Ask(s, t, Held(s.ids[m], m, s.sess[m], m))
  {
    var id, sid := s.ids[m], s.sess[m];
    var s1, s2, s3 := Ask(s, t, Looking(id)), Ask(s, t, Seen(id, sid, m)), Ask(s, t, Pinned(id, sid, m));
    s' := Ask(s, t, Held(id, m, sid, m));
    assert s2 == Ask(s1, t, Seen(id, sid, m)) && s3 == Ask(s2, t, Pinned(id, sid, m)) && s' == Ask(s3, t, Held(id, m, sid, m));
    ThenCmd(c, s, t, CLook(id), s1);
    ThenCmd(c, s1, t, CLookListed(id, Some(m)), s2);
    ThenCmd(c, s2, t, CPin, s3);
    ThenCmd(c, s3, t, CAgainListed(Some(m)), s');
  }

  // It asks for m's promotion: m is off the list and flagged.
  lemma Asking(c: Config, s: State, t: Tid, m: Tid, sid: Sid) returns (s': State)
    requires Reach(c, s) && At(s.pc, t).Caller? && At(s.pc, m) == Member(InBridge)
    requires At(s.pc, t).req.Held? && At(s.pc, t).req.m == m && At(s.pc, t).req.sid == sid && m in s.listed
    ensures Reach(c, s')
    ensures s' == Ask(s, t, Awaiting(m, sid)).(listed := s.listed - {m}, wants := s.wants + {m})
  {
    var s1 := DropOrAsk(s, t, true).value;
    ThenCmd(c, s, t, CDropOrAsk(true), s1);
    s' := Flagging(c, s1, t, m, sid);
    assert s'.pc == s.pc[t := Caller(Awaiting(m, sid))];
  }

  lemma Flagging(c: Config, s: State, t: Tid, m: Tid, sid: Sid) returns (s': State)
    requires Reach(c, s) && At(s.pc, t) == Caller(Asked(m, sid)) && m in s.listed
    ensures Reach(c, s')
    ensures s' == Ask(s, t, Awaiting(m, sid)).(listed := s.listed - {m}, wants := s.wants + {m})
  {
    var s1 := UnlinkHeld(s, t).value;
    s' := Flag(s1, t).value;
    assert s'.pc == s.pc[t := Caller(Awaiting(m, sid))];
    ThenCmd(c, s, t, CUnlink, s1);
    ThenCmd(c, s1, t, CFlag, s');
  }

  // The time is up; m leaves its bridge just then, and finds itself promoted.
  lemma Crossing(c: Config, s: State, t: Tid, m: Tid, sid: Sid) returns (s': State)
    requires Reach(c, s) && At(s.pc, t) == Caller(Awaiting(m, sid)) && At(s.pc, m) == Member(InBridge)
    requires m in s.wants && !c.atomicRollback
    ensures Reach(c, s')
    ensures s' == Go(Ask(s, t, Expired(m, sid)), m, Taking(true)).(wants := s.wants - {m})
  {
    var s1 := Expire(c, s, t).value;
    ThenCmd(c, s, t, CExpire, s1);
    s' := Departing(c, s1, m);
  }

  lemma Departing(c: Config, s: State, m: Tid) returns (s': State)
    requires Reach(c, s) && At(s.pc, m) == Member(InBridge) && m in s.wants
    ensures Reach(c, s') && s' == Go(s, m, Taking(true)).(wants := s.wants - {m})
  {
    var s1 := Go(s, m, OffBridge);
    s' := Branch(s1, m).value;
    assert s'.pc == s.pc[m := Member(Taking(true))];
    ThenAct(c, s, m, AExit, s1);
    ThenAct(c, s1, m, ABranch, s');
  }

  // It goes on stage, and only after that is put back on the list.
  lemma Clashing(c: Config, s: State, t: Tid, m: Tid, sid: Sid) returns (s': State)
    requires Reach(c, s) && At(s.pc, t) == Caller(Expired(m, sid)) && At(s.pc, m) == Member(Taking(true))
    requires NoReaders(s) && !s.room.destroyed && |s.listed| < c.maxListeners
    ensures Reach(c, s') && m in s'.listed && s'.speaker == Some(m)
  {
    var s1 := Unflag(s, t).value;
    var s2 := Take(s1, m, true).value;
    ThenCmd(c, s, t, CUnflag, s1);
    ThenAct(c, s1, m, ATake(true), s2);
    s' := BackOnList(c, s2, t, m, sid);
  }

  lemma BackOnList(c: Config, s: State, t: Tid, m: Tid, sid: Sid) returns (s': State)
    requires Reach(c, s) && At(s.pc, t) == Caller(ReAdding(m, sid))
    requires !s.room.destroyed && |s.listed| < c.maxListeners
    ensures Reach(c, s') && m in s'.listed && s'.speaker == s.speaker
  {
    s' := ReAdd(c, s, t, false).value;
    ThenCmd(c, s, t, CReAdd(false), s');
  }

  // With the rollback in three steps, a listed member can be the current speaker.
  lemma SplitRollback(c: Config) returns (s: State)
    requires !c.atomicRollback && c.maxListeners > 0
    ensures Reach(c, s) && 1 in s.listed && s.speaker == Some(1)
  {
    s := Opening(c, AsListener);
    s := Bridging(c, s, 1);
    var s1 := Grant(s, 2, Caller(Idle));
    ThenCmd(c, s, 2, CCall, s1);
    s := Holding(c, s1, 2, 1);
    s := Asking(c, s, 2, 1, 11);
    s := Crossing(c, s, 2, 1, 11);
    s := Clashing(c, s, 2, 1, 11);
  }

  lemma ThenTear(c: Config, s: State, t: Tid, s': State)
    requires Reach(c, s) && TearDown(s, t) == Some(s')
    ensures Reach(c, s')
  {
    Then(c, s, Sys(t, ETearDown), s');
  }

  // The destroyer takes the stage down and waits everyone out.
  lemma Draining(c: Config, s: State, t: Tid) returns (s': State)
    requires Reach(c, s) && At(s.pc, t) == Destroyer(Down) && NoReaders(s)
    requires s.listed == {} && s.speaker == None && s.liveRefs <= 1
    ensures Reach(c, s') && s' == Move(s, t, Destroyer(Alone))
  {
    var s1, s2 := Move(s, t, Destroyer(Dropped(None))), Move(s, t, Destroyer(Emptied(None)));
    var s3, s4 := Move(s, t, Destroyer(Silenced(None))), Move(s, t, Destroyer(Drained));
    s' := Move(s, t, Destroyer(Alone));
    assert s2.pc == s1.pc[t := s2.pc[t]] && s3.pc == s2.pc[t := s3.pc[t]];
    assert s4.pc == s3.pc[t := s4.pc[t]] && s'.pc == s4.pc[t := s'.pc[t]];
    ThenTear(c, s, t, s1);
    ThenTear(c, s1, t, s2);
    ThenTear(c, s2, t, s3);
    ThenTear(c, s3, t, s4);
    ThenTear(c, s4, t, s');
  }

  // The producer stops.
  lemma Stopping(c: Config, s: State, t: Tid) returns (s': State)
    requires Reach(c, s) && At(s.pc, t) == Destroyer(Alone) && NoReaders(s) && s.room.producer == Running
    ensures Reach(c, s')
    ensures s' == Move(s, t, Destroyer(Stopped)).(room := s.room.(producerRun := false, producer := Exited))
  {
    var s1 := Move(s, t, Destroyer(Stopped)).(room := s.room.(producerRun := false));
    s' := s1.(room := s1.room.(producer := Exited));
    ThenTear(c, s, t, s1);
    Then(c, s1, StopTicking, s');
  }

  // The table forgets the room, and its pool is freed.
  lemma Closing(c: Config, s: State, t: Tid) returns (s': State)
    requires Reach(c, s) && At(s.pc, t) == Destroyer(Stopped) && s.room.producer == Exited
    requires forall u :: u in s.pc ==> s.pc[u] != Walker
    ensures Reach(c, s') && s'.room.freed
  {
    var s1 := Move(s, t, Destroyer(Joined));
    var s2 := TearDown(s1, t).value;
    s' := TearDown(s2, t).value;
    ThenTear(c, s, t, s1);
    ThenTear(c, s1, t, s2);
    ThenTear(c, s2, t, s');
  }

  // A room can be made, destroyed and freed.
  lemma Lifetime(c: Config) returns (s: State)
    ensures Reach(c, s) && s.room.freed
  {
    s := Opening(c, AsListener);
    s := Condemning(c, s);
    s := Draining(c, s, 2);
    s := Stopping(c, s, 2);
    s := Closing(c, s, 2);
  }

  lemma Condemning(c: Config, s: State) returns (s': State)
    requires Reach(c, s) && s.pc == map[1 := Member(Entering(AsListener))]
    requires Open(s.room) && s.liveRefs == 1 && NoReaders(s)
    ensures Reach(c, s')
    ensures s' == s.(pc := map[1 := Returned, 2 := Destroyer(Down)], room := s.room.(destruct := true, destroyed := true))
  {
    var s1 := Go(s, 1, Refused);
    var s2 := s.(pc := map[1 := Returned], liveRefs := 0);
    assert s2.pc == s1.pc[1 := Returned];
    ThenAct(c, s, 1, APrepare(false), s1);
    ThenAct(c, s1, 1, ALetGo, s2);
    s' := Marking(c, s2);
  }

  lemma Marking(c: Config, s: State) returns (s': State)
    requires Reach(c, s) && s.pc == map[1 := Returned] && Open(s.room) && NoReaders(s)
    ensures Reach(c, s')
    ensures s' == s.(pc := map[1 := Returned, 2 := Destroyer(Down)], liveRefs := s.liveRefs + 1,
                     room := s.room.(destruct := true, destroyed := true))
  {
    var s1 := Grant(s, 2, Caller(Idle));
    var s2 := Destruct(s1, 2).value;
    s' := TearDown(s2, 2).value;
    assert s'.pc == map[1 := Returned, 2 := Destroyer(Down)];
    ThenCmd(c, s, 2, CCall, s1);
    Then(c, s1, Sys(2, EDestruct), s2);
    ThenTear(c, s2, 2, s');
  }
}
