/**
 The room's singly linked list of recorders. Stopping splices the matching ones out in place onto a
 second list, then joins and frees that list one by one. Splice.dfy says what the splice amounts to.
 */
module Recorders {
  import opened Splice

  class Recorder {
    const target: string
    var next: Recorder?
    var running: bool
    var joins: nat  // how often this recorder was joined and freed

    constructor (target: string)
      ensures this.target == target && next == null && running && joins == 0
    {
      this.target, next, running, joins := target, null, true, 0;
    }
  }

  // The empty target (or none) stops everything.
  predicate Matches(r: Recorder, target: string) { target == "" || r.target == target }

  function Hits(rs: set<Recorder?>, target: string): set<Recorder?>
  {
    set r: Recorder? | r in rs && r != null && Matches(r, target)
  }

  type Links = map<Recorder?, Recorder?>

  ghost predicate Agrees(m: Links)
    reads m.Keys
  {
    forall r :: r in m ==> r != null && r.next == m[r]
  }

  class Recordings {
    var head: Recorder?
    var recordingFlag: bool
    ghost var list: seq<Recorder?>
    ghost var links: Links

    ghost predicate Shaped()
      reads this`head, this`list, this`links, links.Keys
    {
      && Distinct(list) && null !in Nodes(list) && links.Keys == Nodes(list)
      && Agrees(links) && Chain(links, head, list, null)
    }

    ghost predicate Valid()
      reads this, links.Keys
    {
      Shaped() && (recordingFlag <==> list != [])
    }

    constructor ()
      ensures Valid() && list == [] && !recordingFlag
    {
      head, recordingFlag, list, links := null, false, [], map[];
    }

    // The first lock region of a start: link at the head.
    method LinkNew(target: string) returns (rec: Recorder)
      requires Shaped()
      modifies this`head, this`list, this`links
      ensures Shaped() && list == [rec] + old(list)
      ensures fresh(rec) && rec.target == target && rec.running && rec.joins == 0
    {
      rec := new Recorder(target);
      rec.next := head;
      head := rec;
      ghost var r: Recorder? := rec;
      ChainFrame(links, r, rec.next, rec.next, list, null);
      DistinctEnds(list, r);
      NodesSnoc(list, r);
      links := links[r := rec.next];
      ChainCons(links, r, list, null);
      list := [r] + list;
    }

    // The second one, when no writer thread could be created: the head goes back to what follows rec.
    // Every recorder linked since rec goes with it.
    method Unstart(rec: Recorder, ghost i: nat)
      requires Shaped() && i < |list| && list[i] == rec
      modifies this`head, this`list, this`links
      ensures Shaped() && list == old(list)[i + 1..]
    {
      ghost var rest := list[i + 1..];
      ChainSuffix(links, head, list, i, null);
      DistinctConcat(list[..i + 1], rest);
      NodesConcat(list[..i + 1], rest);
      assert list == list[..i + 1] + rest;
      NodesIn(list);
      ChainRestrict(links, Nodes(rest), rec.next, rest, null);
      head := rec.next;
      links := Restrict(links, Nodes(rest));
      list := rest;
    }

    // Starting a recording with nobody in between.
    method Start(target: string, threadCreated: bool) returns (rec: Recorder)
      requires Valid()
      modifies this
      ensures Valid() && fresh(rec) && rec.target == target && rec.running && rec.joins == 0
      ensures list == if threadCreated then [rec] + old(list) else old(list)
    {
      rec := LinkNew(target);
      if threadCreated {
        recordingFlag := true;
      } else {
        Unstart(rec, 0);
      }
    }

    // Two starts that overlap, the first of which fails: the second recorder runs and is on no list, and
    // the flag agrees with the list only if there was a recording before.
    method OverlappingStarts(failing: string, target: string) returns (lost: Recorder)
      requires Valid()
      modifies this
      ensures Shaped() && list == old(list) && fresh(lost) && lost.target == target && lost.running
      ensures recordingFlag && (Valid() <==> old(list) != [])
    {
      var rec := LinkNew(failing);
      lost := LinkNew(target);
      recordingFlag := true;
      Unstart(rec, 1);
    }

    // Take `cur` out from behind `prev` and push it onto the stopped list.
    method Move(prev: Recorder?, cur: Recorder, stopped: Recorder?, ghost m: Links)
      requires Agrees(m) && cur in m && (prev != null ==> prev in m)
      modifies this`head, m.Keys
      ensures Agrees((if prev == null then m else m[prev := m[cur]])[cur := stopped])
      ensures head == if prev == null then m[cur] else old(head)
      ensures forall r :: r in m ==> r.joins == old(r.joins)
      ensures forall r :: r in m ==> r.running == (old(r.running) && r != cur)
    {
      var next := cur.next;
      if prev != null {
        prev.next := next;
      } else {
        head := next;
      }
      cur.next := stopped;
      cur.running := false;
    }

    // One turn of the splice loop.
    method Turn(prev: Recorder?, cur: Recorder, stopped: Recorder?, target: string,
                ghost p: Pass<Recorder?>, ghost all: seq<Recorder?>, ghost hit: set<Recorder?>)
      returns (prev': Recorder?, cur': Recorder?, stopped': Recorder?, ghost p': Pass<Recorder?>)
      requires PassInv(p, all, hit, null) && Agrees(p.m) && p.rest != []
      requires p.head == head && p.prev == prev && p.cur == cur && p.top == stopped
      requires cur in hit <==> Matches(cur, target)
      modifies this`head, p.m.Keys
      ensures PassInv(p', all, hit, null) && Agrees(p'.m) && p'.m.Keys == p.m.Keys && p'.rest == p.rest[1..]
      ensures Nodes(p'.taken) == Nodes(p.taken) + (if cur in hit then {cur} else {})
      ensures p'.head == head && p'.prev == prev' && p'.cur == cur' && p'.top == stopped'
      ensures forall r :: r in p.m ==> r.joins == old(r.joins)
      ensures forall r :: r in p.m ==> r.running == (old(r.running) && !(r == cur && r in hit))
    {
      PassStep(p, all, hit, null);
      NodesSnoc(p.taken, cur);
      prev', cur', stopped', p' := Visit(prev, cur, stopped, target, p, hit);
    }

    // What it does to the heap.
    method Visit(prev: Recorder?, cur: Recorder, stopped: Recorder?, target: string, ghost p: Pass<Recorder?>, ghost hit: set<Recorder?>)
      returns (prev': Recorder?, cur': Recorder?, stopped': Recorder?, ghost p': Pass<Recorder?>)
      requires Agrees(p.m) && p.rest != [] && cur in p.m && (prev != null ==> prev in p.m)
      requires p.head == head && p.prev == prev && p.cur == cur && p.top == stopped
      requires cur in hit <==> Matches(cur, target)
      modifies this`head, p.m.Keys
      ensures p' == PassNext(p, hit, null) && Agrees(p'.m)
      ensures p'.head == head && p'.prev == prev' && p'.cur == cur' && p'.top == stopped'
      ensures forall r :: r in p.m ==> r.joins == old(r.joins)
      ensures forall r :: r in p.m ==> r.running == (old(r.running) && !(r == cur && r in hit))
    {
      prev', cur', stopped', p' := prev, cur.next, stopped, PassNext(p, hit, null);
      if Matches(cur, target) {
        Move(prev, cur, stopped, p.m);
        stopped' := cur;
      } else {
        prev' := cur;
      }
    }

    // The splice under the lock, in one pass. `m` are the links afterwards.
    method TakeMatching(target: string) returns (stopped: Recorder?, ghost m: Links)
      requires Valid()
      modifies this`head, links.Keys
      ensures m.Keys == links.Keys && Agrees(m)
      ensures Chain(m, head, Kept(list, Hits(Nodes(list), target)), null)
      ensures Chain(m, stopped, Taken(list, Hits(Nodes(list), target)), null)
      ensures forall r :: r in m ==> r.joins == old(r.joins)
      ensures forall r :: r in m ==> r.running == (old(r.running) && !Matches(r, target))
    {
      ghost var hit := Hits(Nodes(list), target);
      var prev: Recorder? := null;
      var cur := head;
      stopped := null;
      ghost var p := Pass(links, head, prev, cur, stopped, [], list, [], []);
      NothingLeft(list);
      while cur != null
        invariant PassInv(p, list, hit, null) && Agrees(p.m)
        invariant p.head == head && p.prev == prev && p.cur == cur && p.top == stopped
        invariant forall r :: r in p.m ==> r.joins == old(r.joins)
        invariant forall r :: r in p.m ==> r.running == (old(r.running) && r !in Nodes(p.taken))
        decreases |p.rest|
      {
        PassFacts(p, list, hit, null);
        prev, cur, stopped, p := Turn(prev, cur, stopped, target, p, list, hit);
      }
      PassEnd(p, list, hit, null);
      m := p.m;
    }

    // The list becomes what was kept; the flag drops when nothing was.
    method Settle(ghost kept: seq<Recorder?>, ghost m: Links)
      requires Distinct(kept) && null !in Nodes(kept) && Nodes(kept) <= m.Keys
      requires Agrees(m) && Chain(m, head, kept, null)
      requires kept != [] ==> recordingFlag
      modifies this`recordingFlag, this`list, this`links
      ensures Valid() && list == kept
    {
      list := kept;
      ChainRestrict(m, Nodes(kept), head, kept, null);
      links := Restrict(m, Nodes(kept));
      ChainHead(m, head, kept, null);
      if head == null {
        recordingFlag := false;
      }
    }

    // All that happens under the lock. `m` are the links of the stopped list.
    method Unlink(target: string) returns (stopped: Recorder?, ghost m: Links)
      requires Valid()
      modifies this, links.Keys
      ensures Valid() && list == Kept(old(list), Hits(Nodes(old(list)), target))
      ensures var rs := Taken(old(list), Hits(Nodes(old(list)), target));
              && Distinct(rs) && m.Keys == Nodes(rs) && Agrees(m) && Chain(m, stopped, rs, null)
      ensures m.Keys == Hits(old(links).Keys, target) && links.Keys == old(links).Keys - m.Keys
      ensures forall r :: r in old(links) ==> r.joins == old(r.joins)
      ensures forall r :: r in old(links) ==> r.running == (old(r.running) && !Matches(r, target))
    {
      ghost var hit := Hits(Nodes(list), target);
      ghost var kept, rs := Kept(list, hit), Taken(list, hit);
      PartsDistinct(list, hit);
      PartMembers(list, hit);
      ghost var all;
      stopped, all := TakeMatching(target);
      Settle(kept, all);
      m := Restrict(all, Nodes(rs));
      ChainRestrict(all, Nodes(rs), stopped, rs, null);
    }

    // Stop all matching recorders: splice them out under the lock, then join and free each.
    method Stop(target: string) returns (closed: seq<Recorder?>)
      requires Valid()
      modifies this, links.Keys
      ensures Valid()
      ensures list == Kept(old(list), Hits(Nodes(old(list)), target))
      ensures closed == Taken(old(list), Hits(Nodes(old(list)), target))
      ensures forall r: Recorder? :: r in Nodes(old(list)) ==>
                r != null && (r in Nodes(list) <==> target != "" && r.target != target)
      ensures target == "" ==> list == []
      ensures forall r :: r in old(links) ==> r.running == (old(r.running) && !Matches(r, target))
      ensures forall r :: r in old(links) ==> r.joins == old(r.joins) + (if Matches(r, target) then 1 else 0)
    {
      ghost var rs := Taken(list, Hits(Nodes(list), target));
      PartMembers(list, Hits(Nodes(list), target));
      NothingLeft(Kept(list, Hits(Nodes(list), target)));
      var stopped;
      ghost var m;
      stopped, m := Unlink(target);
      closed := CloseAll(stopped, rs, m);
    }
  }

  // The chain of stopped recorders that are still to be joined.
  ghost predicate Waiting(m: Links, first: Recorder?, left: seq<Recorder?>)
    reads m.Keys
  {
    Distinct(left) && null !in Nodes(left) && Agrees(m) && Chain(m, first, left, null)
  }

  lemma WaitingHead(m: Links, first: Recorder?, left: seq<Recorder?>)
    requires Waiting(m, first, left)
    ensures left == [] <==> first == null
    ensures left != [] ==> left[0] == first && first in m && Nodes(left) == {first} + Nodes(left[1..]) && first !in Nodes(left[1..])
  {
    ChainHead(m, first, left, null);
  }

  type Tally = map<Recorder?, (nat, bool)>

  // Apart from those still to do, the recorders were joined once more than `before` says, and unlinked.
  ghost predicate Done(m: Links, todo: set<Recorder?>, before: Tally)
    reads m.Keys
  {
    m.Keys == before.Keys
    && forall r :: r in m ==>
         && r != null && r.running == before[r].1 && r.joins == before[r].0 + (if r in todo then 0 else 1)
         && (r !in todo ==> m[r] == null)
  }

  // Taking one stopped recorder off its chain and joining its writer.
  method CloseOne(r: Recorder, ghost m: Links, ghost left: seq<Recorder?>, ghost before: Tally)
    returns (rest: Recorder?, ghost m': Links)
    requires left != [] && r in m.Keys && Waiting(m, r, left) && Done(m, Nodes(left), before)
    modifies r`next, r`joins
    ensures rest == old(r.next) && m' == m[r := null]
    ensures Waiting(m', rest, left[1..]) && Done(m', Nodes(left[1..]), before)
  {
    WaitingHead(m, r, left);
    rest := r.next;
    ChainFrame(m, r, null, rest, left[1..], null);
    r.next := null;
    m' := m[r := null];
    r.joins := r.joins + 1;
  }

  // Joining and freeing the stopped recorders one by one.
  method CloseAll(first: Recorder?, ghost rs: seq<Recorder?>, ghost links: Links) returns (closed: seq<Recorder?>)
    requires Distinct(rs) && links.Keys == Nodes(rs)
    requires Agrees(links) && Chain(links, first, rs, null)
    modifies links.Keys
    ensures closed == rs
    ensures forall r :: r in links ==> r.next == null && r.running == old(r.running)
    ensures forall r :: r in links ==> r.joins == old(r.joins) + 1
  {
    ghost var before: Tally := map r: Recorder? | r in links && r != null :: (r.joins, r.running);
    ghost var m, left := links, rs;
    var stopped := first;
    closed := [];
    NothingLeft(rs);
    while stopped != null
      invariant closed + left == rs && m.Keys == links.Keys
      invariant Waiting(m, stopped, left) && Done(m, Nodes(left), before)
      decreases |left|
    {
      WaitingHead(m, stopped, left);
      Shift(closed, left);
      var r := stopped;
      stopped, m := CloseOne(r, m, left, before);
      closed, left := closed + [r], left[1..];
    }
    WaitingHead(m, stopped, left);
    NothingLeft(closed);
  }
}
