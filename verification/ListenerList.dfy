/**
 The room's doubly linked listener list with its counters, updated in place. Each operation and its
 counters are one step.
 */
module ListenerList {
  import opened Splice
  import opened DoubleChain

  datatype Role = Unset | Speaker | Listener

  class Member {
    const ghostMember: bool  // joined invisibly: not counted
    var id: nat              // zero until assigned
    var role: Role
    var running: bool
    var next: Member?
    var prev: Member?

    constructor (ghostMember: bool)
      ensures this.ghostMember == ghostMember && id == 0 && role == Unset && !running && next == null && prev == null
    {
      this.ghostMember, id, role, running, next, prev := ghostMember, 0, Unset, false, null, null;
    }
  }

  // Listed members that count.
  function Visible(ms: seq<Member?>): nat
  {
    if ms == [] then 0 else (if ms[0] != null && !ms[0].ghostMember then 1 else 0) + Visible(ms[1..])
  }

  lemma {:induction false} VisibleConcat(xs: seq<Member?>, ys: seq<Member?>)
    ensures Visible(xs + ys) == Visible(xs) + Visible(ys)
  {
    if xs == [] {
      assert xs + ys == ys;
    } else {
      assert (xs + ys)[1..] == xs[1..] + ys;
      VisibleConcat(xs[1..], ys);
    }
  }

  function Weight(m: Member): nat { if m.ghostMember then 0 else 1 }

  lemma VisibleMiddle(front: seq<Member?>, m: Member, back: seq<Member?>)
    ensures Visible(front + [m] + back) == Visible(front + back) + Weight(m)
  {
    VisibleConcat(front + [m], back);
    VisibleConcat(front, [m]);
    VisibleConcat(front, back);
    assert [m as Member?][1..] == [];
    assert Visible([m]) == Weight(m);
  }

  // ys is xs with one occurrence of m taken out and the rest in the same order.
  ghost predicate TakenOut(xs: seq<Member?>, m: Member, ys: seq<Member?>)
  {
    exists i :: 0 <= i < |xs| && xs[i] == m && ys == xs[..i] + xs[i + 1..]
  }

  type Links = map<Member?, Member?>

  // The links make an acyclic, doubly linked list of the members in `list`.
  ghost predicate WellLinked(nx: Links, pv: Links, head: Member?, list: seq<Member?>)
  {
    && Distinct(list) && null !in Nodes(list) && nx.Keys == pv.Keys == Nodes(list)
    && Linked(nx, pv, head, list, null, null)
  }

  // The nodes' own links are those of the maps.
  ghost predicate Mirrors(nx: Links, pv: Links)
    reads nx.Keys`next, nx.Keys`prev
  {
    forall m :: m in nx ==> m != null && m in pv && m.next == nx[m] && m.prev == pv[m]
  }

  class Listeners {
    const maxListeners: nat
    var head: Member?
    var count: nat
    var peak: nat
    var statJoined: nat
    var statLeft: nat
    var nextMemberId: nat
    var destroyed: bool
    var locked: bool
    ghost var list: seq<Member?>
    ghost var nx: Links
    ghost var pv: Links
    ghost var promoted: nat
    ghost var mostEver: nat

    // The heap is a well-formed, acyclic, doubly linked list of `list`.
    ghost predicate Shaped()
      reads this`head, this`list, this`nx, this`pv, nx.Keys`next, nx.Keys`prev
    {
      WellLinked(nx, pv, head, list) && Mirrors(nx, pv)
    }

    ghost predicate Valid()
      reads this`head, this`list, this`nx, this`pv, nx.Keys`next, nx.Keys`prev
      reads this`count, this`peak, this`mostEver, this`statJoined, this`statLeft, this`promoted
    {
      && Shaped()
      && count == |list| <= maxListeners
      && peak == mostEver && count <= mostEver
      && statJoined == statLeft + Visible(list) + promoted
    }

    constructor (maxListeners: nat)
      ensures Valid() && list == [] && !destroyed && !locked && this.maxListeners == maxListeners && nextMemberId == 0
    {
      this.maxListeners, head, count, peak := maxListeners, null, 0, 0;
      statJoined, statLeft, nextMemberId, destroyed, locked := 0, 0, 0, false, false;
      list, nx, pv, promoted, mostEver := [], map[], map[], 0, 0;
    }

    method Add(m: Member) returns (ok: bool)
      requires Valid() && m !in nx.Keys
      modifies this`head, this`count, this`peak, this`statJoined, this`nextMemberId,
               this`list, this`nx, this`pv, this`mostEver, m, nx.Keys`prev
      ensures Valid()
      ensures ok <==> !destroyed && !locked && old(count) < maxListeners
      ensures list == if ok then [m] + old(list) else old(list)
      ensures ok ==> m.role == Listener && m.running
      ensures m.id == (if ok && old(m.id) == 0 then nextMemberId else old(m.id))
      ensures nextMemberId == old(nextMemberId) + (if ok && old(m.id) == 0 then 1 else 0)
      ensures statJoined == old(statJoined) + (if ok && !m.ghostMember then 1 else 0)
      ensures mostEver == if |list| > old(mostEver) then |list| else old(mostEver)
    {
      if destroyed || locked {
        return false;
      }
      if count >= maxListeners {
        return false;
      }
      Admit(m);
      ok := true;
    }

    // A member the guards let through.
    method Admit(m: Member)
      requires Valid() && m !in nx.Keys && count < maxListeners
      modifies this`head, this`count, this`peak, this`statJoined, this`nextMemberId,
               this`list, this`nx, this`pv, this`mostEver, m, nx.Keys`prev
      ensures Valid() && list == [m] + old(list) && m.role == Listener && m.running
      ensures m.id == if old(m.id) == 0 then nextMemberId else old(m.id)
      ensures nextMemberId == old(nextMemberId) + if old(m.id) == 0 then 1 else 0
      ensures statJoined == old(statJoined) + Weight(m)
      ensures mostEver == if |list| > old(mostEver) then |list| else old(mostEver)
    {
      Introduce(m);
      Enter(m);
      m.running := true;
    }

    // An id, unless the member has one, and the role.
    method Introduce(m: Member)
      modifies this`nextMemberId, m`id, m`role
      ensures m.role == Listener && m.id == if old(m.id) == 0 then nextMemberId else old(m.id)
      ensures nextMemberId == old(nextMemberId) + if old(m.id) == 0 then 1 else 0
    {
      if m.id == 0 {
        nextMemberId := nextMemberId + 1;
        m.id := nextMemberId;
      }
      m.role := Listener;
    }

    // The list insertion and the counters that go with it.
    method Enter(m: Member)
      requires Valid() && m !in nx.Keys && count < maxListeners
      modifies this`head, this`count, this`peak, this`statJoined, this`list, this`nx, this`pv, this`mostEver,
               m`next, m`prev, nx.Keys`prev
      ensures Valid() && list == [m] + old(list)
      ensures statJoined == old(statJoined) + Weight(m)
      ensures mostEver == if |list| > old(mostEver) then |list| else old(mostEver)
    {
      LinkFront(m);
      CountJoin(m);
    }

    method CountJoin(m: Member)
      modifies this`count, this`peak, this`statJoined, this`mostEver
      ensures count == old(count) + 1 && statJoined == old(statJoined) + Weight(m)
      ensures peak == if count > old(peak) then count else old(peak)
      ensures mostEver == if |list| > old(mostEver) then |list| else old(mostEver)
    {
      count := count + 1;
      if count > peak {
        peak := count;
      }
      if |list| > mostEver {
        mostEver := |list|;
      }
      if !m.ghostMember {
        statJoined := statJoined + 1;
      }
    }

    method LinkFront(m: Member)
      requires Shaped() && m !in nx.Keys
      modifies this`head, this`list, this`nx, this`pv, m`next, m`prev, nx.Keys`prev
      ensures Shaped() && list == [m] + old(list)
      ensures Visible(list) == Visible(old(list)) + Weight(m)
    {
      ghost var x: Member? := m;
      AddFront(nx, pv, head, list, x, null);
      VisibleMiddle([], m, list);
      NothingLeft(list);
      NothingLeft([x]);
      ghost var nx', pv' := nx[x := head], (if head == null then pv else pv[head := x])[x := null];
      SetFront(m, nx, pv, nx', pv');
      nx, pv, list := nx', pv', [x] + list;
    }

    // The assignments of the insertion; the links were nx0 and pv0 and become nx1 and pv1.
    method SetFront(m: Member, ghost nx0: Links, ghost pv0: Links, ghost nx1: Links, ghost pv1: Links)
      requires Mirrors(nx0, pv0) && nx0.Keys == pv0.Keys && m !in nx0 && (head != null ==> head in nx0)
      requires nx1 == nx0[m := head] && pv1 == (if head == null then pv0 else pv0[head := m])[m := null]
      modifies this`head, m`next, m`prev, nx0.Keys`prev
      ensures head == m && Mirrors(nx1, pv1)
    {
      m.next := head;
      m.prev := null;
      if head != null {
        head.prev := m;
      }
      head := m;
    }

    // The search loop of the removals: is m on the list?
    method Listed(m: Member) returns (found: bool)
      requires Shaped()
      ensures found <==> m in Nodes(list)
    {
      var cur := head;
      ghost var seen: seq<Member?>, rest, before: Member? := [], list, null;
      NothingLeft(list);
      found := false;
      while cur != null
        invariant list == seen + rest && Linked(nx, pv, cur, rest, before, null)
        invariant m !in Nodes(seen)
        decreases |rest|
      {
        NodesConcat(seen, rest);
        if cur == m {
          found := true;
          return;
        }
        NodesSnoc(seen, cur);
        Shift(seen, rest);
        seen, rest, before := seen + [cur], rest[1..], cur;
        cur := cur.next;
      }
      NothingLeft(seen);
    }

    // The relinking both removals do once m is found.
    method Unlink(m: Member) returns (ghost i: nat)
      requires Shaped() && m in Nodes(list)
      modifies this`head, this`list, this`nx, this`pv, nx.Keys`next, nx.Keys`prev
      ensures Shaped() && m.next == null && m.prev == null
      ensures i < |old(list)| && old(list)[i] == m && list == old(list)[..i] + old(list)[i + 1..]
      ensures Visible(old(list)) == Visible(list) + Weight(m) && |list| == |old(list)| - 1
      ensures nx.Keys == old(nx.Keys) - {m}
    {
      i := Find(list, m);
      RestShape(list, i, m);
      Relink(m, i);
    }

    method Relink(m: Member, ghost i: nat)
      requires Shaped() && i < |list| && list[i] == m
      modifies this`head, this`list, this`nx, this`pv, nx.Keys`next, nx.Keys`prev
      ensures Shaped() && m.next == null && m.prev == null && list == old(list)[..i] + old(list)[i + 1..]
      ensures nx.Keys == old(nx.Keys) - {m}
    {
      ghost var x: Member? := m;
      ghost var nx', pv' := Detach(nx, pv, head, list, i, x);
      Bypass(m, nx, pv, nx', pv');
      list := list[..i] + list[i + 1..];
      nx, pv := nx', pv';
    }

    // Pointing m's neighbours at each other; the links were nx0 and pv0 and become nx1 and pv1.
    method Bypass(m: Member, ghost nx0: Links, ghost pv0: Links, ghost nx1: Links, ghost pv1: Links)
      requires Mirrors(nx0, pv0) && m in nx0 && nx1.Keys == pv1.Keys == nx0.Keys - {m}
      requires pv0[m] != null ==> pv0[m] in nx0 && pv0[m] != m
      requires nx0[m] != null ==> nx0[m] in nx0 && nx0[m] != m
      requires forall y :: y in nx1 ==> nx1[y] == (if y == pv0[m] then nx0[m] else nx0[y])
      requires forall y :: y in pv1 ==> y in pv0 && pv1[y] == (if y == nx0[m] then pv0[m] else pv0[y])
      modifies this`head, nx0.Keys`next, nx0.Keys`prev
      ensures head == if pv0[m] == null then nx0[m] else old(head)
      ensures m.next == null && m.prev == null && Mirrors(nx1, pv1)
    {
      if m.prev != null {
        m.prev.next := m.next;
      } else {
        head := m.next;
      }
      if m.next != null {
        m.next.prev := m.prev;
      }
      m.next, m.prev := null, null;
    }

    // Taking m off to promote it: no leave statistics.
    method UnlinkForPromotion(m: Member) returns (found: bool)
      requires Valid()
      modifies this`head, this`count, this`list, this`nx, this`pv, this`promoted, nx.Keys`next, nx.Keys`prev
      ensures Valid()
      ensures found <==> m in Nodes(old(list))
      ensures if found then TakenOut(old(list), m, list)
              else list == old(list)
      ensures promoted == old(promoted) + (if found && !m.ghostMember then 1 else 0)
      ensures nx.Keys == old(nx.Keys) - {m}
    {
      found := TakeOff(m);
      if found {
        promoted := promoted + Weight(m);
      }
    }

    // What both removals do under the lock: search, relink, count.
    method TakeOff(m: Member) returns (found: bool)
      requires Shaped() && count == |list|
      modifies this`head, this`count, this`list, this`nx, this`pv, nx.Keys`next, nx.Keys`prev
      ensures Shaped() && count == |list| <= old(count)
      ensures found <==> m in Nodes(old(list))
      ensures if found then TakenOut(old(list), m, list) else list == old(list)
      ensures nx.Keys == old(nx.Keys) - {m}
      ensures Visible(old(list)) == Visible(list) + (if found then Weight(m) else 0)
    {
      found := Listed(m);
      if found {
        ghost var i := Unlink(m);
        if count != 0 {
          count := count - 1;
        }
      }
    }

    // A promotion that times out: off the list, then back at its front if the room still takes listeners.
    // The member is counted as joining a second time.
    method TimedOutPromotion(m: Member) returns (found: bool, back: bool)
      requires Valid()
      modifies this`head, this`count, this`peak, this`statJoined, this`nextMemberId, this`promoted,
               this`list, this`nx, this`pv, this`mostEver, m, nx.Keys
      ensures Valid()
      ensures found <==> m in Nodes(old(list))
      ensures back <==> found && !destroyed && !locked
      ensures back ==> |list| == |old(list)| && list[0] == m && TakenOut(old(list), m, list[1..])
      ensures found && !back ==> TakenOut(old(list), m, list)
      ensures !found ==> list == old(list)
      ensures old(m.id) != 0 ==> m.id == old(m.id)
      ensures mostEver == old(mostEver)
      ensures statJoined == old(statJoined) + (if back && !m.ghostMember then 1 else 0)
    {
      back := false;
      found := UnlinkForPromotion(m);
      if found {
        ghost var rest := list;
        back := Add(m);
        if back {
          assert list[1..] == rest;
        }
      }
    }

    // A listener leaves.
    method Del(m: Member)
      requires Valid()
      modifies this`head, this`count, this`list, this`nx, this`pv, this`statLeft, nx.Keys`next, nx.Keys`prev
      ensures Valid()
      ensures if m in Nodes(old(list)) then TakenOut(old(list), m, list)
              else list == old(list)
      ensures statLeft == old(statLeft) + (if m in Nodes(old(list)) && !m.ghostMember then 1 else 0)
      ensures nx.Keys == old(nx.Keys) - {m}
    {
      var found := TakeOff(m);
      if found {
        if !m.ghostMember {
          statLeft := statLeft + 1;
        }
      }
    }

    // The first listed member with this id.
    method FindById(id: nat) returns (m: Member?)
      requires Shaped()
      ensures m == null ==> forall x :: x in Nodes(list) ==> x != null && x.id != id
      ensures m != null ==> m in Nodes(list) && m.id == id
    {
      var cur := head;
      ghost var seen: seq<Member?>, rest, before: Member? := [], list, null;
      NothingLeft(list);
      while cur != null
        invariant list == seen + rest && Linked(nx, pv, cur, rest, before, null)
        invariant forall x :: x in Nodes(seen) ==> x != null && x.id != id
        decreases |rest|
      {
        NodesConcat(seen, rest);
        if cur.id == id {
          return cur;
        }
        NodesSnoc(seen, cur);
        Shift(seen, rest);
        seen, rest, before := seen + [cur], rest[1..], cur;
        cur := cur.next;
      }
      NothingLeft(seen);
      m := null;
    }
  }

  ghost function Drop(m: Links, x: Member?): Links { map y | y in m && y != x :: m[y] }

  lemma Find(xs: seq<Member?>, m: Member?) returns (i: nat)
    requires m in Nodes(xs)
    ensures i < |xs| && xs[i] == m
  {
    NodesIn(xs);
    i :| 0 <= i < |xs| && xs[i] == m;
  }

  // The list without its node i.
  lemma RestShape(list: seq<Member?>, i: nat, x: Member?)
    requires Distinct(list) && null !in Nodes(list) && i < |list| && list[i] == x && x != null
    ensures var rest := list[..i] + list[i + 1..];
            Distinct(rest) && Nodes(rest) == Nodes(list) - {x} && Visible(list) == Visible(rest) + Weight(x)
  {
    assert list == list[..i] + [x] + list[i + 1..];
    MiddleNodes(list[..i], x, list[i + 1..]);
    VisibleMiddle(list[..i], x, list[i + 1..]);
  }

  // Its neighbours are on the list, if it has any.
  lemma Neighbours(nx: Links, pv: Links, head: Member?, list: seq<Member?>, i: nat, x: Member?)
    requires Distinct(list) && null !in Nodes(list) && Linked(nx, pv, head, list, null, null)
    requires i < |list| && list[i] == x
    ensures x in nx && x in pv && (pv[x] == null <==> i == 0) && (nx[x] == null <==> i == |list| - 1)
    ensures pv[x] != null ==> pv[x] in Nodes(list) && pv[x] != x
    ensures nx[x] != null ==> nx[x] in Nodes(list) && nx[x] != x
  {
    var front, back := list[..i], list[i + 1..];
    assert list == front + [x] + back;
    TakeOut(nx, pv, head, front, x, back, null, null);
    MiddleNodes(front, x, back);
    NeighboursListed(front, x, back);
  }

  // The list without its node i, and the links it then has.
  lemma Detach(nx: Links, pv: Links, head: Member?, list: seq<Member?>, i: nat, x: Member?)
    returns (nx': Links, pv': Links)
    requires WellLinked(nx, pv, head, list) && i < |list| && list[i] == x && x != null
    ensures x in nx && x in pv
    ensures pv[x] != null ==> pv[x] in nx && pv[x] != x
    ensures nx[x] != null ==> nx[x] in nx && nx[x] != x
    ensures nx'.Keys == pv'.Keys == nx.Keys - {x}
    ensures forall y :: y in nx' ==> nx'[y] == (if y == pv[x] then nx[x] else nx[y])
    ensures forall y :: y in pv' ==> pv'[y] == (if y == nx[x] then pv[x] else pv[y])
    ensures WellLinked(nx', pv', if pv[x] == null then nx[x] else head, list[..i] + list[i + 1..])
  {
    var front, back := list[..i], list[i + 1..];
    assert list == front + [x] + back;
    TakeOut(nx, pv, head, front, x, back, null, null);
    Neighbours(nx, pv, head, list, i, x);
    RestShape(list, i, x);
    var nx1 := if front == [] then nx else nx[pv[x] := nx[x]];
    var pv1 := if nx[x] == null then pv else pv[nx[x] := pv[x]];
    nx', pv' := Drop(nx1, x), Drop(pv1, x);
    LinkedFrame(nx1, pv1, if front == [] then nx[x] else head, front + back, null, null, nx', pv');
  }

  lemma NeighboursListed(front: seq<Member?>, m: Member?, back: seq<Member?>)
    ensures front != [] ==> LastOr(front, null) in Nodes(front)
    ensures back != [] ==> back[0] in Nodes(back)
  {
    NodesIn(front);
    NodesIn(back);
  }
}
