/**
 Doubly linked chains as values: a map of next links and a map of previous links over any nodes.
 */
module DoubleChain {
  import opened Splice

  // Following `nx` from `head` visits xs in order and then reaches `nil`; each node's `pv` is the node
  // before it, and the first one's is `before`.
  predicate Linked<T(==)>(nx: map<T, T>, pv: map<T, T>, head: T, xs: seq<T>, before: T, nil: T)
  {
    if xs == [] then head == nil
    else
      && head == xs[0] && head in nx && head in pv && pv[head] == before
      && Linked(nx, pv, nx[head], xs[1..], head, nil)
  }

  lemma {:induction false} LinkedFrame<T>(nx: map<T, T>, pv: map<T, T>, head: T, xs: seq<T>, before: T, nil: T,
                                          nx': map<T, T>, pv': map<T, T>)
    requires Linked(nx, pv, head, xs, before, nil)
    requires forall x :: x in Nodes(xs) && x in nx && x in pv ==> x in nx' && x in pv' && nx'[x] == nx[x] && pv'[x] == pv[x]
    ensures Linked(nx', pv', head, xs, before, nil)
  {
    if xs != [] {
      LinkedFrame(nx, pv, nx[head], xs[1..], head, nil, nx', pv');
    }
  }

  // Putting x in front.
  lemma AddFront<T>(nx: map<T, T>, pv: map<T, T>, head: T, xs: seq<T>, x: T, nil: T)
    requires Linked(nx, pv, head, xs, nil, nil) && Distinct(xs) && x !in Nodes(xs) && nil !in Nodes(xs) && x != nil
    ensures (xs == [] <==> head == nil) && (head != nil ==> head in pv)
    ensures Distinct([x] + xs) && Nodes([x] + xs) == Nodes(xs) + {x}
    ensures Linked(nx[x := head], (if head == nil then pv else pv[head := x])[x := nil], x, [x] + xs, nil, nil)
  {
    var nx', pv' := nx[x := head], (if head == nil then pv else pv[head := x])[x := nil];
    DistinctEnds(xs, x);
    NodesSnoc(xs, x);
    assert ([x] + xs)[1..] == xs;
    if xs != [] {
      LinkedFrame(nx, pv, nx[head], xs[1..], head, nil, nx', pv');
      assert pv'[head] == x;
    }
    assert Linked(nx', pv', head, xs, x, nil);
  }

  lemma MiddleNodes<T>(front: seq<T>, m: T, back: seq<T>)
    ensures Nodes(front + [m] + back) == Nodes(front) + {m} + Nodes(back)
    ensures Distinct(front + [m] + back) ==>
              Distinct(front) && Distinct(back) && Distinct(front + back)
              && m !in Nodes(front) && m !in Nodes(back) && Nodes(front) !! Nodes(back)
    ensures Nodes(front + back) == Nodes(front) + Nodes(back)
  {
    One(m);
    NodesConcat(front + [m], back);
    NodesConcat(front, [m]);
    NodesConcat(front, back);
    DistinctConcat(front + [m], back);
    DistinctConcat(front, [m]);
    DistinctConcat(front, back);
  }

  function LastOr<T>(xs: seq<T>, before: T): T { if xs == [] then before else xs[|xs| - 1] }

  // The links around m, and the chain once m's neighbours point at each other.
  lemma {:induction false} TakeOut<T>(nx: map<T, T>, pv: map<T, T>, head: T, front: seq<T>, m: T, back: seq<T>, before: T, nil: T)
    requires Linked(nx, pv, head, front + [m] + back, before, nil) && Distinct(front + [m] + back)
    requires nil !in Nodes(front + [m] + back)
    ensures m in nx && m in pv && pv[m] == LastOr(front, before)
    ensures back == [] <==> nx[m] == nil
    ensures back != [] ==> nx[m] == back[0]
    ensures var nx' := if front == [] then nx else nx[pv[m] := nx[m]];
            var pv' := if nx[m] == nil then pv else pv[nx[m] := pv[m]];
            Linked(nx', pv', if front == [] then nx[m] else head, front + back, before, nil)
  {
    var xs := front + [m] + back;
    MiddleNodes(front, m, back);
    if front == [] {
      assert xs == [m] + back && xs[1..] == back && front + back == back;
      var n := nx[m];
      var pv' := if n == nil then pv else pv[n := before];
      if back != [] {
        LinkedFrame(nx, pv, nx[n], back[1..], n, nil, nx, pv');
      }
    } else {
      assert xs[1..] == front[1..] + [m] + back && (front + back)[1..] == front[1..] + back;
      TakeOut(nx, pv, nx[head], front[1..], m, back, head, nil);
      MiddleNodes(front[1..], m, back);
      var nx' := nx[pv[m] := nx[m]];
      var pv' := if nx[m] == nil then pv else pv[nx[m] := pv[m]];
      if |front| == 1 {
        assert front[1..] == [] && front[1..] + back == back;
        assert pv[m] == head;
        FrontOne(nx, pv, head, m, back, nil);
      } else {
        NodesIn(front[1..]);
        assert LastOr(front[1..], head) == LastOr(front, before);
      }
    }
  }

  lemma FrontOne<T>(nx: map<T, T>, pv: map<T, T>, h: T, m: T, back: seq<T>, nil: T)
    requires m in nx && (back == [] <==> nx[m] == nil) && h !in Nodes(back)
    requires Linked(nx, if nx[m] == nil then pv else pv[nx[m] := h], nx[m], back, h, nil)
    ensures Linked(nx[h := nx[m]], if nx[m] == nil then pv else pv[nx[m] := h], nx[m], back, h, nil)
  {
    var pv' := if nx[m] == nil then pv else pv[nx[m] := h];
    LinkedFrame(nx, pv', nx[m], back, h, nil, nx[h := nx[m]], pv');
  }
}
