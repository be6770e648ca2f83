/**
 Splitting a linked chain in one pass: the nodes to be taken out go, one by one, onto the front of a
 second chain. Nodes are any values; `nil` ends a chain.
 */
module Splice {

  // ---------------------------------------------------------------- the two parts of a list

  function Kept<T(==)>(xs: seq<T>, hit: set<T>): seq<T>
  {
    if xs == [] then []
    else
      var x := xs[|xs| - 1];
      Kept(xs[..|xs| - 1], hit) + (if x in hit then [] else [x])
  }

  // The ones taken out, last first.
  function Taken<T(==)>(xs: seq<T>, hit: set<T>): seq<T>
  {
    if xs == [] then []
    else
      var x := xs[|xs| - 1];
      (if x in hit then [x] else []) + Taken(xs[..|xs| - 1], hit)
  }

  function Nodes<T(==)>(xs: seq<T>): set<T>
  {
    if xs == [] then {} else {xs[0]} + Nodes(xs[1..])
  }

  predicate Distinct<T(==)>(xs: seq<T>)
  {
    xs == [] || (xs[0] !in Nodes(xs[1..]) && Distinct(xs[1..]))
  }

  lemma {:induction false} NodesIn<T>(xs: seq<T>)
    ensures forall x :: x in Nodes(xs) <==> x in xs
  {
    if xs != [] {
      NodesIn(xs[1..]);
      assert xs == [xs[0]] + xs[1..];
    }
  }

  lemma {:induction false} NodesConcat<T>(xs: seq<T>, ys: seq<T>)
    ensures Nodes(xs + ys) == Nodes(xs) + Nodes(ys)
  {
    if xs == [] {
      assert xs + ys == ys;
    } else {
      assert (xs + ys)[1..] == xs[1..] + ys;
      NodesConcat(xs[1..], ys);
    }
  }

  lemma {:induction false} DistinctConcat<T>(xs: seq<T>, ys: seq<T>)
    ensures Distinct(xs + ys) <==> Distinct(xs) && Distinct(ys) && Nodes(xs) !! Nodes(ys)
  {
    if xs == [] {
      assert xs + ys == ys;
    } else {
      assert (xs + ys)[1..] == xs[1..] + ys;
      NodesConcat(xs[1..], ys);
      DistinctConcat(xs[1..], ys);
    }
  }

  lemma One<T>(x: T)
    ensures Nodes([x]) == {x} && Distinct([x])
  {
    assert [x][1..] == [];
  }

  lemma NodesSnoc<T>(xs: seq<T>, x: T)
    ensures Nodes(xs + [x]) == Nodes(xs) + {x}
    ensures Nodes([x] + xs) == Nodes(xs) + {x}
  {
    One(x);
    NodesConcat(xs, [x]);
    NodesConcat([x], xs);
  }

  lemma PartsSnoc<T>(xs: seq<T>, x: T, hit: set<T>)
    ensures Kept(xs + [x], hit) == Kept(xs, hit) + (if x in hit then [] else [x])
    ensures Taken(xs + [x], hit) == (if x in hit then [x] else []) + Taken(xs, hit)
  {
    assert (xs + [x])[..|xs|] == xs;
  }

  lemma Unsnoc<T>(xs: seq<T>) returns (front: seq<T>, x: T)
    requires xs != []
    ensures xs == front + [x] && |front| < |xs| && front == xs[..|xs| - 1] && x == xs[|xs| - 1]
    ensures Distinct(xs) ==> Distinct(front) && x !in Nodes(front)
  {
    front, x := xs[..|xs| - 1], xs[|xs| - 1];
    One(x);
    DistinctConcat(front, [x]);
  }

  lemma {:induction false} PartMembers<T>(xs: seq<T>, hit: set<T>)
    ensures Nodes(Kept(xs, hit)) == Nodes(xs) - hit
    ensures Nodes(Taken(xs, hit)) == Nodes(xs) * hit
    decreases |xs|
  {
    if xs != [] {
      var front, x := Unsnoc(xs);
      PartMembers(front, hit);
      PartsSnoc(front, x, hit);
      NodesSnoc(front, x);
      NodesSnoc(Kept(front, hit), x);
      NodesSnoc(Taken(front, hit), x);
      NothingLeft(Kept(front, hit));
      NothingLeft(Taken(front, hit));
    }
  }

  lemma DistinctEnds<T>(xs: seq<T>, x: T)
    requires Distinct(xs) && x !in Nodes(xs)
    ensures Distinct(xs + [x]) && Distinct([x] + xs)
  {
    One(x);
    DistinctConcat(xs, [x]);
    DistinctConcat([x], xs);
  }

  lemma NothingLeft<T>(front: seq<T>)
    ensures front + [] == front && [] + front == front
  {
  }

  lemma {:induction false} PartsDistinct<T>(xs: seq<T>, hit: set<T>)
    requires Distinct(xs)
    ensures Distinct(Kept(xs, hit)) && Distinct(Taken(xs, hit))
    decreases |xs|
  {
    if xs != [] {
      var front, x := Unsnoc(xs);
      PartsDistinct(front, hit);
      PartsSnoc(front, x, hit);
      PartMembers(front, hit);
      NothingLeft(Kept(front, hit));
      NothingLeft(Taken(front, hit));
      DistinctEnds(Kept(front, hit), x);
      DistinctEnds(Taken(front, hit), x);
    }
  }

  lemma {:induction false} PartsPermute<T>(xs: seq<T>, hit: set<T>)
    ensures multiset(Kept(xs, hit)) + multiset(Taken(xs, hit)) == multiset(xs)
    decreases |xs|
  {
    if xs != [] {
      var front, x := Unsnoc(xs);
      PartsPermute(front, hit);
      PartsSnoc(front, x, hit);
    }
  }

  // Kept and taken split the list: each is free of duplicates, they share nothing, and together they
  // are a permutation of it.
  lemma Partition<T>(xs: seq<T>, hit: set<T>)
    requires Distinct(xs)
    ensures Distinct(Kept(xs, hit)) && Distinct(Taken(xs, hit))
    ensures Nodes(Kept(xs, hit)) == Nodes(xs) - hit && Nodes(Taken(xs, hit)) == Nodes(xs) * hit
    ensures multiset(Kept(xs, hit)) + multiset(Taken(xs, hit)) == multiset(xs)
  {
    PartsDistinct(xs, hit);
    PartsPermute(xs, hit);
    PartMembers(xs, hit);
  }

  // x stands somewhere before y.
  ghost predicate Before<T(!new)>(xs: seq<T>, x: T, y: T)
  {
    exists i, j :: 0 <= i < j < |xs| && xs[i] == x && xs[j] == y
  }

  lemma BeforeGrows<T(!new)>(xs: seq<T>, x: T, y: T, z: T)
    requires Before(xs, x, y)
    ensures Before(xs + [z], x, y) && Before([z] + xs, x, y)
  {
    var i, j :| 0 <= i < j < |xs| && xs[i] == x && xs[j] == y;
    assert (xs + [z])[i] == x && (xs + [z])[j] == y;
    assert ([z] + xs)[i + 1] == x && ([z] + xs)[j + 1] == y;
  }

  lemma BeforeEnds<T(!new)>(xs: seq<T>, x: T, z: T)
    requires x in Nodes(xs)
    ensures Before(xs + [z], x, z) && Before([z] + xs, z, x)
  {
    NodesIn(xs);
    var i :| 0 <= i < |xs| && xs[i] == x;
    assert (xs + [z])[i] == x && (xs + [z])[|xs|] == z;
    assert ([z] + xs)[i + 1] == x && ([z] + xs)[0] == z;
  }

  // Order: earlier in the list stays earlier among the kept and becomes later among the taken.
  lemma {:induction false} PartsOrder<T(!new)>(xs: seq<T>, hit: set<T>, x: T, y: T)
    requires Before(xs, x, y)
    ensures x !in hit && y !in hit ==> Before(Kept(xs, hit), x, y)
    ensures x in hit && y in hit ==> Before(Taken(xs, hit), y, x)
    decreases |xs|
  {
    var front, z := Unsnoc(xs);
    PartsSnoc(front, z, hit);
    NothingLeft(Kept(front, hit));
    NothingLeft(Taken(front, hit));
    var i, j :| 0 <= i < j < |xs| && xs[i] == x && xs[j] == y;
    if j < |front| {
      assert front[i] == x && front[j] == y;
      PartsOrder(front, hit, x, y);
      if x !in hit && y !in hit { BeforeGrows(Kept(front, hit), x, y, z); }
      if x in hit && y in hit { BeforeGrows(Taken(front, hit), y, x, z); }
    } else {
      assert front[i] == x;
      LastInOrder(front, hit, x, z);
    }
  }

  // Whatever is before the last of the list is so in its part.
  lemma LastInOrder<T(!new)>(front: seq<T>, hit: set<T>, x: T, z: T)
    requires x in front
    ensures x !in hit ==> Before(Kept(front, hit) + [z], x, z)
    ensures x in hit ==> Before([z] + Taken(front, hit), z, x)
  {
    NodesIn(front);
    PartMembers(front, hit);
    if x in hit { BeforeEnds(Taken(front, hit), x, z); } else { BeforeEnds(Kept(front, hit), x, z); }
  }

  // ---------------------------------------------------------------- linked chains

  // The nodes of xs, in order, are what following the links from `head` visits before it gets to
  // `end`.
  predicate Chain<T(==)>(m: map<T, T>, head: T, xs: seq<T>, end: T)
  {
    if xs == [] then head == end
    else head == xs[0] && xs[0] in m && Chain(m, m[xs[0]], xs[1..], end)
  }

  lemma ChainCons<T>(m: map<T, T>, x: T, xs: seq<T>, end: T)
    requires x in m && Chain(m, m[x], xs, end)
    ensures Chain(m, x, [x] + xs, end)
  {
    assert ([x] + xs)[1..] == xs;
  }

  lemma {:induction false} ChainSnoc<T>(m: map<T, T>, head: T, xs: seq<T>, x: T)
    requires Chain(m, head, xs, x) && x in m
    ensures Chain(m, head, xs + [x], m[x])
  {
    if xs == [] {
      ChainCons(m, x, [], m[x]);
      assert [x] + [] == xs + [x];
    } else {
      ChainSnoc(m, m[xs[0]], xs[1..], x);
      assert (xs + [x])[1..] == xs[1..] + [x];
    }
  }

  // Changing the link of a node outside the chain.
  lemma {:induction false} ChainFrame<T>(m: map<T, T>, x: T, to: T, head: T, xs: seq<T>, end: T)
    requires Chain(m, head, xs, end) && x !in Nodes(xs)
    ensures Chain(m[x := to], head, xs, end)
  {
    if xs != [] {
      ChainFrame(m, x, to, m[xs[0]], xs[1..], end);
    }
  }

  // Redirecting the last node moves the end of the chain.
  lemma {:induction false} ChainRedirect<T>(m: map<T, T>, head: T, xs: seq<T>, end: T, to: T)
    requires xs != [] && Distinct(xs) && Chain(m, head, xs, end)
    ensures Chain(m[xs[|xs| - 1] := to], head, xs, to)
  {
    if |xs| == 1 {
      assert xs[1..] == [];
    } else {
      ChainRedirect(m, m[xs[0]], xs[1..], end, to);
      NodesIn(xs[1..]);
      assert xs[1..][|xs| - 2] == xs[|xs| - 1];
    }
  }

  function Restrict<T>(m: map<T, T>, keys: set<T>): map<T, T>
  {
    map x | x in m && x in keys :: m[x]
  }

  lemma {:induction false} ChainRestrict<T>(m: map<T, T>, keys: set<T>, head: T, xs: seq<T>, end: T)
    requires Chain(m, head, xs, end) && Nodes(xs) <= keys
    ensures Chain(Restrict(m, keys), head, xs, end)
  {
    if xs != [] {
      ChainRestrict(m, keys, m[xs[0]], xs[1..], end);
    }
  }

  // What follows node i is the chain from its link on.
  lemma {:induction false} ChainSuffix<T>(m: map<T, T>, head: T, xs: seq<T>, i: nat, end: T)
    requires Chain(m, head, xs, end) && i < |xs|
    ensures xs[i] in m && Chain(m, m[xs[i]], xs[i + 1..], end)
  {
    if i > 0 {
      ChainSuffix(m, m[head], xs[1..], i - 1, end);
      assert xs[1..][i..] == xs[i + 1..];
    }
  }

  lemma ChainHead<T>(m: map<T, T>, head: T, xs: seq<T>, end: T)
    requires Chain(m, head, xs, end) && end !in Nodes(xs)
    ensures xs == [] <==> head == end
  {
  }

  lemma Shift<T>(front: seq<T>, back: seq<T>)
    requires back != []
    ensures (front + [back[0]]) + back[1..] == front + back
  {
  }

  // Three chains over the same links: what is kept so far leads to the cursor, the cursor leads
  // through the rest, and `top` leads through what was taken.
  ghost predicate ThreeChains<T>(m: map<T, T>, head: T, kept: seq<T>, cur: T, rest: seq<T>, top: T, taken: seq<T>, nil: T)
  {
    Chain(m, head, kept, cur) && Chain(m, cur, rest, nil) && Chain(m, top, taken, nil)
  }

  // The links after `cur` is taken out from behind `kept` and pushed in front of `taken`.
  lemma MovedChains<T>(m: map<T, T>, head: T, kept: seq<T>, cur: T, rest: seq<T>, top: T, taken: seq<T>, nil: T)
    requires Distinct(kept) && cur in m
    requires cur !in Nodes(kept) && cur !in Nodes(taken) && cur !in Nodes(rest)
    requires kept != [] ==> kept[|kept| - 1] !in Nodes(taken) && kept[|kept| - 1] !in Nodes(rest)
    requires Chain(m, head, kept, cur) && Chain(m, m[cur], rest, nil) && Chain(m, top, taken, nil)
    ensures kept == [] ==> ThreeChains(m[cur := top], m[cur], kept, m[cur], rest, cur, [cur] + taken, nil)
    ensures kept != [] ==> ThreeChains(m[kept[|kept| - 1] := m[cur]][cur := top], head, kept, m[cur], rest, cur, [cur] + taken, nil)
  {
    var mid := m;
    if kept != [] {
      var p := kept[|kept| - 1];
      mid := m[p := m[cur]];
      ChainRedirect(m, head, kept, cur, m[cur]);
      ChainFrame(m, p, m[cur], m[cur], rest, nil);
      ChainFrame(m, p, m[cur], top, taken, nil);
      ChainFrame(mid, cur, top, head, kept, m[cur]);
    }
    ChainFrame(mid, cur, top, m[cur], rest, nil);
    ChainFrame(mid, cur, top, top, taken, nil);
    ChainCons(mid[cur := top], cur, taken, nil);
  }

  // ---------------------------------------------------------------- one pass

  // Where a pass stands: the pointers of the loop, the links, the part of the list behind it and
  // ahead of it, and how the part behind was split.
  datatype Pass<T> = Pass(m: map<T, T>, head: T, prev: T, cur: T, top: T,
                          done: seq<T>, rest: seq<T>, kept: seq<T>, taken: seq<T>)

  // The split is of what the pass has seen.
  ghost predicate SplitInv<T>(p: Pass<T>, all: seq<T>, hit: set<T>)
  {
    all == p.done + p.rest && p.kept == Kept(p.done, hit) && p.taken == Taken(p.done, hit)
  }

  // The links agree with the split.
  ghost predicate LinkInv<T>(p: Pass<T>, nil: T)
  {
    && p.prev == (if p.kept == [] then nil else p.kept[|p.kept| - 1])
    && ThreeChains(p.m, p.head, p.kept, p.cur, p.rest, p.top, p.taken, nil)
  }

  ghost predicate PassInv<T>(p: Pass<T>, all: seq<T>, hit: set<T>, nil: T)
  {
    && Distinct(all) && nil !in Nodes(all) && p.m.Keys == Nodes(all)
    && SplitInv(p, all, hit) && LinkInv(p, nil)
  }

  function PassNext<T(==)>(p: Pass<T>, hit: set<T>, nil: T): Pass<T>
    requires p.rest != [] && p.cur in p.m
  {
    var next := p.m[p.cur];
    var p' := p.(cur := next, done := p.done + [p.cur], rest := p.rest[1..]);
    if p.cur in hit then
      p'.(m := (if p.prev == nil then p.m else p.m[p.prev := next])[p.cur := p.top],
          head := if p.prev == nil then next else p.head,
          top := p.cur, taken := [p.cur] + p.taken)
    else
      p'.(prev := p.cur, kept := p.kept + [p.cur])
  }

  lemma PassFacts<T>(p: Pass<T>, all: seq<T>, hit: set<T>, nil: T)
    requires PassInv(p, all, hit, nil) && p.rest != []
    ensures Distinct(p.kept) && p.cur == p.rest[0] && p.cur in p.m && p.cur != nil
    ensures p.cur !in Nodes(p.kept) && p.cur !in Nodes(p.taken) && p.cur !in Nodes(p.rest[1..])
    ensures p.kept == [] <==> p.prev == nil
    ensures p.prev != nil ==> p.prev in p.m
    ensures p.kept != [] ==> p.prev !in Nodes(p.taken) && p.prev !in Nodes(p.rest[1..])
  {
    DistinctConcat(p.done, p.rest);
    NodesConcat(p.done, p.rest);
    PartsDistinct(p.done, hit);
    PartMembers(p.done, hit);
    if p.kept != [] {
      var front, x := Unsnoc(p.kept);
      NodesSnoc(front, x);
    }
  }

  lemma StepSplits<T>(p: Pass<T>, all: seq<T>, hit: set<T>, nil: T)
    requires SplitInv(p, all, hit) && p.rest != [] && p.cur in p.m && p.cur == p.rest[0]
    ensures SplitInv(PassNext(p, hit, nil), all, hit)
  {
    Shift(p.done, p.rest);
    PartsSnoc(p.done, p.cur, hit);
    NothingLeft(p.kept);
    NothingLeft(p.taken);
  }

  lemma StepLinks<T>(p: Pass<T>, hit: set<T>, nil: T)
    requires LinkInv(p, nil) && p.rest != [] && p.cur in p.m && p.cur == p.rest[0] && p.cur != nil
    requires Distinct(p.kept) && (p.kept == [] <==> p.prev == nil)
    requires p.cur !in Nodes(p.kept) && p.cur !in Nodes(p.taken) && p.cur !in Nodes(p.rest[1..])
    requires p.kept != [] ==> p.prev !in Nodes(p.taken) && p.prev !in Nodes(p.rest[1..])
    ensures LinkInv(PassNext(p, hit, nil), nil)
  {
    if p.cur in hit {
      MovedChains(p.m, p.head, p.kept, p.cur, p.rest[1..], p.top, p.taken, nil);
    } else {
      ChainSnoc(p.m, p.head, p.kept, p.cur);
    }
  }

  lemma StepKeys<T>(p: Pass<T>, hit: set<T>, nil: T)
    requires p.rest != [] && p.cur in p.m && (p.prev != nil ==> p.prev in p.m)
    ensures PassNext(p, hit, nil).m.Keys == p.m.Keys
  {
  }

  // One turn of the loop keeps the invariant.
  lemma PassStep<T>(p: Pass<T>, all: seq<T>, hit: set<T>, nil: T)
    requires PassInv(p, all, hit, nil) && p.rest != []
    ensures p.cur in p.m && p.cur != nil && (p.prev != nil ==> p.prev in p.m)
    ensures PassInv(PassNext(p, hit, nil), all, hit, nil)
  {
    PassFacts(p, all, hit, nil);
    StepSplits(p, all, hit, nil);
    StepLinks(p, hit, nil);
    StepKeys(p, hit, nil);
  }

  // At the end of the loop the whole list is split up.
  lemma PassEnd<T>(p: Pass<T>, all: seq<T>, hit: set<T>, nil: T)
    requires PassInv(p, all, hit, nil) && p.cur == nil
    ensures Chain(p.m, p.head, Kept(all, hit), nil) && Chain(p.m, p.top, Taken(all, hit), nil)
    ensures Nodes(p.taken) == Nodes(all) * hit && p.m.Keys == Nodes(all)
  {
    NodesConcat(p.done, p.rest);
    ChainHead(p.m, p.cur, p.rest, nil);
    NothingLeft(p.done);
    PartMembers(all, hit);
  }
}
