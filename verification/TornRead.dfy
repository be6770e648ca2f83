/**
 The ring at the granularity of single loads and stores. The producer and one listener interleave
 freely; each byte of a memcpy is a step of its own and the bytes may be copied in any order. Atomic
 operations are sequentially consistent steps in program order.

 The listener compares the slot number before it copies and never after, so the number check alone
 does not make the copy safe. What does is a margin, and this module finds it exactly.
 */
module TornRead {
  import opened Ring

  datatype Config = Config(ringSize: nat, maxLag: nat, bytes: nat, samples: nat)
  {
    predicate Good() { ringSize >= 1 && maxLag >= 1 && bytes <= MAX_FRAME_BYTES }
  }

  predicate Shaped(c: Config, f: Frame) { |f.data| == c.bytes && f.samples == c.samples }

  // One ring slot as separate memory cells.
  datatype Cell = Cell(number: nat, datalen: nat, samples: nat, silence: bool, data: seq<byte>)

  // Program counter of the producer inside one publish; each state names its next store.
  datatype Producer =
    | Ready
    | StoreLen(f: Frame)
    | StoreSamples(f: Frame)
    | StoreSilence(f: Frame)
    | StoreData(f: Frame, done: set<nat>)
    | StoreNumber(f: Frame)
    | StoreSeq(f: Frame)

  datatype Result = Stale | Played(data: seq<byte>, samples: nat)

  // Program counter of the listener inside one tick; each state names its next load. `p0` is the
  // loaded producer_seq and `cur` the cursor after the lag snap.
  datatype Reader =
    | LoadSeq
    | LoadNumber(p0: nat, cur: nat)
    | LoadLen(p0: nat, cur: nat)
    | LoadData(p0: nat, cur: nat, len: nat, buf: seq<byte>, done: set<nat>)
    | LoadLenAgain(p0: nat, cur: nat, buf: seq<byte>)
    | LoadSamples(p0: nat, cur: nat, buf: seq<byte>, datalen: nat)
    | Finished(p0: nat, cur: nat, pEnd: nat, result: Result)

  datatype State = State(ring: seq<Cell>, pseq: nat, log: seq<Frame>, prod: Producer, rd: Reader, cursor: nat)

  datatype Action =
    | Begin(f: Frame)  // the producer has its next frame ready
    | Store            // its next single store
    | StoreByte(k: nat)
    | Join(at: nat)    // a listener starts here, possibly rewound
    | Load             // the listener's next single load, or the end of its tick
    | LoadByte(k: nat)

  function Indices(n: nat): (s: set<nat>)
    ensures forall k: nat :: k in s <==> k < n
  {
    if n == 0 then {} else Indices(n - 1) + {n - 1}
  }

  function Init(c: Config): State
  {
    State(seq(c.ringSize, _ => Cell(0, 0, 0, false, Zeros(MAX_FRAME_BYTES))), 0, [], Ready, LoadSeq, 0)
  }

  predicate Sized(c: Config, s: State)
  {
    |s.ring| == c.ringSize && forall j :: 0 <= j < |s.ring| ==> |s.ring[j].data| == MAX_FRAME_BYTES
  }

  // Slot the producer is filling, and slot the listener is reading.
  function ProdSlot(c: Config, s: State): (j: nat)
    requires c.Good()
    ensures j < c.ringSize
  {
    s.pseq % c.ringSize
  }

  function ReadCell(c: Config, s: State): Cell
    requires c.Good() && Sized(c, s) && !s.rd.LoadSeq?
  {
    s.ring[s.rd.cur % c.ringSize]
  }

  predicate Enabled(c: Config, s: State, a: Action)
  {
    c.Good() && Sized(c, s) &&
    match a
    case Begin(f) => s.prod.Ready? && Shaped(c, f)
    case Store => !s.prod.Ready? && (s.prod.StoreData? ==> s.prod.done == Indices(c.bytes))
    case StoreByte(k) => s.prod.StoreData? && k < c.bytes && |s.prod.f.data| == c.bytes && k !in s.prod.done
    case Join(at) => s.rd.LoadSeq? && at <= s.pseq
    case Load => s.rd.LoadData? ==> s.rd.done == Indices(s.rd.len)
    case LoadByte(k) =>
      s.rd.LoadData? && k < s.rd.len <= MAX_FRAME_BYTES && |s.rd.buf| == MAX_FRAME_BYTES && k !in s.rd.done
  }

  function DoStore(c: Config, s: State): State
    requires Enabled(c, s, Store)
  {
    var j := ProdSlot(c, s);
    var cell := s.ring[j];
    match s.prod
    case StoreLen(f) => s.(ring := s.ring[j := cell.(datalen := |f.data|)], prod := StoreSamples(f))
    case StoreSamples(f) => s.(ring := s.ring[j := cell.(samples := f.samples)], prod := StoreSilence(f))
    case StoreSilence(f) => s.(ring := s.ring[j := cell.(silence := f.silence)], prod := StoreData(f, {}))
    case StoreData(f, _) => s.(prod := StoreNumber(f))
    case StoreNumber(f) => s.(ring := s.ring[j := cell.(number := s.pseq)], prod := StoreSeq(f))
    case StoreSeq(f) => s.(pseq := s.pseq + 1, log := s.log + [f], prod := Ready)
  }

  function DoLoad(c: Config, s: State): State
    requires Enabled(c, s, Load)
  {
    match s.rd
    case LoadSeq =>
      if s.cursor < s.pseq then
        s.(rd := LoadNumber(s.pseq, if s.pseq - s.cursor > c.maxLag then s.pseq - 1 else s.cursor))
      else s
    case LoadNumber(p0, cur) =>
      s.(rd := if ReadCell(c, s).number == cur then LoadLen(p0, cur) else Finished(p0, cur, s.pseq, Stale))
    case LoadLen(p0, cur) => s.(rd := LoadData(p0, cur, ReadCell(c, s).datalen, Zeros(MAX_FRAME_BYTES), {}))
    case LoadData(p0, cur, _, buf, _) => s.(rd := LoadLenAgain(p0, cur, buf))
    case LoadLenAgain(p0, cur, buf) => s.(rd := LoadSamples(p0, cur, buf, ReadCell(c, s).datalen))
    case LoadSamples(p0, cur, buf, datalen) =>
      var data := if datalen <= |buf| then buf[..datalen] else buf;
      s.(rd := Finished(p0, cur, s.pseq, Played(data, ReadCell(c, s).samples)))
    case Finished(p0, cur, _, result) =>
      s.(rd := LoadSeq, cursor := if result.Stale? then p0 else cur + 1)
  }

  function Apply(c: Config, s: State, a: Action): State
    requires Enabled(c, s, a)
  {
    match a
    case Begin(f) => s.(prod := StoreLen(f))
    case Store => DoStore(c, s)
    case StoreByte(k) =>
      var j := ProdSlot(c, s);
      var cell := s.ring[j];
      s.(ring := s.ring[j := cell.(data := cell.data[k := s.prod.f.data[k]])],
         prod := s.prod.(done := s.prod.done + {k}))
    case Join(at) => s.(cursor := at)
    case Load => DoLoad(c, s)
    case LoadByte(k) =>
      s.(rd := s.rd.(buf := s.rd.buf[k := ReadCell(c, s).data[k]], done := s.rd.done + {k}))
  }

  // A schedule is a list of actions, each enabled when its turn comes.
  predicate Legal(c: Config, s: State, acts: seq<Action>)
    decreases |acts|
  {
    acts == [] || (Enabled(c, s, acts[0]) && Legal(c, Apply(c, s, acts[0]), acts[1..]))
  }

  function Exec(c: Config, s: State, acts: seq<Action>): State
    requires Legal(c, s, acts)
    decreases |acts|
  {
    if acts == [] then s else Exec(c, Apply(c, s, acts[0]), acts[1..])
  }

  // ---------------------------------------------------------------- what every step keeps

  // The cell holds exactly frame number i.
  ghost predicate Carries(c: Config, cell: Cell, i: nat, f: Frame)
  {
    && cell.number == i && cell.datalen == c.bytes && cell.samples == c.samples && cell.silence == f.silence
    && |cell.data| == MAX_FRAME_BYTES
    && (forall k :: 0 <= k < |f.data| && k < MAX_FRAME_BYTES ==> cell.data[k] == f.data[k])
  }

  // Frame i is published and its slot is not the one being overwritten.
  predicate Intact(c: Config, s: State, i: nat)
  {
    i < s.pseq && s.pseq - i <= c.ringSize && (s.prod.Ready? || s.pseq - i < c.ringSize)
  }

  ghost predicate RingInv(c: Config, s: State)
  {
    && c.Good() && Sized(c, s) && s.pseq == |s.log|
    && (forall i {:trigger s.log[i]} :: 0 <= i < |s.log| ==> Shaped(c, s.log[i]))
    && (forall i: nat {:trigger Intact(c, s, i)} :: Intact(c, s, i) ==> Carries(c, s.ring[i % c.ringSize], i, s.log[i]))
  }

  ghost predicate ProdInv(c: Config, s: State)
    requires c.Good() && Sized(c, s)
  {
    var cell := s.ring[ProdSlot(c, s)];
    match s.prod
    case Ready => true
    case StoreLen(f) => Shaped(c, f)
    case StoreSamples(f) => Shaped(c, f) && cell.datalen == c.bytes
    case StoreSilence(f) => Shaped(c, f) && cell.datalen == c.bytes && cell.samples == c.samples
    case StoreData(f, done) =>
      && Shaped(c, f) && cell.datalen == c.bytes && cell.samples == c.samples && cell.silence == f.silence
      && (forall k :: k in done ==> k < c.bytes && cell.data[k] == f.data[k])
    case StoreNumber(f) =>
      && Shaped(c, f) && cell.datalen == c.bytes && cell.samples == c.samples && cell.silence == f.silence
      && (forall k :: 0 <= k < c.bytes ==> cell.data[k] == f.data[k])
    case StoreSeq(f) =>
      && Shaped(c, f) && Carries(c, cell, s.pseq, f)
  }

  // The producer is fewer than ringSize frames past the one being read. Numbers only grow, so if
  // this holds now it held at every earlier load of the same tick.
  predicate InMargin(c: Config, cur: nat, pseq: nat) { pseq < cur + c.ringSize }

  ghost predicate ReadInv(c: Config, s: State)
  {
    s.rd.LoadSeq? ||
    (&& s.rd.cur < s.rd.p0 <= s.pseq && s.rd.p0 - s.rd.cur <= c.maxLag
     && (s.rd.LoadData? ==> |s.rd.buf| == MAX_FRAME_BYTES)
     && (s.rd.LoadLenAgain? || s.rd.LoadSamples? ==> |s.rd.buf| == MAX_FRAME_BYTES)
     && (s.rd.Finished? ==> s.rd.p0 <= s.rd.pEnd <= s.pseq)
     && (InMargin(c, s.rd.cur, if s.rd.Finished? then s.rd.pEnd else s.pseq) && s.rd.cur < |s.log| ==>
           ReadRight(c, s.rd, s.log[s.rd.cur])))
  }

  // What has been read so far is frame f.
  ghost predicate ReadRight(c: Config, rd: Reader, f: Frame)
    requires !rd.LoadSeq?
  {
    match rd
    case LoadNumber(_, _) => true
    case LoadLen(_, _) => true
    case LoadData(_, _, len, buf, done) =>
      len == c.bytes && forall k :: k in done ==> k < |buf| && k < |f.data| && buf[k] == f.data[k]
    case LoadLenAgain(_, _, buf) =>
      |f.data| <= |buf| && forall k :: 0 <= k < |f.data| ==> buf[k] == f.data[k]
    case LoadSamples(_, _, buf, datalen) =>
      datalen == |f.data| <= |buf| && forall k :: 0 <= k < |f.data| ==> buf[k] == f.data[k]
    case Finished(_, _, _, result) => result == Played(f.data, f.samples)
  }

  ghost predicate Inv(c: Config, s: State)
  {
    RingInv(c, s) && ProdInv(c, s) && ReadInv(c, s)
  }

  lemma InitInv(c: Config)
    requires c.Good()
    ensures Inv(c, Init(c))
  {
  }

  // A write into the producer's slot leaves every intact slot alone.
  lemma OtherSlots(c: Config, s: State, i: nat)
    requires c.Good() && Sized(c, s) && !s.prod.Ready? && Intact(c, s, i)
    ensures i % c.ringSize != ProdSlot(c, s)
  {
    if i % c.ringSize == s.pseq % c.ringSize { SameSlot(i, s.pseq, c.ringSize); }
  }

  // While the producer stays within the margin, the listener's slot is intact.
  lemma MarginIntact(c: Config, s: State)
    requires RingInv(c, s) && ReadInv(c, s) && !s.rd.LoadSeq? && InMargin(c, s.rd.cur, s.pseq)
    ensures Intact(c, s, s.rd.cur) && Carries(c, ReadCell(c, s), s.rd.cur, s.log[s.rd.cur])
    ensures Shaped(c, s.log[s.rd.cur])
  {
    assert Intact(c, s, s.rd.cur);
  }

  lemma StoreKeepsRing(c: Config, s: State, a: Action)
    requires Inv(c, s) && Enabled(c, s, a) && (a.Store? || a.StoreByte?)
    ensures RingInv(c, Apply(c, s, a))
  {
    var s' := Apply(c, s, a);
    forall i: nat {:trigger Intact(c, s', i)} | Intact(c, s', i)
      ensures Carries(c, s'.ring[i % c.ringSize], i, s'.log[i])
    {
      if i < s.pseq {
        assert Intact(c, s, i);
        OtherSlots(c, s, i);
      }
    }
  }

  lemma StoreKeepsProd(c: Config, s: State, a: Action)
    requires Inv(c, s) && Enabled(c, s, a) && (a.Store? || a.StoreByte?)
    ensures ProdInv(c, Apply(c, s, a))
  {
  }

  lemma ReaderSeesStores(c: Config, s: State, a: Action)
    requires Inv(c, s) && Enabled(c, s, a) && !a.Load? && !a.LoadByte?
    ensures ReadInv(c, Apply(c, s, a))
  {
    var s' := Apply(c, s, a);
    if !s.rd.LoadSeq? {
      assert s'.log[s.rd.cur] == s.log[s.rd.cur];
    }
  }

  lemma LoadKeepsRead(c: Config, s: State, a: Action)
    requires Inv(c, s) && Enabled(c, s, a) && (a.Load? || a.LoadByte?)
    ensures ReadInv(c, Apply(c, s, a))
  {
    if !s.rd.LoadSeq? && !s.rd.Finished? && InMargin(c, s.rd.cur, s.pseq) {
      MarginIntact(c, s);
    }
  }

  lemma StepInv(c: Config, s: State, a: Action)
    requires Inv(c, s) && Enabled(c, s, a)
    ensures Inv(c, Apply(c, s, a))
  {
    match a
    case Begin(f) =>
      var s' := Apply(c, s, a);
      forall i: nat {:trigger Intact(c, s', i)} | Intact(c, s', i)
        ensures Carries(c, s'.ring[i % c.ringSize], i, s'.log[i])
      { assert Intact(c, s, i); }
      ReaderSeesStores(c, s, a);
    case Store => StoreKeepsRing(c, s, a); StoreKeepsProd(c, s, a); ReaderSeesStores(c, s, a);
    case StoreByte(k) => StoreKeepsRing(c, s, a); StoreKeepsProd(c, s, a); ReaderSeesStores(c, s, a);
    case Join(at) => ReaderSeesStores(c, s, a); ReadersOnly(c, s, a);
    case Load => LoadKeepsRead(c, s, a); ReadersOnly(c, s, a);
    case LoadByte(k) => LoadKeepsRead(c, s, a); ReadersOnly(c, s, a);
  }

  lemma ReadersOnly(c: Config, s: State, a: Action)
    requires Inv(c, s) && Enabled(c, s, a) && (a.Join? || a.Load? || a.LoadByte?)
    ensures RingInv(c, Apply(c, s, a)) && ProdInv(c, Apply(c, s, a))
  {
    var s' := Apply(c, s, a);
    assert s'.ring == s.ring && s'.pseq == s.pseq && s'.log == s.log && s'.prod == s.prod;
    forall i: nat {:trigger Intact(c, s', i)} | Intact(c, s', i)
      ensures Carries(c, s'.ring[i % c.ringSize], i, s'.log[i])
    { assert Intact(c, s, i); }
  }

  lemma {:induction false} ExecInv(c: Config, s: State, acts: seq<Action>)
    requires Inv(c, s) && Legal(c, s, acts)
    ensures Inv(c, Exec(c, s, acts))
    decreases |acts|
  {
    if acts != [] {
      StepInv(c, s, acts[0]);
      ExecInv(c, Apply(c, s, acts[0]), acts[1..]);
    }
  }

  // ---------------------------------------------------------------- the bound, and why it is tight

  // The tick ended by handing over the very frame published under its number.
  ghost predicate ReadsItsFrame(s: State)
    requires s.rd.Finished?
  {
    s.rd.cur < |s.log| && s.rd.result == Played(s.log[s.rd.cur].data, s.log[s.rd.cur].samples)
  }

  // In every schedule, a tick during which at most `budget` frames were published, from its load of
  // producer_seq to its last load of the slot, hands over its own frame.
  ghost predicate SafeWithin(c: Config, budget: nat)
  {
    forall acts {:trigger Legal(c, Init(c), acts)} :: Legal(c, Init(c), acts) ==>
      var s := Exec(c, Init(c), acts);
      s.rd.Finished? && s.rd.pEnd - s.rd.p0 <= budget ==> ReadsItsFrame(s)
  }

  // Fewer than ringSize - lag publishes during the tick cannot tear it, whatever the interleaving.
  lemma NoTear(c: Config, acts: seq<Action>)
    requires c.Good() && Legal(c, Init(c), acts)
    ensures var s := Exec(c, Init(c), acts);
            s.rd.Finished? && s.rd.pEnd - s.rd.p0 < c.ringSize - (s.rd.p0 - s.rd.cur) ==> ReadsItsFrame(s)
  {
    InitInv(c);
    ExecInv(c, Init(c), acts);
  }

  lemma ExecConcat(c: Config, s: State, a1: seq<Action>, a2: seq<Action>)
    requires Legal(c, s, a1) && Legal(c, Exec(c, s, a1), a2)
    ensures Legal(c, s, a1 + a2) && Exec(c, s, a1 + a2) == Exec(c, Exec(c, s, a1), a2)
    decreases |a1|
  {
    if a1 == [] {
      assert a1 + a2 == a2;
    } else {
      ExecConcat(c, Apply(c, s, a1[0]), a1[1..], a2);
      assert (a1 + a2)[1..] == a1[1..] + a2;
    }
  }

  lemma ExecSnoc(c: Config, s: State, acts: seq<Action>, a: Action)
    requires Legal(c, s, acts) && Enabled(c, Exec(c, s, acts), a)
    ensures Legal(c, s, acts + [a]) && Exec(c, s, acts + [a]) == Apply(c, Exec(c, s, acts), a)
  {
    var t := Exec(c, s, acts);
    assert [a][1..] == [];
    assert Legal(c, Apply(c, t, a), [a][1..]);
    assert Legal(c, t, [a]) && Exec(c, t, [a]) == Apply(c, t, a);
    ExecConcat(c, s, acts, [a]);
  }

  // The producer starts a publish and copies its first `n` bytes.
  lemma {:induction false} Fill(c: Config, s: State, f: Frame, n: nat) returns (acts: seq<Action>)
    requires c.Good() && Sized(c, s) && s.prod.Ready? && Shaped(c, f) && n <= c.bytes
    ensures Legal(c, s, acts)
    ensures var t := Exec(c, s, acts);
            && t.prod == StoreData(f, Indices(n)) && Sized(c, t)
            && t.pseq == s.pseq && t.log == s.log && t.rd == s.rd && t.cursor == s.cursor
  {
    if n == 0 {
      acts := [];
      acts := Extend(c, s, acts, Begin(f));
      acts := Extend(c, s, acts, Store);
      acts := Extend(c, s, acts, Store);
      acts := Extend(c, s, acts, Store);
      assert Indices(0) == {};
    } else {
      acts := Fill(c, s, f, n - 1);
      acts := Extend(c, s, acts, StoreByte(n - 1));
      assert Indices(n - 1) + {n - 1} == Indices(n);
    }
  }

  lemma Extend(c: Config, s: State, acts: seq<Action>, a: Action) returns (acts': seq<Action>)
    requires Legal(c, s, acts) && Enabled(c, Exec(c, s, acts), a)
    ensures Legal(c, s, acts') && Exec(c, s, acts') == Apply(c, Exec(c, s, acts), a)
  {
    ExecSnoc(c, s, acts, a);
    acts' := acts + [a];
  }

  // `n` whole publishes of the same frame.
  lemma {:induction false} PublishMany(c: Config, s: State, f: Frame, n: nat) returns (acts: seq<Action>)
    requires c.Good() && Sized(c, s) && s.prod.Ready? && Shaped(c, f)
    ensures Legal(c, s, acts)
    ensures var t := Exec(c, s, acts);
            && t.prod.Ready? && Sized(c, t) && t.pseq == s.pseq + n && t.rd == s.rd && t.cursor == s.cursor
            && |t.log| == |s.log| + n && s.log <= t.log
            && (forall i :: |s.log| <= i < |t.log| ==> t.log[i] == f)
  {
    if n == 0 {
      acts := [];
    } else {
      var first := PublishMany(c, s, f, n - 1);
      var t := Exec(c, s, first);
      var last := Fill(c, t, f, c.bytes);
      last := Extend(c, t, last, Store);
      last := Extend(c, t, last, Store);
      last := Extend(c, t, last, Store);
      ExecConcat(c, s, first, last);
      acts := first + last;
    }
  }

  // The listener copies the first `n` bytes of its slot.
  lemma {:induction false} CopyOut(c: Config, s: State, n: nat) returns (acts: seq<Action>)
    requires c.Good() && Sized(c, s) && s.rd.LoadData? && s.rd.done == {} && |s.rd.buf| == MAX_FRAME_BYTES
    requires n <= s.rd.len <= MAX_FRAME_BYTES
    ensures Legal(c, s, acts)
    ensures var t := Exec(c, s, acts);
            && t == s.(rd := t.rd) && t.rd.LoadData?
            && t.rd == s.rd.(buf := t.rd.buf, done := Indices(n)) && |t.rd.buf| == MAX_FRAME_BYTES
            && (n > 0 ==> t.rd.buf[0] == ReadCell(c, s).data[0])
  {
    if n == 0 {
      acts := [];
      assert Indices(0) == {};
    } else {
      acts := CopyOut(c, s, n - 1);
      acts := Extend(c, s, acts, LoadByte(n - 1));
      assert Indices(n - 1) + {n - 1} == Indices(n);
    }
  }

  function Plain(c: Config, b: byte): (f: Frame)
    ensures Shaped(c, f)
  {
    Frame(seq(c.bytes, _ => b), c.samples, false)
  }

  // First leg of the tearing schedule: the producer gets as far ahead as the listener may lag, and
  // the listener passes its number check and loads the length.
  lemma LagBehind(c: Config, lag: nat) returns (acts: seq<Action>)
    requires c.Good() && 1 <= lag <= c.maxLag && lag <= c.ringSize
    ensures Legal(c, Init(c), acts)
    ensures var s := Exec(c, Init(c), acts);
            && s.rd == LoadData(lag, 0, c.bytes, Zeros(MAX_FRAME_BYTES), {})
            && s.prod.Ready? && Sized(c, s) && s.pseq == lag == |s.log| && s.log[0] == Plain(c, 0)
  {
    var s0 := Init(c);
    InitInv(c);
    acts := PublishMany(c, s0, Plain(c, 0), lag);
    acts := Extend(c, s0, acts, Load);
    ExecInv(c, s0, acts);
    assert Intact(c, Exec(c, s0, acts), 0);
    ZeroSlot(c.ringSize);
    acts := Extend(c, s0, acts, Load);
    acts := Extend(c, s0, acts, Load);
  }

  lemma ZeroSlot(n: nat)
    requires n > 0
    ensures 0 % n == 0 && n % n == 0
  {
  }

  // Second leg: the producer comes round to slot 0 and overwrites its first byte.
  lemma ComeRound(c: Config, s: State) returns (acts: seq<Action>)
    requires Inv(c, s) && c.bytes >= 1 && s.rd.LoadData? && s.prod.Ready? && s.pseq <= c.ringSize
    ensures Legal(c, s, acts)
    ensures var t := Exec(c, s, acts);
            && Sized(c, t) && t.rd == s.rd && t.pseq == c.ringSize && s.log <= t.log
            && t.ring[0].data[0] == 1 && t.ring[0].datalen == c.bytes
  {
    acts := PublishMany(c, s, Plain(c, 0), c.ringSize - s.pseq);
    var mid := Exec(c, s, acts);
    var more := Fill(c, mid, Plain(c, 1), 1);
    ExecConcat(c, s, acts, more);
    acts := acts + more;
    ExecInv(c, s, acts);
    ZeroSlot(c.ringSize);
    assert 0 in Indices(1);
  }

  // Last leg: the listener copies, loads length and samples, and is done.
  lemma CopyTorn(c: Config, s: State) returns (acts: seq<Action>)
    requires c.Good() && Sized(c, s) && c.bytes >= 1
    requires s.rd.LoadData? && s.rd.len == c.bytes && s.rd.done == {} && |s.rd.buf| == MAX_FRAME_BYTES
    requires s.rd.cur == 0 && s.ring[0].data[0] == 1 && s.ring[0].datalen == c.bytes
    ensures Legal(c, s, acts)
    ensures var t := Exec(c, s, acts);
            && t.log == s.log && t.rd.Finished? && t.rd.p0 == s.rd.p0 && t.rd.cur == 0 && t.rd.pEnd == s.pseq
            && t.rd.result.Played? && t.rd.result.data != [] && t.rd.result.data[0] == 1
  {
    ZeroSlot(c.ringSize);
    acts := CopyOut(c, s, c.bytes);
    acts := Extend(c, s, acts, Load);
    acts := Extend(c, s, acts, Load);
    acts := Extend(c, s, acts, Load);
  }

  // The tearing schedule: a listener lags as far as it may, the producer publishes just enough to
  // come round to its slot and overwrites one byte of it while the listener is about to copy.
  lemma Tear(c: Config) returns (acts: seq<Action>)
    requires c.Good() && c.bytes >= 1
    ensures Legal(c, Init(c), acts)
    ensures var s := Exec(c, Init(c), acts);
            && s.rd.Finished? && !ReadsItsFrame(s)
            && s.rd.pEnd - s.rd.p0 == if c.maxLag < c.ringSize then c.ringSize - c.maxLag else 0
  {
    var s0 := Init(c);
    InitInv(c);
    acts := LagBehind(c, if c.maxLag < c.ringSize then c.maxLag else c.ringSize);
    ExecInv(c, s0, acts);
    var more := ComeRound(c, Exec(c, s0, acts));
    ExecConcat(c, s0, acts, more);
    acts := acts + more;
    more := CopyTorn(c, Exec(c, s0, acts));
    ExecConcat(c, s0, acts, more);
    acts := acts + more;
  }

  // The torn-read bound, exactly: a tick is safe within a budget of publishes if and only if the
  // budget is below ringSize - maxLag.
  lemma TornReadBound(c: Config, budget: nat)
    requires c.Good() && c.bytes >= 1
    ensures SafeWithin(c, budget) <==> budget + c.maxLag < c.ringSize
  {
    if budget + c.maxLag < c.ringSize {
      forall acts {:trigger Legal(c, Init(c), acts)} | Legal(c, Init(c), acts)
        ensures var s := Exec(c, Init(c), acts);
                s.rd.Finished? && s.rd.pEnd - s.rd.p0 <= budget ==> ReadsItsFrame(s)
      {
        NoTear(c, acts);
        InitInv(c);
        ExecInv(c, Init(c), acts);
      }
    } else {
      var acts := Tear(c);
      assert Legal(c, Init(c), acts);
    }
  }
}
