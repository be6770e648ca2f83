/**
 The talk/silence detector on a speaker's input and the energy threshold its owner may move.
 */
module TalkDetector {
  import opened Options
  import Ring

  type Sample = x: int | -32768 <= x < 32768

  const WRAP: nat := 0x1_0000_0000

  function Abs(x: int): (r: nat)
    ensures r == x || r == -x
  {
    if x < 0 then -x else x
  }

  function Loudness(data: seq<Sample>): nat
  {
    if data == [] then 0 else Loudness(data[..|data| - 1]) + Abs(data[|data| - 1])
  }

  lemma {:induction false} LoudnessBound(data: seq<Sample>)
    ensures Loudness(data) <= 32768 * |data|
  {
    if data != [] { LoudnessBound(data[..|data| - 1]); }
  }

  function Mean(sum: nat, n: nat): nat { if n > 0 then sum / n else 0 }

  method SumAbs(data: seq<Sample>) returns (e: nat)
    ensures e == Loudness(data) % WRAP
  {
    e := 0;
    for i := 0 to |data|
      invariant e == Loudness(data[..i]) % WRAP
    {
      LoudnessSnoc(data, i);
      AddWrap(Loudness(data[..i]), Abs(data[i]));
      e := (e + Abs(data[i])) % WRAP;
    }
    assert data[..|data|] == data;
  }

  // Mean absolute sample value, summed in 32 bits. Up to 131071 samples the sum cannot wrap.
  method Score(data: seq<Sample>) returns (score: nat)
    ensures score == Mean(Loudness(data) % WRAP, |data|)
    ensures |data| <= 131071 ==> score == Mean(Loudness(data), |data|) <= 32768
    ensures data == [] ==> score == 0
    ensures 0 < |data| <= 131071 ==> score * |data| <= Loudness(data) < (score + 1) * |data|
  {
    var e := SumAbs(data);
    score := Mean(e, |data|);
    ScoreIsMean(data);
  }

  lemma ScoreIsMean(data: seq<Sample>)
    ensures |data| <= 131071 ==>
              Loudness(data) % WRAP == Loudness(data) && Mean(Loudness(data), |data|) <= 32768
    ensures var score := Mean(Loudness(data), |data|);
            if data == [] then score == 0 else score * |data| <= Loudness(data) < (score + 1) * |data|
  {
    LoudnessBound(data);
    if 0 < |data| {
      Floor(Loudness(data), |data|);
      if |data| <= 131071 { DivBound(Loudness(data), |data|, 32768); }
    }
  }

  lemma Floor(a: nat, n: nat)
    requires n > 0
    ensures a / n * n <= a < (a / n + 1) * n
  {
    var q := a / n;
    assert a == q * n + a % n;
    assert (q + 1) * n == q * n + n;
  }

  lemma LoudnessSnoc(data: seq<Sample>, i: nat)
    requires i < |data|
    ensures Loudness(data[..i + 1]) == Loudness(data[..i]) + Abs(data[i])
  {
    assert data[..i + 1][..i] == data[..i];
  }

  lemma AddWrap(a: nat, b: nat)
    ensures (a % WRAP + b) % WRAP == (a + b) % WRAP
  {
  }

  lemma DivBound(a: nat, n: nat, m: nat)
    requires n > 0 && a <= m * n
    ensures a / n <= m
  {
    var q := a / n;
    assert a == q * n + a % n;
    Ring.MultipleBound(q - m, n);
    assert (q - m) * n == q * n - m * n;
  }

  // ---------------------------------------------------------------- the detector

  // One scored frame: its score, the threshold at that moment and the clock.
  datatype Scored = Scored(score: nat, threshold: nat, now: int)

  predicate Loud(f: Scored) { f.score > f.threshold }

  datatype Note = Talking | Silent

  // `silentSince` is zero when the last frame was loud.
  datatype Detector = Detector(talking: bool, silentSince: int)

  function Hear(d: Detector, f: Scored, windowMs: nat): (Detector, Option<Note>)
  {
    if Loud(f) then
      (Detector(true, 0), if d.talking then None else Some(Talking))
    else
      var since := if d.silentSince == 0 then f.now else d.silentSince;
      if d.talking && f.now - since > windowMs * 1000 then
        (Detector(false, since), Some(Silent))
      else
        (Detector(d.talking, since), None)
  }

  // The member's fields as the input thread updates them.
  class SpeakerMeter {
    var talking: bool
    var silentSince: int
    var lastScore: nat
    var threshold: nat

    ghost function Content(): Detector
      reads this
    {
      Detector(talking, silentSince)
    }

    constructor ()
      ensures Content() == Detector(false, 0) && threshold == 500 && GoodThreshold(threshold)
    {
      talking, silentSince, lastScore, threshold := false, 0, 0, 500;
    }

    method OnFrame(data: seq<Sample>, windowMs: nat, now: int) returns (note: Option<Note>)
      modifies this`talking, this`silentSince, this`lastScore
      ensures (Content(), note) == Hear(old(Content()), Scored(lastScore, threshold, now), windowMs)
      ensures |data| <= 131071 ==> lastScore == Mean(Loudness(data), |data|)
    {
      note := None;
      lastScore := Score(data);
      if lastScore > threshold {
        if !talking {
          talking := true;
          note := Some(Talking);
        }
        silentSince := 0;
      } else {
        if silentSince == 0 {
          silentSince := now;
        }
        if talking && now - silentSince > windowMs * 1000 {
          talking := false;
          note := Some(Silent);
        }
      }
    }

    // The energy-up key makes the detector more sensitive, energy-down less, in steps of 50.
    method EnergyKey(up: bool)
      requires GoodThreshold(threshold)
      modifies this`threshold
      ensures GoodThreshold(threshold) && threshold == Press(old(threshold), up)
      ensures threshold == if up && old(threshold) > 100 then old(threshold) - 50
                           else if !up && old(threshold) < 5000 then old(threshold) + 50
                           else old(threshold)
    {
      if up {
        if threshold > 100 {
          threshold := threshold - 50;
        }
      } else {
        if threshold < 5000 {
          threshold := threshold + 50;
        }
      }
    }
  }

  predicate GoodThreshold(t: nat) { t % 50 == 0 && 100 <= t <= 5000 }

  // ---------------------------------------------------------------- whole runs

  function After(fs: seq<Scored>, windowMs: nat): Detector
  {
    if fs == [] then Detector(false, 0) else Hear(After(fs[..|fs| - 1], windowMs), fs[|fs| - 1], windowMs).0
  }

  // Notifications sent, each with the index of the frame that caused it.
  function Notes(fs: seq<Scored>, windowMs: nat): seq<(nat, Note)>
  {
    if fs == [] then []
    else
      var front := fs[..|fs| - 1];
      var n := Hear(After(front, windowMs), fs[|fs| - 1], windowMs).1;
      Notes(front, windowMs) + (if n.Some? then [(|front|, n.value)] else [])
  }

  // Frames j..k are all at or below their threshold, and no earlier frame can be added in front.
  ghost predicate QuietRun(fs: seq<Scored>, j: nat, k: nat)
  {
    && j <= k < |fs| && (forall i :: j <= i <= k ==> fs[i].score <= fs[i].threshold)
    && (j > 0 ==> fs[j - 1].score > fs[j - 1].threshold)
  }

  ghost predicate PositiveClock(fs: seq<Scored>)
  {
    forall i :: 0 <= i < |fs| ==> fs[i].now > 0
  }

  // silentSince is zero exactly when the last frame was loud (or there was none); otherwise it is
  // the time of the first frame of the current quiet run, which starts at the returned index.
  lemma {:induction false} SilentSinceIsRunStart(fs: seq<Scored>, windowMs: nat) returns (j: nat)
    requires PositiveClock(fs)
    ensures fs == [] || Loud(fs[|fs| - 1]) ==> After(fs, windowMs).silentSince == 0
    ensures fs != [] && !Loud(fs[|fs| - 1]) ==>
              QuietRun(fs, j, |fs| - 1) && After(fs, windowMs).silentSince == fs[j].now
  {
    j := 0;
    if fs != [] {
      var front := fs[..|fs| - 1];
      j := SilentSinceIsRunStart(front, windowMs);
      if front == [] || Loud(front[|front| - 1]) {
        j := |fs| - 1;
      }
    }
  }

  ghost predicate Alternating(ns: seq<(nat, Note)>)
  {
    && (forall i {:trigger ns[i]} :: 0 <= i < |ns| ==> (ns[i].1 == Talking <==> i % 2 == 0))
    && (forall i {:trigger ns[i]} :: 0 < i < |ns| ==> ns[i - 1].0 < ns[i].0)
  }

  // Notifications strictly alternate, TALKING first; the detector is talking exactly when the last
  // one said so.
  lemma {:induction false} NotesAlternate(fs: seq<Scored>, windowMs: nat)
    ensures Alternating(Notes(fs, windowMs))
    ensures After(fs, windowMs).talking <==> |Notes(fs, windowMs)| % 2 == 1
    ensures forall i :: 0 <= i < |Notes(fs, windowMs)| ==> Notes(fs, windowMs)[i].0 < |fs|
  {
    if fs != [] {
      NotesAlternate(fs[..|fs| - 1], windowMs);
    }
  }

  // TALKING is sent exactly at a loud frame heard while not talking; SILENT exactly at a quiet frame
  // heard while talking whose unbroken quiet run has lasted longer than the window.
  lemma NoteExactly(fs: seq<Scored>, windowMs: nat) returns (j: nat)
    requires fs != [] && PositiveClock(fs)
    ensures var front, f := fs[..|fs| - 1], fs[|fs| - 1];
            var (talking, note) := (After(front, windowMs).talking, Hear(After(front, windowMs), f, windowMs).1);
            && (note == Some(Talking) <==> f.score > f.threshold && !talking)
            && (f.score <= f.threshold ==> QuietRun(fs, j, |fs| - 1))
            && (note == Some(Silent) <==> talking && f.score <= f.threshold && f.now - fs[j].now > windowMs * 1000)
  {
    j := SilentSinceIsRunStart(fs, windowMs);
    var _ := SilentSinceIsRunStart(fs[..|fs| - 1], windowMs);
  }

  function Press(t: nat, up: bool): nat
  {
    if up && t > 100 then t - 50 else if !up && t < 5000 then t + 50 else t
  }

  // Over any sequence of key presses from the initial threshold.
  function Threshold(ups: seq<bool>): nat
  {
    if ups == [] then 500 else Press(Threshold(ups[..|ups| - 1]), ups[|ups| - 1])
  }

  // How many more presses of energy-down than of energy-up.
  function Net(ups: seq<bool>): int
  {
    if ups == [] then 0 else Net(ups[..|ups| - 1]) + (if ups[|ups| - 1] then -1 else 1)
  }

  // As long as the presses stay within 8 steps up and 90 down, each moves the threshold by 50.
  lemma {:induction false} ThresholdCounts(ups: seq<bool>)
    requires forall i :: 0 <= i <= |ups| ==> -8 <= Net(ups[..i]) <= 90
    ensures Threshold(ups) == 500 + 50 * Net(ups)
  {
    assert ups[..|ups|] == ups;
    if ups != [] {
      var front := ups[..|ups| - 1];
      forall i | 0 <= i <= |front| ensures -8 <= Net(front[..i]) <= 90 {
        assert front[..i] == ups[..i];
      }
      ThresholdCounts(front);
      assert front[..|front|] == front;
    }
  }

  lemma {:induction false} ThresholdStaysGood(ups: seq<bool>)
    ensures GoodThreshold(Threshold(ups))
  {
    if ups != [] { ThresholdStaysGood(ups[..|ups| - 1]); }
  }
}
