/**
 The accumulator that turns DTMF digits into control bindings, as a 16-byte NUL-terminated buffer
 edited in place and as a parser of digit strings.
 */
module Dtmf {
  import opened Options

  const NUL: char := '\0'
  const BUF_BYTES: nat := 16
  const GAP_US: int := 1500000

  // ---------------------------------------------------------------- the parser

  // Text and arrival time of the last digit.
  datatype Acc = Acc(text: string, at: int)

  datatype Key = Key(digit: char, at: int)

  // Text after appending a digit, before looking for a match.
  function Append(a: Acc, k: Key): string
  {
    var kept := if k.at - a.at > GAP_US then "" else a.text;
    (if |kept| + 1 >= BUF_BYTES then "" else kept) + [k.digit]
  }

  // New accumulator, and the binding string dispatched, if any.
  function Press(a: Acc, k: Key, binds: seq<string>): (Acc, Option<string>)
  {
    if k.digit == NUL then (a, None)
    else
      var text := Append(a, k);
      if text in binds then (Acc("", k.at), Some(text)) else (Acc(text, k.at), None)
  }

  // Bindings dispatched while the keys are pressed in order.
  function Decode(a: Acc, keys: seq<Key>, binds: seq<string>): seq<string>
    decreases |keys|
  {
    if keys == [] then []
    else
      var (a', hit) := Press(a, keys[0], binds);
      (if hit.Some? then [hit.value] else []) + Decode(a', keys[1..], binds)
  }

  // Bindings as the configuration stores them: 1 to 15 digits.
  ghost predicate Storable(binds: seq<string>)
  {
    forall w :: w in binds ==> 0 < |w| < BUF_BYTES && NUL !in w
  }

  ghost predicate PrefixFree(binds: seq<string>)
  {
    forall u, v :: u in binds && v in binds && u <= v ==> u == v
  }

  function Concat(ws: seq<string>): string
    decreases |ws|
  {
    if ws == [] then "" else ws[0] + Concat(ws[1..])
  }

  // The keys spell the text, no two of them more than 1.5 s apart.
  ghost predicate Types(keys: seq<Key>, text: string)
  {
    && |keys| == |text|
    && (forall i :: 0 <= i < |keys| ==> keys[i].digit == text[i])
    && (forall i :: 0 < i < |keys| ==> keys[i].at - keys[i - 1].at <= GAP_US)
  }

  // Typing any words of the binding set, at any such pace, dispatches exactly those words in order.
  ghost predicate Inverts(binds: seq<string>)
  {
    forall ws: seq<string>, keys: seq<Key>, t: int {:trigger Types(keys, Concat(ws)), Acc("", t)} ::
      (forall w :: w in ws ==> w in binds) && Types(keys, Concat(ws)) ==> Decode(Acc("", t), keys, binds) == ws
  }

  lemma TypesTail(keys: seq<Key>, text: string, n: nat)
    requires Types(keys, text) && n <= |text|
    ensures Types(keys[n..], text[n..])
  {
    forall i | 0 < i < |keys[n..]| ensures keys[n..][i].at - keys[n..][i - 1].at <= GAP_US {
      assert keys[n + i].at - keys[n + i - 1].at <= GAP_US;
    }
  }

  // A digit in time that completes no binding only extends the accumulator.
  lemma DecodeMiss(a: Acc, keys: seq<Key>, binds: seq<string>)
    requires keys != [] && keys[0].digit != NUL && |a.text| + 1 < BUF_BYTES
    requires a.text != "" ==> keys[0].at - a.at <= GAP_US
    requires a.text + [keys[0].digit] !in binds
    ensures Decode(a, keys, binds) == Decode(Acc(a.text + [keys[0].digit], keys[0].at), keys[1..], binds)
  {
    assert Append(a, keys[0]) == a.text + [keys[0].digit];
    assert forall s: seq<string> :: [] + s == s;
  }

  lemma DecodeHit(a: Acc, keys: seq<Key>, binds: seq<string>)
    requires keys != [] && keys[0].digit != NUL && |a.text| + 1 < BUF_BYTES
    requires a.text != "" ==> keys[0].at - a.at <= GAP_US
    requires a.text + [keys[0].digit] in binds
    ensures Decode(a, keys, binds) == [a.text + [keys[0].digit]] + Decode(Acc("", keys[0].at), keys[1..], binds)
  {
    assert Append(a, keys[0]) == a.text + [keys[0].digit];
  }

  lemma ProperPrefixMisses(binds: seq<string>, p: string, tail: string)
    requires PrefixFree(binds) && p + tail in binds && tail != ""
    ensures p !in binds
  {
    assert p <= p + tail;
  }

  // One digit moves from the part to type to the part typed.
  lemma NextDigit(front: string, back: string, keys: seq<Key>, rest: string)
    requires back != "" && Types(keys, back + rest)
    ensures keys[0].digit == back[0] && front + [back[0]] + back[1..] == front + back
    ensures Types(keys[1..], back[1..] + rest)
    ensures back[1..] != "" ==> |keys| > 1 && keys[1].at - keys[0].at <= GAP_US
  {
    TypesTail(keys, back + rest, 1);
    assert (back + rest)[1..] == back[1..] + rest;
    assert keys[0].digit == (back + rest)[0];
  }

  // With the accumulator at the front part of a binding, typing the other part dispatches that
  // binding, and nothing else fires on the way.
  lemma {:induction false} FinishWord(binds: seq<string>, front: string, back: string, at: int, keys: seq<Key>, rest: string)
    requires Storable(binds) && PrefixFree(binds) && front + back in binds && back != ""
    requires Types(keys, back + rest)
    requires front != "" ==> keys[0].at - at <= GAP_US
    ensures var n := |back|;
            Decode(Acc(front, at), keys, binds) == [front + back] + Decode(Acc("", keys[n - 1].at), keys[n..], binds)
    decreases |back|
  {
    var front', back', n := front + [back[0]], back[1..], |back|;
    NextDigit(front, back, keys, rest);
    assert back[0] in front + back;
    if back' == "" {
      assert front' == front + back;
      DecodeHit(Acc(front, at), keys, binds);
    } else {
      ProperPrefixMisses(binds, front', back');
      DecodeMiss(Acc(front, at), keys, binds);
      FinishWord(binds, front', back', keys[0].at, keys[1..], rest);
      assert keys[1..][n - 1..] == keys[n..];
    }
  }

  // The first of the bindings typed.
  lemma DecodeWord(binds: seq<string>, ws: seq<string>, keys: seq<Key>, t: int)
    requires Storable(binds) && PrefixFree(binds)
    requires ws != [] && ws[0] in binds && Types(keys, Concat(ws))
    ensures var n := |ws[0]|;
            && 1 <= n <= |keys| && Types(keys[n..], Concat(ws[1..]))
            && Decode(Acc("", t), keys, binds) == [ws[0]] + Decode(Acc("", keys[n - 1].at), keys[n..], binds)
  {
    var w, n := ws[0], |ws[0]|;
    assert "" + w == w;
    FinishWord(binds, "", w, t, keys, Concat(ws[1..]));
    TypesTail(keys, Concat(ws), n);
    assert Concat(ws)[n..] == Concat(ws[1..]);
  }

  lemma {:induction false} DecodeWords(binds: seq<string>, ws: seq<string>, keys: seq<Key>, t: int)
    requires Storable(binds) && PrefixFree(binds)
    requires (forall w :: w in ws ==> w in binds) && Types(keys, Concat(ws))
    ensures Decode(Acc("", t), keys, binds) == ws
    decreases |ws|
  {
    if ws != [] {
      var n := |ws[0]|;
      DecodeWord(binds, ws, keys, t);
      DecodeWords(binds, ws[1..], keys[n..], keys[n - 1].at);
      assert ws == [ws[0]] + ws[1..];
    }
  }

  // Typing a text that starts with a binding dispatches something no longer than that binding first.
  lemma {:induction false} FirstHitIsShort(binds: seq<string>, front: string, back: string, at: int, keys: seq<Key>, rest: string)
    requires Storable(binds) && front + back in binds && back != ""
    requires Types(keys, back + rest) && NUL !in back + rest
    requires front != "" ==> keys[0].at - at <= GAP_US
    ensures var out := Decode(Acc(front, at), keys, binds);
            out != [] && |out[0]| <= |front + back|
    decreases |back|
  {
    var front', back' := front + [back[0]], back[1..];
    NextDigit(front, back, keys, rest);
    assert back[0] in back + rest;
    if front' in binds {
      DecodeHit(Acc(front, at), keys, binds);
    } else {
      assert back' == "" ==> front' == front + back;
      DecodeMiss(Acc(front, at), keys, binds);
      assert NUL !in back' + rest;
      FirstHitIsShort(binds, front', back', keys[0].at, keys[1..], rest);
    }
  }

  function Steadily(text: string): (keys: seq<Key>)
    ensures Types(keys, text)
  {
    seq(|text|, i requires 0 <= i < |text| => Key(text[i], 0))
  }

  // Decoding inverts typing exactly for the prefix-free binding sets.
  lemma InvertsIffPrefixFree(binds: seq<string>)
    requires Storable(binds)
    ensures Inverts(binds) <==> PrefixFree(binds)
  {
    if PrefixFree(binds) {
      forall ws: seq<string>, keys: seq<Key>, t: int
          {:trigger Types(keys, Concat(ws)), Acc("", t)}
          | (forall w :: w in ws ==> w in binds) && Types(keys, Concat(ws))
        ensures Decode(Acc("", t), keys, binds) == ws
      {
        DecodeWords(binds, ws, keys, t);
      }
    } else {
      var u, v :| u in binds && v in binds && u <= v && u != v;
      var ws := [v];
      assert ws[1..] == [] && Concat(ws) == v;
      var keys := Steadily(v);
      assert "" + u == u && u + v[|u|..] == v;
      FirstHitIsShort(binds, "", u, 0, keys, v[|u|..]);
      assert Types(keys, Concat(ws));
      assert Decode(Acc("", 0), keys, binds) != ws;
    }
  }

  // After a longer gap the outcome does not depend on what came before.
  lemma LongGapForgets(a: Acc, b: Acc, keys: seq<Key>, binds: seq<string>)
    requires keys != [] && keys[0].digit != NUL
    requires keys[0].at - a.at > GAP_US && keys[0].at - b.at > GAP_US
    ensures Decode(a, keys, binds) == Decode(b, keys, binds)
  {
    assert Press(a, keys[0], binds) == Press(b, keys[0], binds);
  }

  // So it is after fifteen digits: the next one starts afresh.
  lemma FullForgets(a: Acc, at: int, keys: seq<Key>, binds: seq<string>)
    requires keys != [] && keys[0].digit != NUL && |a.text| + 1 >= BUF_BYTES
    ensures Decode(a, keys, binds) == Decode(Acc("", at), keys, binds)
  {
    assert Press(a, keys[0], binds) == Press(Acc("", at), keys[0], binds);
  }

  // Other digits than NUL are all that counts.
  lemma NulIgnored(a: Acc, keys: seq<Key>, binds: seq<string>)
    requires keys != [] && keys[0].digit == NUL
    ensures Decode(a, keys, binds) == Decode(a, keys[1..], binds)
  {
    assert [] + Decode(a, keys[1..], binds) == Decode(a, keys[1..], binds);
  }

  lemma Regroup(front: string, text: string, n: nat)
    requires n < |text|
    ensures (front + text[..1]) + text[1..][..n] == front + text[..n + 1]
    ensures (front + text[..1]) + text[1..] == front + text
  {
    assert text[..1] + text[1..][..n] == text[..n + 1];
    assert text[..1] + text[1..] == text;
  }

  // One of them.
  lemma OnePiles(a: Acc, keys: seq<Key>, text: string, more: seq<Key>, binds: seq<string>)
    requires Types(keys, text) && text != "" && text[0] != NUL && |a.text| + 1 < BUF_BYTES
    requires a.text != "" ==> keys[0].at - a.at <= GAP_US
    requires a.text + text[..1] !in binds
    ensures Decode(a, keys + more, binds) == Decode(Acc(a.text + text[..1], keys[0].at), keys[1..] + more, binds)
  {
    assert text[..1] == [keys[0].digit] && (keys + more)[1..] == keys[1..] + more;
    DecodeMiss(a, keys + more, binds);
  }

  // Digits that complete no binding pile up until the buffer is full.
  lemma {:induction false} PilesUp(a: Acc, keys: seq<Key>, text: string, more: seq<Key>, binds: seq<string>)
    requires Types(keys, text) && NUL !in text && |a.text + text| < BUF_BYTES
    requires a.text != "" && keys != [] ==> keys[0].at - a.at <= GAP_US
    requires forall n :: 0 < n <= |text| ==> a.text + text[..n] !in binds
    ensures Decode(a, keys + more, binds) ==
            Decode(Acc(a.text + text, if keys == [] then a.at else keys[|keys| - 1].at), more, binds)
    decreases |keys|
  {
    if keys == [] {
      assert keys + more == more && a.text + text == a.text;
    } else {
      var a' := Acc(a.text + text[..1], keys[0].at);
      OnePiles(a, keys, text, more, binds);
      TypesTail(keys, text, 1);
      Regroup(a.text, text, 0);
      forall n | 0 < n <= |text[1..]| ensures a'.text + text[1..][..n] !in binds {
        Regroup(a.text, text, n);
      }
      PilesUp(a', keys[1..], text[1..], more, binds);
    }
  }

  // A digit that starts no binding keeps the next fourteen from completing one, as long as no gap comes.
  lemma StrayDigitBlocks(keys: seq<Key>, text: string, t: int, binds: seq<string>)
    requires Types(keys, text) && NUL !in text && 0 < |text| < BUF_BYTES
    requires forall w :: w in binds && w != "" ==> w[0] != text[0]
    ensures Decode(Acc("", t), keys, binds) == []
  {
    forall n | 0 < n <= |text| ensures "" + text[..n] !in binds {
      assert ("" + text[..n])[0] == text[0];
    }
    PilesUp(Acc("", t), keys, text, [], binds);
    assert keys + [] == keys;
  }

  // ---------------------------------------------------------------- the buffer

  // Text of a C string: what stands before the first NUL.
  function TextOf(s: seq<char>): (t: string)
    ensures |t| <= |s| && t == s[..|t|] && NUL !in t
    ensures |t| < |s| <==> NUL in s
    ensures |t| < |s| ==> s[|t|] == NUL
    decreases |s|
  {
    if s == [] || s[0] == NUL then "" else [s[0]] + TextOf(s[1..])
  }

  lemma {:induction false} TextIs(s: seq<char>, t: string)
    requires |t| < |s| && t == s[..|t|] && NUL !in t && s[|t|] == NUL
    ensures TextOf(s) == t
    decreases |s|
  {
    if t != "" {
      assert s[0] == t[0];
      TextIs(s[1..], t[1..]);
    }
  }

  class Keypad {
    var buf: array<char>
    var timeUs: int

    ghost predicate Valid()
      reads this, buf
    {
      buf.Length == BUF_BYTES && NUL in buf[..]
    }

    ghost function Content(): Acc
      reads this, buf
    {
      Acc(TextOf(buf[..]), timeUs)
    }

    constructor ()
      ensures Valid() && fresh(buf) && Content() == Acc("", 0)
    {
      buf := new char[16](_ => NUL);
      timeUs := 0;
      new;
      assert buf[0] == NUL && buf[0] in buf[..];
    }

    method Strlen() returns (len: nat)
      requires Valid()
      ensures len == |Content().text| < BUF_BYTES
    {
      ghost var text := Content().text;
      len := 0;
      while buf[len] != NUL
        invariant len <= |text|
        decreases |text| - len
      {
        assert buf[|text|] == buf[..][|text|];
        len := len + 1;
      }
      assert forall i :: 0 <= i < |text| ==> buf[i] == text[i];
    }

    // Index of the first binding equal to the buffer's text.
    method MatchControls(binds: seq<string>) returns (hit: Option<nat>)
      requires Valid()
      modifies buf
      ensures Valid() && timeUs == old(timeUs)
      ensures hit.Some? <==> old(Content().text) in binds
      ensures hit.Some? ==> hit.value < |binds| && binds[hit.value] == old(Content().text)
      ensures hit.Some? ==> old(Content().text) !in binds[..hit.value]
      ensures Content().text == if hit.Some? then "" else old(Content().text)
    {
      hit := None;
      var i := 0;
      ghost var text := Content().text;
      while i < |binds|
        invariant 0 <= i <= |binds| && text !in binds[..i]
        invariant buf[..] == old(buf[..])
      {
        if TextOf(buf[..]) == binds[i] {
          buf[0] := NUL;
          assert NUL in buf[..] by { assert buf[0] in buf[..]; }
          TextIs(buf[..], "");
          return Some(i);
        }
        i := i + 1;
      }
    }

    // One digit. The text stays terminated inside the 16 bytes whatever is pressed.
    method HandleDigit(digit: char, now: int, binds: seq<string>) returns (hit: Option<nat>)
      requires Valid()
      modifies this`timeUs, buf
      ensures Valid() && buf == old(buf)
      ensures var (a', h) := Press(old(Content()), Key(digit, now), binds);
              && Content() == a'
              && (hit.Some? <==> h.Some?)
              && (hit.Some? ==> hit.value < |binds| && binds[hit.value] == h.value && h.value !in binds[..hit.value])
    {
      if digit == NUL {
        return None;
      }
      var len := Strlen();
      if now - timeUs > GAP_US {
        buf[0] := NUL;
        len := 0;
      }
      timeUs := now;
      if len + 1 >= buf.Length {
        buf[0] := NUL;
        len := 0;
      }
      ghost var kept := old(buf[..])[..len];
      buf[len] := digit;
      buf[len + 1] := NUL;
      assert buf[..][len + 1] == NUL && buf[..][..len + 1] == kept + [digit];
      assert kept + [digit] == Append(old(Content()), Key(digit, now));
      TextIs(buf[..], kept + [digit]);
      hit := MatchControls(binds);
    }
  }
}
