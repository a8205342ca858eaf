// The co-location payload: the path and the arguments of a daemon as NUL-terminated strings behind one
// another, closed by one more NUL. The reader goes from string to string and stops behind an empty one.
module Coloc {
  import opened Bytestream
  import opened StringTable

  function Payload(strings: seq<Bytes>): (b: Bytes) { Packed(strings) + [0] }

  // The start of the next string, if this one is not empty.
  method NextCstr(pl: Bytes, at: nat) returns (next: int)
    requires at < |pl| && 0 in pl[at..]
    ensures CString(pl[at..]) == [] ==> next == -1
    ensures CString(pl[at..]) != [] ==> next == at + |CString(pl[at..])| + 1 <= |pl|
  {
    if pl[at] == 0 { return -1; }
    var s := at;
    CStringIn(pl[at..]);
    while pl[s] != 0
      invariant at <= s <= at + |CString(pl[at..])| < |pl|
      invariant CString(pl[s..]) == CString(pl[at..])[s - at..]
      decreases |pl| - s
    {
      assert pl[s..][1..] == pl[s + 1..];
      s := s + 1;
    }
    next := s + 1;
  }

  lemma {:induction false} CStringIn(b: Bytes)
    requires 0 in b
    ensures |CString(b)| < |b| && b[|CString(b)|] == 0
  {
    if b[0] != 0 {
      assert b == [b[0]] + b[1..];
      CStringIn(b[1..]);
    }
  }

  // What the reader takes out of a list: everything up to the first empty string, that one included.
  function UpToEmpty(strings: seq<Bytes>): (list: seq<Bytes>) {
    if strings == [] then [] else if strings[0] == [] then [[]] else [strings[0]] + UpToEmpty(strings[1..])
  }

  // The strings as they lie in the payload, from the front.
  function Laid(strings: seq<Bytes>): (b: Bytes) {
    if strings == [] then [] else strings[0] + [0] + Laid(strings[1..])
  }

  lemma {:induction false} LaidAppend(strings: seq<Bytes>, s: Bytes)
    ensures Laid(strings + [s]) == Laid(strings) + s + [0]
  {
    if strings == [] {
      assert Laid([s]) == s + [0] + Laid([]);
    } else {
      assert (strings + [s])[1..] == strings[1..] + [s];
      LaidAppend(strings[1..], s);
    }
  }

  lemma {:induction false} PackedIsLaid(strings: seq<Bytes>)
    ensures Packed(strings) == Laid(strings)
  {
    if strings != [] {
      var front, last := strings[..|strings| - 1], strings[|strings| - 1];
      PackedIsLaid(front);
      LaidAppend(front, last);
      assert strings == front + [last];
    }
  }

  lemma PackedNext(strings: seq<Bytes>, i: nat)
    requires i < |strings|
    ensures Packed(strings[..i + 1]) == Packed(strings[..i]) + (strings[i] + [0])
    ensures |Packed(strings[..i + 1])| <= |Packed(strings)|
  {
    assert strings[..i + 1][..i] == strings[..i];
    PackedGrows(strings, i + 1);
  }

  lemma PackedEnds(strings: seq<Bytes>)
    ensures Packed(strings[..0]) == [] && strings[..|strings|] == strings
  {
  }

  // The packer writes string after string.
  method Pack(strings: seq<Bytes>) returns (pl: array<Byte>)
    ensures fresh(pl) && pl[..] == Payload(strings) == Laid(strings) + [0]
  {
    hide Packed, Laid;
    PackedIsLaid(strings);
    var size := 0;
    PackedEnds(strings);
    for i := 0 to |strings|
      invariant size == |Packed(strings[..i])|
    {
      PackedNext(strings, i);
      size := size + |strings[i]| + 1;
    }
    pl := new Byte[size + 1](_ => 0);
    var at := 0;
    ghost var gap := pl[..];
    assert pl[..] == Packed(strings[..0]) + gap;
    for i := 0 to |strings|
      invariant pl[..] == Packed(strings[..i]) + gap && at == |Packed(strings[..i])| && |gap| == size + 1 - at
      invariant size == |Packed(strings)|
    {
      PackedNext(strings, i);
      at, gap := WriteNext(pl, at, strings[i] + [0], Packed(strings[..i]), gap);
    }
    at, gap := WriteNext(pl, at, [0], Packed(strings), gap);
    assert gap == [];
  }

  // Bytes are appended to what has been written.
  method WriteNext(pl: array<Byte>, at: nat, data: Bytes, ghost front: Bytes, ghost gap: Bytes)
    returns (next: nat, ghost rest: Bytes)
    requires pl[..] == front + gap && at == |front| && |data| <= |gap|
    modifies pl
    ensures pl[..] == (front + data) + rest && next == at + |data| && rest == gap[|data|..]
  {
    assert pl[..] == front + gap + [];
    Fill(pl, at, data, front, gap, []);
    next, rest := at + |data|, gap[|data|..];
  }

  // Where the reader stands: at the front of the strings that are left, the first of which it has taken.
  ghost predicate Reading(pl: Bytes, at: nat, strings: seq<Bytes>, rest: seq<Bytes>, found: seq<Bytes>) {
    at < |pl| && pl[at..] == Laid(rest) && rest != [] && (forall i :: 0 <= i < |rest| ==> NoNul(rest[i])) &&
    rest[|rest| - 1] == [] && 0 in pl[at..] && CString(pl[at..]) == rest[0] &&
    found != [] && found[|found| - 1] == rest[0] &&
    found[..|found| - 1] + UpToEmpty(rest) == UpToEmpty(strings + [[]])
  }

  lemma ReadingStarts(pl: Bytes, strings: seq<Bytes>)
    requires pl == Payload(strings) && strings != [] && forall i :: 0 <= i < |strings| ==> NoNul(strings[i])
    ensures pl != [] && Reading(pl, 0, strings, strings + [[]], [CString(pl)])
  {
    hide CString, Packed, Laid, UpToEmpty, NoNul;
    PackedIsLaid(strings);
    LaidAppend(strings, []);
    assert pl[0..] == pl && Laid(strings) + [] + [0] == pl;
    EmptyIsPlain();
    StringInFront(strings + [[]]);
    assert [] + UpToEmpty(strings + [[]]) == UpToEmpty(strings + [[]]);
  }

  lemma ReadingEnds(pl: Bytes, at: nat, strings: seq<Bytes>, rest: seq<Bytes>, found: seq<Bytes>)
    requires Reading(pl, at, strings, rest, found) && rest[0] == []
    ensures found == UpToEmpty(strings + [[]])
  {
    hide CString, Laid, UpToEmpty, NoNul;
    UpToEmptyStep(rest);
    assert found == found[..|found| - 1] + [rest[0]];
  }

  lemma NextInFront(pl: Bytes, at: nat, rest: seq<Bytes>)
    requires at < |pl| && pl[at..] == Laid(rest) && |rest| > 1 && forall i :: 0 <= i < |rest| ==> NoNul(rest[i])
    ensures var next := at + |rest[0]| + 1;
      (next < |pl| && pl[next..] == Laid(rest[1..]) && CString(pl[next..]) == rest[1] && 0 in pl[next..])
  {
    hide CString, Laid, NoNul;
    LaidStep(rest);
    LaidLength(rest);
    StringInFront(rest[1..]);
    assert pl[at + |rest[0]| + 1..] == pl[at..][|rest[0]| + 1..];
  }

  lemma LaidLength(rest: seq<Bytes>)
    requires rest != []
    ensures |Laid(rest)| == |rest[0]| + 1 + |Laid(rest[1..])|
  {
  }

  lemma FoundMore(found: seq<Bytes>, s: Bytes, t: Bytes, more: seq<Bytes>)
    requires found != [] && found[|found| - 1] == s
    ensures (found + [t])[..|found|] + more == found[..|found| - 1] + ([s] + more)
  {
    assert (found + [t])[..|found|] == found == found[..|found| - 1] + [s];
  }

  lemma ReadingOn(pl: Bytes, at: nat, strings: seq<Bytes>, rest: seq<Bytes>, found: seq<Bytes>)
    requires Reading(pl, at, strings, rest, found) && rest[0] != []
    ensures |rest| > 1 && at + |rest[0]| + 1 < |pl|
    ensures var next := at + |rest[0]| + 1; Reading(pl, next, strings, rest[1..], found + [CString(pl[next..])])
  {
    hide CString, Laid, UpToEmpty, NoNul;
    NextInFront(pl, at, rest);
    UpToEmptyStep(rest);
    FoundMore(found, rest[0], rest[1], UpToEmpty(rest[1..]));
  }

  // The reader on a payload of strings without embedded NULs: it takes the strings up to the first empty one,
  // and the closing NUL counts as an empty one, too.
  method Parse(pl: Bytes, ghost strings: seq<Bytes>) returns (found: seq<Bytes>)
    requires pl == Payload(strings) && strings != [] && forall i :: 0 <= i < |strings| ==> NoNul(strings[i])
    ensures found == UpToEmpty(strings + [[]])
  {
    hide CString, Laid, UpToEmpty, NoNul, Payload;
    ReadingStarts(pl, strings);
    ghost var rest := strings + [[]];
    var at := 0;
    found := [CString(pl)];
    while true
      invariant Reading(pl, at, strings, rest, found)
      decreases |rest|
    {
      var next := NextCstr(pl, at);
      if next < 0 { break; }
      ReadingOn(pl, at, strings, rest, found);
      at, rest := next, rest[1..];
      found := found + [CString(pl[at..])];
    }
    ReadingEnds(pl, at, strings, rest, found);
  }

  lemma EmptyIsPlain()
    ensures NoNul([])
  {
  }

  lemma UpToEmptyStep(rest: seq<Bytes>)
    requires rest != []
    ensures UpToEmpty(rest) == if rest[0] == [] then [rest[0]] else [rest[0]] + UpToEmpty(rest[1..])
  {
  }

  lemma LaidStep(rest: seq<Bytes>)
    requires rest != []
    ensures Laid(rest)[|rest[0]| + 1..] == Laid(rest[1..])
  {
    assert Laid(rest) == rest[0] + [0] + Laid(rest[1..]);
  }

  lemma StringInFront(rest: seq<Bytes>)
    requires rest != [] && forall i :: 0 <= i < |rest| ==> NoNul(rest[i])
    ensures CString(Laid(rest)) == rest[0] && 0 in Laid(rest) && |Laid(rest)| > 0
  {
    hide CString, NoNul;
    var tail := [0] + Laid(rest[1..]);
    CStringOf(rest[0], tail);
    assert Laid(rest) == rest[0] + tail;
    assert Laid(rest)[|rest[0]|] == 0;
  }

  // A path without arguments arrives with an argument.
  lemma ExtraArgument(path: Bytes)
    requires path != []
    ensures UpToEmpty([path] + [[]]) == [path, []]
  {
    assert ([path] + [[]])[1..] == [[]];
  }

  // The daemon is given one argument more than was asked for, an empty one, unless an argument is empty; in that
  // case it is given all up to that one. So path and arguments arrive unchanged just if the last of them, and
  // no other, is empty.
  lemma {:induction false} WhatArrives(strings: seq<Bytes>)
    requires strings != []
    ensures (forall i :: 0 <= i < |strings| ==> strings[i] != []) ==> UpToEmpty(strings + [[]]) == strings + [[]]
    ensures UpToEmpty(strings + [[]]) == strings <==>
      strings[|strings| - 1] == [] && forall i :: 0 <= i < |strings| - 1 ==> strings[i] != []
  {
    var all := strings + [[]];
    assert all[1..] == strings[1..] + [[]];
    if |strings| == 1 {
      assert UpToEmpty([[]]) == [[]];
    } else {
      WhatArrives(strings[1..]);
      if strings[0] != [] {
        assert UpToEmpty(all) == [strings[0]] + UpToEmpty(strings[1..] + [[]]);
        assert strings == [strings[0]] + strings[1..];
        assert UpToEmpty(all)[1..] == UpToEmpty(strings[1..] + [[]]);
        assert forall i :: 0 < i < |strings| ==> strings[i] == strings[1..][i - 1];
      }
    }
  }
}
