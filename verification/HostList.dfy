// The list of hosts as the server lays it out and every task forwards it: a table of offsets, one per
// rank, followed by the NUL-terminated host names.
module HostList {
  import opened Bytestream
  import opened StringTable

  // Where the name of rank r starts.
  function NameOffset(hosts: seq<Bytes>, r: nat): (v: nat)
    requires r <= |hosts|
  {
    4 * |hosts| + |Packed(hosts[..r])|
  }

  function Offsets(hosts: seq<Bytes>): (r: seq<int>)
    ensures |r| == |hosts|
  {
    seq(|hosts|, r requires 0 <= r < |hosts| => NameOffset(hosts, r))
  }

  function Table(hosts: seq<Bytes>): (b: Bytes) { Words(Offsets(hosts)) + Packed(hosts) }

  // cobo_expand_hostname: the C string at the rank's offset.
  function Expand(table: Bytes, rank: nat): (b: Bytes) {
    var at := Word(table, rank);
    if at <= |table| then CString(table[at..]) else []
  }

  lemma {:induction false} PackedFrom(list: seq<Bytes>, r: nat)
    requires r < |list|
    ensures |Packed(list[..r])| <= |Packed(list)|
    ensures exists rest :: Packed(list)[|Packed(list[..r])|..] == list[r] + ([0] + rest)
    decreases |list|
  {
    var front, last := list[..|list| - 1], list[|list| - 1];
    if r == |front| {
      assert Packed(list)[|Packed(front)|..] == last + ([0] + []);
    } else {
      PackedFrom(front, r);
      assert front[..r] == list[..r];
      var rest :| Packed(front)[|Packed(front[..r])|..] == list[r] + ([0] + rest);
      assert Packed(list)[|Packed(list[..r])|..] == list[r] + ([0] + (rest + last + [0]));
    }
  }

  // Every rank's name is found in the table, for hosts of any names and lengths.
  lemma ExpandRoundTrip(hosts: seq<Bytes>, r: nat)
    requires r < |hosts| && |Table(hosts)| < 0x8000_0000 && NoNul(hosts[r])
    ensures Expand(Table(hosts), r) == hosts[r]
  {
    hide EncodeInt, DecodeUnsigned, Word, CString;
    var words, names, at := Words(Offsets(hosts)), Packed(hosts), NameOffset(hosts, r);
    WordsConcat(Offsets(hosts), []);
    WordAt(Offsets(hosts), names, r);
    PackedFrom(hosts, r);
    var front := |Packed(hosts[..r])|;
    Behind(words, names, front, |names|);
    var rest :| names[front..] == hosts[r] + ([0] + rest);
    CStringOf(hosts[r], [0] + rest);
    Offset32(hosts, r);
  }

  lemma Offset32(hosts: seq<Bytes>, r: nat)
    requires r < |hosts| && |Table(hosts)| < 0x8000_0000
    ensures Unsigned(NameOffset(hosts, r)) == NameOffset(hosts, r) <= |Table(hosts)|
  {
    hide EncodeInt, Unsigned;
    WordsConcat(Offsets(hosts), []);
    PackedFrom(hosts, r);
  }

  // ----- how the server fills it in

  // The offsets of the first i hosts, and their names.
  ghost predicate Filled(hosts: seq<Bytes>, i: nat, words: Bytes, wordGap: Bytes, names: Bytes, nameGap: Bytes) {
    i <= |hosts| && words == Words(Offsets(hosts)[..i]) && |wordGap| == 4 * (|hosts| - i) && |words| == 4 * i &&
    names == Packed(hosts[..i]) && |names| + |nameGap| == |Packed(hosts)|
  }

  lemma FilledNext(hosts: seq<Bytes>, i: nat, words: Bytes, wordGap: Bytes, names: Bytes, nameGap: Bytes)
    requires Filled(hosts, i, words, wordGap, names, nameGap) && i < |hosts|
    ensures |nameGap| > |hosts[i]| && |wordGap| >= 4
    ensures Filled(hosts, i + 1, words + EncodeInt(4 * |hosts| + |names|), wordGap[4..], names + hosts[i] + [0],
      nameGap[|hosts[i]| + 1..])
  {
    hide EncodeInt;
    var all := Offsets(hosts);
    assert all[..i + 1] == all[..i] + [all[i]];
    WordsConcat(all[..i], [all[i]]);
    WordsConcat(all[..i + 1], []);
    assert Words([all[i]]) == EncodeInt(all[i]) + Words([]);
    assert hosts[..i + 1][..i] == hosts[..i];
    PackedGrows(hosts, i + 1);
  }

  lemma FilledAll(hosts: seq<Bytes>, words: Bytes, wordGap: Bytes, names: Bytes, nameGap: Bytes)
    requires Filled(hosts, |hosts|, words, wordGap, names, nameGap)
    ensures words + wordGap + names + nameGap == Table(hosts)
  {
    assert Offsets(hosts)[..|hosts|] == Offsets(hosts) && hosts[..|hosts|] == hosts && wordGap == [] && nameGap == [];
  }

  // The number of bytes of all names with their NULs.
  method TotalSize(hosts: seq<Bytes>) returns (size: nat)
    ensures size == |Packed(hosts)|
  {
    size := 0;
    assert hosts[..0] == [];
    for i := 0 to |hosts|
      invariant size == |Packed(hosts[..i])|
    {
      assert hosts[..i + 1][..i] == hosts[..i];
      size := size + |hosts[i]| + 1;
    }
    assert hosts[..|hosts|] == hosts;
  }

  // One host: its offset and its name go to their places.
  method FillOne(table: array<Byte>, hosts: seq<Bytes>, i: nat, offset: nat,
                 ghost words: Bytes, ghost wordGap: Bytes, ghost names: Bytes, ghost nameGap: Bytes)
    requires i < |hosts| && Filled(hosts, i, words, wordGap, names, nameGap) && offset == 4 * |hosts| + |names|
    requires table[..] == words + wordGap + names + nameGap && |nameGap| > |hosts[i]|
    modifies table
    ensures table[..] == (words + EncodeInt(offset)) + wordGap[4..] + (names + hosts[i] + [0]) +
      nameGap[|hosts[i]| + 1..]
  {
    hide Words, Packed;
    FilledNext(hosts, i, words, wordGap, names, nameGap);
    var word := EncodeInt(offset);
    assert words + wordGap + (names + nameGap) == words + wordGap + names + nameGap;
    Fill(table, 4 * i, word, words, wordGap, names + nameGap);
    ghost var front := (words + word) + wordGap[4..] + names;
    assert table[..] == front + nameGap + [];
    Fill(table, offset, hosts[i] + [0], front, nameGap, []);
    assert table[..] == front + (hosts[i] + [0]) + nameGap[|hosts[i]| + 1..];
  }

  method Build(hosts: seq<Bytes>) returns (table: array<Byte>)
    ensures fresh(table) && table[..] == Table(hosts)
  {
    hide EncodeInt, Words, Packed;
    var size := TotalSize(hosts);
    table := new Byte[4 * |hosts| + size](_ => 0);
    var offset := 4 * |hosts|;
    ghost var words, names: Bytes := [], [];
    ghost var wordGap, nameGap := table[..4 * |hosts|], table[4 * |hosts|..];
    FilledNone(hosts, wordGap, nameGap);
    for i := 0 to |hosts|
      invariant Filled(hosts, i, words, wordGap, names, nameGap) && offset == 4 * |hosts| + |names|
      invariant table[..] == words + wordGap + names + nameGap
    {
      FilledNext(hosts, i, words, wordGap, names, nameGap);
      FillOne(table, hosts, i, offset, words, wordGap, names, nameGap);
      words, wordGap := words + EncodeInt(offset), wordGap[4..];
      names, nameGap := names + hosts[i] + [0], nameGap[|hosts[i]| + 1..];
      offset := offset + |hosts[i]| + 1;
    }
    FilledAll(hosts, words, wordGap, names, nameGap);
  }

  lemma FilledNone(hosts: seq<Bytes>, wordGap: Bytes, nameGap: Bytes)
    requires |wordGap| == 4 * |hosts| && |nameGap| == |Packed(hosts)|
    ensures Filled(hosts, 0, [], wordGap, [], nameGap)
  {
    assert Offsets(hosts)[..0] == [] && hosts[..0] == [];
  }
}
