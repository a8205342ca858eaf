// The message with the daemons' host names: one index per daemon into a table that holds every distinct
// name once. Packed in two passes over the gathered names, which come in slots of fixed length.
module HostTable {
  import opened Bytestream
  import opened Network
  import opened Lmonp
  import opened StringTable

  const HN_MAX: nat := 108

  // The C string at the start of slot i.
  function NameAt(gathered: Bytes, i: nat): (b: Bytes) {
    if 108 * i <= |gathered| then CString(gathered[108 * i..]) else []
  }

  function Names(gathered: Bytes, width: nat): (list: seq<Bytes>) {
    seq(width, i requires 0 <= i < width => NameAt(gathered, i))
  }

  function Indices(names: seq<Bytes>): (r: seq<int>)
    ensures |r| == |names|
  {
    seq(|names|, i requires 0 <= i < |names| => Offset(Distinct(names), names[i]))
  }

  function Payload(names: seq<Bytes>): (b: Bytes) { Words(Indices(names)) + Packed(Distinct(names)) }

  function Message(names: seq<Bytes>): (b: Bytes) {
    EncodeHeader(HostnameHeader(|names|, |Payload(names)|)) + Payload(names)
  }

  // What a reader finds as host i: the string at the start of the string table plus index i.
  function HostAt(msg: Bytes, i: nat): (o: Option<Bytes>) {
    var h := DecodeHeader(msg);
    match StrtabBegin(h)
    case None => None
    case Some(strtab) =>
      if HEADER_SIZE <= |msg| && i < NumTasks(h) then
        var at := strtab + Word(msg[HEADER_SIZE..], i);
        if 0 <= at <= |msg| then Some(CString(msg[at..])) else None
      else None
  }

  // Words followed by a table: word i points to a place in the table.
  lemma IntoTable(ws: seq<int>, table: Bytes, i: nat)
    requires i < |ws| && 0 <= ws[i] < |table| < 0x1_0000_0000
    ensures |Words(ws)| == 4 * |ws| && Word(Words(ws) + table, i) == ws[i]
    ensures (Words(ws) + table)[4 * |ws| + ws[i]..] == table[ws[i]..]
  {
    WordAt(ws, table, i);
  }

  lemma IndexRoundTrip(names: seq<Bytes>, i: nat)
    requires i < |names| && |Packed(Distinct(names))| < 0x1_0000_0000 &&
      forall k :: 0 <= k < |names| ==> NoNul(names[k])
    ensures Word(Payload(names), i) == Indices(names)[i] < |Packed(Distinct(names))|
    ensures 4 * |names| + Indices(names)[i] <= |Payload(names)|
    ensures CString(Payload(names)[4 * |names| + Indices(names)[i]..]) == names[i]
  {
    hide EncodeInt, DecodeUnsigned, Words, Word, CString, Packed, Distinct, Offset;
    var d, ws := Distinct(names), Indices(names);
    assert forall k :: 0 <= k < |d| ==> d[k] in names;
    LookupAlone(d, names[i]);
    assert ws[i] == Offset(d, names[i]);
    IntoTable(ws, Packed(d), i);
  }

  lemma HostnameHeaderReads(width: nat, length: nat)
    requires 0 < width && 0 < length < 0x8000_0000 && width < 0x8000_0000
    ensures var h := HostnameHeader(width, length);
      Fields(h) && NumTasks(h) == width && StrtabBegin(h) == Some(HEADER_SIZE + 4 * width)
  {
  }

  lemma MessageHeader(names: seq<Bytes>)
    requires names != [] && |Payload(names)| < 0x8000_0000
    ensures DecodeHeader(Message(names)) == HostnameHeader(|names|, |Payload(names)|)
    ensures |Message(names)| == HEADER_SIZE + |Payload(names)|
    ensures Message(names)[HEADER_SIZE..] == Payload(names)
    ensures NumTasks(HostnameHeader(|names|, |Payload(names)|)) == |names|
    ensures StrtabBegin(HostnameHeader(|names|, |Payload(names)|)) == Some(HEADER_SIZE + 4 * |names|)
  {
    hide EncodeInt, DecodeUnsigned, EncodeHeader, DecodeHeader, HostnameHeader;
    var payload := Payload(names);
    WordsConcat(Indices(names), []);
    HostnameHeaderReads(|names|, |payload|);
    HeaderRoundTrip(HostnameHeader(|names|, |payload|), payload);
  }

  lemma PayloadSize(names: seq<Bytes>)
    ensures |Payload(names)| >= 4 * |names|
  {
    WordsConcat(Indices(names), []);
  }

  lemma HostAtReads(msg: Bytes, h: Header, strtab: nat, i: nat, at: nat)
    requires DecodeHeader(msg) == h && StrtabBegin(h) == Some(strtab) && i < NumTasks(h) && HEADER_SIZE <= |msg|
    requires Word(msg[HEADER_SIZE..], i) == at && strtab + at <= |msg|
    ensures HostAt(msg, i) == Some(CString(msg[strtab + at..]))
  {
  }

  lemma HostAtIs(names: seq<Bytes>, msg: Bytes, h: Header, i: nat)
    requires i < |names| && |Payload(names)| < 0x8000_0000 && forall k :: 0 <= k < |names| ==> NoNul(names[k])
    requires HEADER_SIZE <= |msg| && msg[HEADER_SIZE..] == Payload(names) && DecodeHeader(msg) == h
    requires NumTasks(h) == |names| && StrtabBegin(h) == Some(HEADER_SIZE + 4 * |names|)
    ensures HostAt(msg, i) == Some(names[i])
  {
    hide EncodeInt, DecodeUnsigned, Word, CString, HostAt, Indices, Packed, Distinct;
    IndexRoundTrip(names, i);
    var at, strtab := Indices(names)[i], HEADER_SIZE + 4 * |names|;
    assert msg[strtab + at..] == msg[HEADER_SIZE..][4 * |names| + at..];
    HostAtReads(msg, h, strtab, i, at);
  }

  // Whatever the number of daemons, on both sides of the switch from 16 to 32 bits, the reader of the message
  // recovers their number and every name.
  lemma MessageRoundTrip(names: seq<Bytes>)
    requires names != [] && |Payload(names)| < 0x8000_0000 && forall k :: 0 <= k < |names| ==> NoNul(names[k])
    ensures var h := DecodeHeader(Message(names));
      h.msgclass == FETOBE && h.kind == HOSTNAME && NumTasks(h) == |names| &&
        HEADER_SIZE + h.lmonLength + h.usrLength == |Message(names)|
    ensures forall i: nat :: i < |names| ==> HostAt(Message(names), i) == Some(names[i])
  {
    MessageHeader(names);
    forall i: nat | i < |names|
      ensures HostAt(Message(names), i) == Some(names[i])
    {
      HostAtIs(names, Message(names), HostnameHeader(|names|, |Payload(names)|), i);
    }
  }

  // Where everything lies in the message: four bytes for each daemon, the place of its host in the table of strings,
  // and behind the last of them the strings.
  lemma HostLayout(names: seq<Bytes>, i: nat)
    requires |Payload(names)| < 0x8000_0000 && i < |names| && forall k :: 0 <= k < |names| ==> NoNul(names[k])
    ensures var msg := Message(names);
      |msg| >= 28 && 28 + 4 * |names| + Word(msg[28..], i) <= |msg| &&
      CString(msg[28 + 4 * |names| + Word(msg[28..], i)..]) == names[i]
  {
    hide Message, CString, Word, DecodeHeader;
    MessageRoundTrip(names);
    assert HostAt(Message(names), i) == Some(names[i]);
  }

  // ----- the packer

  // What is known of a name: its offset in the string table, and whether the string has been copied.
  datatype Known = Known(offset: nat, copied: bool)

  // First pass: the offset of every distinct name among the first i.
  ghost predicate Measured(names: seq<Bytes>, i: nat, table: map<Bytes, Known>, offset: nat) {
    i <= |names| &&
    var d := Distinct(names[..i]);
    offset == |Packed(d)| && (forall x :: x in table <==> x in d) &&
      forall x :: x in d ==> table[x] == Known(Offset(d, x), false)
  }

  lemma MeasureOne(names: seq<Bytes>, i: nat, table: map<Bytes, Known>, offset: nat)
    requires Measured(names, i, table, offset) && i < |names|
    ensures names[i] in table ==> Measured(names, i + 1, table, offset)
    ensures names[i] !in table ==>
      Measured(names, i + 1, table[names[i] := Known(offset, false)], offset + |names[i]| + 1)
  {
    hide Packed, Offset;
    var d, x := Distinct(names[..i]), names[i];
    assert names[..i + 1][..i] == names[..i];
    if x !in table {
      OffsetOfNew(d, x);
      forall y | y in d
        ensures Offset(d + [x], y) == Offset(d, y)
      {
        OffsetStays(d, y, x);
      }
    }
  }

  // Second pass: the strings of the first i names have been copied.
  ghost predicate Copied(names: seq<Bytes>, i: nat, table: map<Bytes, Known>) {
    i <= |names| && (forall x :: x in table <==> x in names) &&
    forall x :: x in names ==> table[x] == Known(Offset(Distinct(names), x), x in names[..i])
  }

  lemma CopiedNext(names: seq<Bytes>, i: nat, table: map<Bytes, Known>)
    requires Copied(names, i, table) && i < |names|
    ensures Copied(names, i + 1, table[names[i] := table[names[i]].(copied := true)])
  {
    assert names[..i + 1] == names[..i] + [names[i]];
  }

  lemma NextIndex(names: seq<Bytes>, i: nat)
    requires i < |names|
    ensures |Words(Indices(names)[..i])| == 4 * i
    ensures Words(Indices(names)[..i + 1]) == Words(Indices(names)[..i]) + EncodeInt(Offset(Distinct(names), names[i]))
  {
    var all := Indices(names);
    assert all[..i + 1] == all[..i] + [all[i]];
    WordsConcat(all[..i], [all[i]]);
    assert Words([all[i]]) == EncodeInt(all[i]) + Words([]);
  }

  // The indices of the first i names, and the strings they refer to.
  ghost predicate Front(names: seq<Bytes>, i: nat, words: Bytes, strings: Bytes) {
    i <= |names| && words == Words(Indices(names)[..i]) && strings == Packed(Distinct(names[..i]))
  }

  lemma FrontStarts(names: seq<Bytes>)
    ensures Front(names, 0, [], [])
  {
    assert Indices(names)[..0] == [] && names[..0] == [];
  }

  lemma FrontNext(names: seq<Bytes>, i: nat, words: Bytes, strings: Bytes)
    requires Front(names, i, words, strings) && i < |names|
    ensures var next := if names[i] in names[..i] then strings else strings + names[i] + [0];
      Front(names, i + 1, words + EncodeInt(Offset(Distinct(names), names[i])), next) &&
      |next| <= |Packed(Distinct(names))|
  {
    hide EncodeInt, DecodeUnsigned;
    NextIndex(names, i);
    assert names[..i + 1][..i] == names[..i];
    DistinctGrows(names, i + 1);
    if names[i] !in names[..i] { OffsetOfNew(Distinct(names[..i]), names[i]); }
  }

  lemma FrontEnds(names: seq<Bytes>, words: Bytes, strings: Bytes)
    requires Front(names, |names|, words, strings)
    ensures words + strings == Payload(names) && |strings| == |Packed(Distinct(names))|
  {
    assert Indices(names)[..|names|] == Indices(names) && names[..|names|] == names;
  }

  method Measure(gathered: Bytes, width: nat) returns (table: map<Bytes, Known>, offset: nat)
    ensures Measured(Names(gathered, width), width, table, offset)
  {
    table, offset := map[], 0;
    ghost var names := Names(gathered, width);
    assert names[..0] == [];
    for i := 0 to width
      invariant Measured(names, i, table, offset)
    {
      var name := NameAt(gathered, i);
      MeasureOne(names, i, table, offset);
      if name !in table {
        table := table[name := Known(offset, false)];
        offset := offset + |name| + 1;
      }
    }
  }

  // The message while it is being packed: some of the indices, and some of the strings.
  ghost predicate PackedSoFar(msg: Bytes, header: Bytes, words: Bytes, wordGap: Bytes, table: Bytes, tableGap: Bytes) {
    msg == header + words + wordGap + table + tableGap
  }

  lemma PackDone(msg: Bytes, header: Bytes, words: Bytes, table: Bytes)
    requires PackedSoFar(msg, header, words, [], table, [])
    ensures msg == header + (words + table)
  {
  }

  // One index goes to the end of the indices, and a string, unless it is there already, to the end of the strings.
  method PackOne(msg: array<Byte>, at: nat, strtabEnd: nat, name: Bytes, known: Known, ghost header: Bytes,
                 ghost words: Bytes, ghost wordGap: Bytes, ghost table: Bytes, ghost tableGap: Bytes)
    returns (newEnd: nat)
    requires PackedSoFar(msg[..], header, words, wordGap, table, tableGap) && |wordGap| >= INT_SIZE
    requires at == |header| + |words| && strtabEnd == at + |wordGap| + |table| && (known.copied || |tableGap| > |name|)
    modifies msg
    ensures newEnd == if known.copied then strtabEnd else strtabEnd + |name| + 1
    ensures known.copied ==>
      PackedSoFar(msg[..], header, words + EncodeInt(known.offset), wordGap[INT_SIZE..], table, tableGap)
    ensures !known.copied ==>
      PackedSoFar(msg[..], header, words + EncodeInt(known.offset), wordGap[INT_SIZE..], table + name + [0],
        tableGap[|name| + 1..])
  {
    var index := EncodeInt(known.offset);
    UnsignedRoundTrip(known.offset);
    ghost var front, back := header + words, table + tableGap;
    assert front + wordGap + back == header + words + wordGap + table + tableGap;
    Fill(msg, at, index, front, wordGap, back);
    ghost var upTo := header + (words + index) + wordGap[INT_SIZE..] + table;
    assert msg[..] == upTo + tableGap + [];
    newEnd := strtabEnd;
    if !known.copied {
      Fill(msg, strtabEnd, name + [0], upTo, tableGap, []);
      newEnd := strtabEnd + |name| + 1;
    }
  }

  // The packer: the message is complete, and the second pass ends just where the first one said it would.
  method Pack(gathered: Bytes, width: nat) returns (msg: array<Byte>, strtabEnd: nat)
    requires width > 0 && |Payload(Names(gathered, width))| < 0x8000_0000
    ensures fresh(msg) && msg[..] == Message(Names(gathered, width)) && strtabEnd == msg.Length
  {
    hide EncodeInt, DecodeUnsigned, Words, Packed, Distinct, NameAt;
    ghost var names := Names(gathered, width);
    var table, offset := Measure(gathered, width);
    assert names[..width] == names;
    WordsConcat(Indices(names), []);
    var header := EncodeHeader(HostnameHeader(width, 4 * width + offset));
    HeaderRoundTrip(HostnameHeader(width, 4 * width + offset), []);
    assert |Payload(names)| == 4 * width + offset;
    msg := new Byte[HEADER_SIZE + 4 * width + offset](_ => 0);
    Fill(msg, 0, header, [], msg[..], []);
    strtabEnd := PackBody(msg, gathered, width, table, header, msg[HEADER_SIZE..]);
  }

  // All that is true of the message after i rounds of the second pass.
  ghost predicate Packing(msg: Bytes, header: Bytes, names: seq<Bytes>, i: nat,
                          words: Bytes, wordGap: Bytes, strings: Bytes, tableGap: Bytes) {
    PackedSoFar(msg, header, words, wordGap, strings, tableGap) && Front(names, i, words, strings) &&
    |words| == 4 * i && |wordGap| == 4 * (|names| - i) && |strings| + |tableGap| == |Packed(Distinct(names))|
  }

  lemma Nothing(header: Bytes, gap: Bytes, k: nat)
    requires k <= |gap|
    ensures PackedSoFar(header + gap, header, [], gap[..k], [], gap[k..])
  {
    assert header + [] + gap[..k] + [] + gap[k..] == header + (gap[..k] + gap[k..]);
  }

  lemma PackingStarts(msg: Bytes, header: Bytes, names: seq<Bytes>, gap: Bytes)
    requires msg == header + gap && |gap| == 4 * |names| + |Packed(Distinct(names))|
    ensures Packing(msg, header, names, 0, [], gap[..4 * |names|], [], gap[4 * |names|..])
  {
    FrontStarts(names);
    Nothing(header, gap, 4 * |names|);
  }

  lemma PackingEnds(msg: Bytes, header: Bytes, names: seq<Bytes>, words: Bytes, wordGap: Bytes, strings: Bytes,
                    tableGap: Bytes)
    requires Packing(msg, header, names, |names|, words, wordGap, strings, tableGap)
    ensures msg == header + Payload(names) && |header| + |words| + |wordGap| + |strings| == |msg|
  {
    FrontEnds(names, words, strings);
    assert wordGap == [] && tableGap == [];
    PackDone(msg, header, words, strings);
  }

  // One round of the second pass.
  method PackRound(msg: array<Byte>, at: nat, strtabEnd: nat, name: Bytes, table: map<Bytes, Known>,
                   ghost header: Bytes, ghost names: seq<Bytes>, ghost i: nat,
                   ghost words: Bytes, ghost wordGap: Bytes, ghost strings: Bytes, ghost tableGap: Bytes)
    returns (newTable: map<Bytes, Known>, newEnd: nat,
             ghost newWords: Bytes, ghost newWordGap: Bytes, ghost newStrings: Bytes, ghost newTableGap: Bytes)
    requires i < |names| && name == names[i] && Copied(names, i, table)
    requires Packing(msg[..], header, names, i, words, wordGap, strings, tableGap)
    requires at == |header| + |words| && strtabEnd == at + |wordGap| + |strings|
    modifies msg
    ensures Copied(names, i + 1, newTable)
    ensures Packing(msg[..], header, names, i + 1, newWords, newWordGap, newStrings, newTableGap)
    ensures newEnd == |header| + |newWords| + |newWordGap| + |newStrings|
  {
    hide EncodeInt, Distinct, Packed, Offset;
    assert name in names;
    var entry := table[name];
    FrontNext(names, i, words, strings);
    CopiedNext(names, i, table);
    newEnd := PackOne(msg, at, strtabEnd, name, entry, header, words, wordGap, strings, tableGap);
    newWords, newWordGap, newStrings, newTableGap := words + EncodeInt(entry.offset), wordGap[INT_SIZE..], strings,
      tableGap;
    if !entry.copied { newStrings, newTableGap := strings + name + [0], tableGap[|name| + 1..]; }
    newTable := table[name := entry.(copied := true)];
  }

  // The second pass over a message with its header in place.
  method PackBody(msg: array<Byte>, gathered: Bytes, width: nat, known: map<Bytes, Known>, ghost header: Bytes,
                  ghost gap: Bytes)
    returns (strtabEnd: nat)
    requires msg[..] == header + gap && |header| == HEADER_SIZE && 4 * width <= |gap|
    requires Measured(Names(gathered, width), width, known, |gap| - 4 * width)
    modifies msg
    ensures msg[..] == header + Payload(Names(gathered, width)) && strtabEnd == msg.Length
  {
    ghost var names := Names(gathered, width);
    assert names[..width] == names;
    PackingStarts(msg[..], header, names, gap);
    var table, at := known, HEADER_SIZE;
    strtabEnd := HEADER_SIZE + 4 * width;
    ghost var wordGap, tableGap := gap[..4 * width], gap[4 * width..];
    ghost var words, strings: Bytes := [], [];
    for i := 0 to width
      invariant Copied(names, i, table) && Packing(msg[..], header, names, i, words, wordGap, strings, tableGap)
      invariant at == HEADER_SIZE + |words| && strtabEnd == at + |wordGap| + |strings|
    {
      table, strtabEnd, words, wordGap, strings, tableGap :=
        PackRound(msg, at, strtabEnd, NameAt(gathered, i), table, header, names, i, words, wordGap, strings, tableGap);
      at := at + INT_SIZE;
    }
    PackingEnds(msg[..], header, names, words, wordGap, strings, tableGap);
  }
}
