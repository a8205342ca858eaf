// The remote process descriptor table (RPDTAB): shipped by the engine, kept and passed on by the front end,
// broadcast to all back ends, each of which takes the entries of its own host.
module Rpdtab {
  import opened Bytestream
  import opened Network
  import opened Lmonp
  import opened StringTable

  const ENTRY_SIZE: nat := 20

  datatype ProcDesc = ProcDesc(host: Bytes, exe: Bytes, pid: int, rank: int, cnode: int)

  // An unsigned word read as an int.
  function Signed(u: int): (v: int) { if u < 0x8000_0000 then u else u - 0x1_0000_0000 }

  lemma SignedRoundTrip(v: int)
    requires IsInt32(v)
    ensures Signed(Unsigned(v)) == v
  {
  }

  // ----- what the engine ships

  function NamesOf(tasks: seq<ProcDesc>): (list: seq<Bytes>) {
    if tasks == [] then []
    else NamesOf(tasks[..|tasks| - 1]) + [tasks[|tasks| - 1].exe, tasks[|tasks| - 1].host]
  }

  function Fields5(t: ProcDesc, strings: seq<Bytes>): (list: seq<int>)
    requires t.host in strings && t.exe in strings
  {
    [Offset(strings, t.host), Offset(strings, t.exe), t.pid, t.rank, t.cnode]
  }

  ghost predicate Covered(tasks: seq<ProcDesc>, strings: seq<Bytes>) {
    forall i :: 0 <= i < |tasks| ==> tasks[i].host in strings && tasks[i].exe in strings
  }

  function EntryWords(tasks: seq<ProcDesc>, strings: seq<Bytes>): (ws: seq<int>)
    requires Covered(tasks, strings)
    ensures |ws| == 5 * |tasks|
  {
    if tasks == [] then []
    else EntryWords(tasks[..|tasks| - 1], strings) + Fields5(tasks[|tasks| - 1], strings)
  }

  lemma {:induction false} NamesCover(tasks: seq<ProcDesc>)
    ensures Covered(tasks, NamesOf(tasks)) && Covered(tasks, Distinct(NamesOf(tasks)))
  {
    if tasks != [] {
      var front, last := tasks[..|tasks| - 1], tasks[|tasks| - 1];
      NamesCover(front);
      var names := NamesOf(front) + [last.exe, last.host];
      assert names[|names| - 2] == last.exe && names[|names| - 1] == last.host;
      forall i | 0 <= i < |tasks|
        ensures tasks[i].host in names && tasks[i].exe in names
      {
        if i < |front| { assert front[i].host in NamesOf(front) && front[i].exe in NamesOf(front); }
      }
    }
  }

  ghost predicate Plain(tasks: seq<ProcDesc>) {
    forall i :: 0 <= i < |tasks| ==> NoNul(tasks[i].host) && NoNul(tasks[i].exe)
  }

  lemma {:induction false} NamesArePlain(tasks: seq<ProcDesc>)
    requires Plain(tasks)
    ensures forall x :: x in NamesOf(tasks) ==> NoNul(x)
  {
    if tasks != [] { NamesArePlain(tasks[..|tasks| - 1]); }
  }

  function Payload(tasks: seq<ProcDesc>): (b: Bytes) {
    NamesCover(tasks);
    Words(EntryWords(tasks, Distinct(NamesOf(tasks)))) + Packed(Distinct(NamesOf(tasks)))
  }

  // How many names were new when they came up as an executable, and as a host.
  function Uniques(tasks: seq<ProcDesc>): (out: (nat, nat)) {
    if tasks == [] then (0, 0)
    else
      var front, last := tasks[..|tasks| - 1], tasks[|tasks| - 1];
      var seen, (execs, hosts) := NamesOf(front), Uniques(front);
      (if last.exe in seen then execs else execs + 1,
       if last.host in seen || last.host == last.exe then hosts else hosts + 1)
  }

  // Every string of the table has been counted once.
  lemma {:induction false} UniquesAreAll(tasks: seq<ProcDesc>)
    ensures Uniques(tasks).0 + Uniques(tasks).1 == |Distinct(NamesOf(tasks))|
  {
    if tasks != [] {
      var front, last := tasks[..|tasks| - 1], tasks[|tasks| - 1];
      UniquesAreAll(front);
      var names := NamesOf(front);
      var more := names + [last.exe];
      assert more[..|names|] == names;
      assert NamesOf(tasks) == more + [last.host];
      assert NamesOf(tasks)[..|more|] == more;
    }
  }

  ghost function Execs(tasks: seq<ProcDesc>): (all: set<Bytes>) { set i | 0 <= i < |tasks| :: tasks[i].exe }
  ghost function HostNames(tasks: seq<ProcDesc>): (all: set<Bytes>) { set i | 0 <= i < |tasks| :: tasks[i].host }

  // The names that come up as an executable before they come up as a host, and the other way round; each task's
  // executable comes before its host.
  ghost function ExecsFirst(tasks: seq<ProcDesc>): (all: set<Bytes>) {
    set i | 0 <= i < |tasks| && (forall j :: 0 <= j < i ==> tasks[j].host != tasks[i].exe) :: tasks[i].exe
  }
  ghost function HostsFirst(tasks: seq<ProcDesc>): (all: set<Bytes>) {
    set i | 0 <= i < |tasks| && (forall j :: 0 <= j <= i ==> tasks[j].exe != tasks[i].host) :: tasks[i].host
  }

  lemma {:induction false} NamesSeen(tasks: seq<ProcDesc>, x: Bytes)
    ensures x in NamesOf(tasks) <==> x in Execs(tasks) || x in HostNames(tasks)
  {
    if tasks != [] {
      var front, last := tasks[..|tasks| - 1], tasks[|tasks| - 1];
      NamesSeen(front, x);
      OneMoreTask(front, last);
      assert tasks == front + [last];
    }
  }

  lemma OneMoreTask(front: seq<ProcDesc>, last: ProcDesc)
    ensures Execs(front + [last]) == Execs(front) + {last.exe}
    ensures HostNames(front + [last]) == HostNames(front) + {last.host}
  {
    var tasks := front + [last];
    assert tasks[|front|] == last && forall i :: 0 <= i < |front| ==> tasks[i] == front[i];
  }

  // A name that has come up as an executable only is counted as one; so is a host.
  lemma {:induction false} FirstAmong(tasks: seq<ProcDesc>, x: Bytes)
    ensures x in Execs(tasks) && x !in HostNames(tasks) ==> x in ExecsFirst(tasks)
    ensures x in HostNames(tasks) && x !in Execs(tasks) ==> x in HostsFirst(tasks)
  {
    if x in Execs(tasks) && x !in HostNames(tasks) {
      var i :| 0 <= i < |tasks| && tasks[i].exe == x;
      assert forall j :: 0 <= j < i ==> tasks[j].host in HostNames(tasks);
    }
    if x in HostNames(tasks) && x !in Execs(tasks) {
      var i :| 0 <= i < |tasks| && tasks[i].host == x;
      assert forall j :: 0 <= j <= i ==> tasks[j].exe in Execs(tasks);
    }
  }

  lemma ExecComes(front: seq<ProcDesc>, last: ProcDesc, x: Bytes)
    requires x in ExecsFirst(front + [last])
    ensures x in ExecsFirst(front) || (x == last.exe && x !in HostNames(front))
  {
    var tasks := front + [last];
    var i :| 0 <= i < |tasks| && (forall j :: 0 <= j < i ==> tasks[j].host != tasks[i].exe) && tasks[i].exe == x;
    assert forall j :: 0 <= j < |front| ==> front[j] == tasks[j];
    if i < |front| { assert front[i].exe == x && forall j :: 0 <= j < i ==> front[j].host != front[i].exe; }
  }

  lemma ExecStays(front: seq<ProcDesc>, last: ProcDesc, x: Bytes)
    requires x in ExecsFirst(front) || (x == last.exe && x !in HostNames(front))
    ensures x in ExecsFirst(front + [last])
  {
    var tasks := front + [last];
    assert tasks[|front|] == last && forall j :: 0 <= j < |front| ==> tasks[j] == front[j];
    if x in ExecsFirst(front) {
      var i :| 0 <= i < |front| && (forall j :: 0 <= j < i ==> front[j].host != front[i].exe) && front[i].exe == x;
      assert tasks[i].exe == x && forall j :: 0 <= j < i ==> tasks[j].host != tasks[i].exe;
    } else {
      assert forall j :: 0 <= j < |front| ==> tasks[j].host in HostNames(front);
    }
  }

  lemma ExecsGrow(front: seq<ProcDesc>, last: ProcDesc)
    ensures ExecsFirst(front + [last]) == ExecsFirst(front) + if last.exe in HostNames(front) then {} else {last.exe}
  {
    hide ExecsFirst, HostNames;
    forall x
      ensures x in ExecsFirst(front + [last]) <==>
        x in ExecsFirst(front) || (x == last.exe && x !in HostNames(front))
    {
      if x in ExecsFirst(front + [last]) { ExecComes(front, last, x); }
      if x in ExecsFirst(front) || (x == last.exe && x !in HostNames(front)) { ExecStays(front, last, x); }
    }
  }

  lemma HostComes(front: seq<ProcDesc>, last: ProcDesc, x: Bytes)
    requires x in HostsFirst(front + [last])
    ensures x in HostsFirst(front) || (x == last.host && x !in Execs(front) && x != last.exe)
  {
    var tasks := front + [last];
    var i :| 0 <= i < |tasks| && (forall j :: 0 <= j <= i ==> tasks[j].exe != tasks[i].host) && tasks[i].host == x;
    assert forall j :: 0 <= j < |front| ==> front[j] == tasks[j];
    if i < |front| { assert front[i].host == x && forall j :: 0 <= j <= i ==> front[j].exe != front[i].host; }
  }

  lemma HostStays(front: seq<ProcDesc>, last: ProcDesc, x: Bytes)
    requires x in HostsFirst(front) || (x == last.host && x !in Execs(front) && x != last.exe)
    ensures x in HostsFirst(front + [last])
  {
    var tasks := front + [last];
    assert tasks[|front|] == last && forall j :: 0 <= j < |front| ==> tasks[j] == front[j];
    if x in HostsFirst(front) {
      var i :| 0 <= i < |front| && (forall j :: 0 <= j <= i ==> front[j].exe != front[i].host) && front[i].host == x;
      assert tasks[i].host == x && forall j :: 0 <= j <= i ==> tasks[j].exe != tasks[i].host;
    } else {
      assert forall j :: 0 <= j < |front| ==> tasks[j].exe in Execs(front);
    }
  }

  lemma HostsGrow(front: seq<ProcDesc>, last: ProcDesc)
    ensures HostsFirst(front + [last]) ==
      HostsFirst(front) + if last.host in Execs(front) + {last.exe} then {} else {last.host}
  {
    hide HostsFirst, Execs;
    forall x
      ensures x in HostsFirst(front + [last]) <==>
        x in HostsFirst(front) || (x == last.host && x !in Execs(front) && x != last.exe)
    {
      if x in HostsFirst(front + [last]) { HostComes(front, last, x); }
      if x in HostsFirst(front) || (x == last.host && x !in Execs(front) && x != last.exe) {
        HostStays(front, last, x);
      }
    }
  }

  lemma FirstWithin(tasks: seq<ProcDesc>)
    ensures ExecsFirst(tasks) <= Execs(tasks) && HostsFirst(tasks) <= HostNames(tasks)
  {
  }

  lemma OneMoreName(names: set<Bytes>, x: Bytes)
    ensures |names + {x}| == |names| + if x in names then 0 else 1
  {
    if x in names { assert names + {x} == names; }
  }

  lemma ExecCounted(front: seq<ProcDesc>, last: ProcDesc)
    ensures |ExecsFirst(front + [last])| == |ExecsFirst(front)| + if last.exe in NamesOf(front) then 0 else 1
  {
    hide ExecsFirst, Execs, HostNames, NamesOf;
    NamesSeen(front, last.exe);
    ExecsGrow(front, last);
    FirstAmong(front, last.exe);
    FirstWithin(front);
    if last.exe in HostNames(front) {
      assert ExecsFirst(front) + {} == ExecsFirst(front);
    } else {
      OneMoreName(ExecsFirst(front), last.exe);
    }
  }

  lemma HostCounted(front: seq<ProcDesc>, last: ProcDesc)
    ensures |HostsFirst(front + [last])| ==
      |HostsFirst(front)| + if last.host in NamesOf(front) || last.host == last.exe then 0 else 1
  {
    hide HostsFirst, Execs, HostNames, NamesOf;
    NamesSeen(front, last.host);
    HostsGrow(front, last);
    FirstAmong(front, last.host);
    FirstWithin(front);
    if last.host in Execs(front) + {last.exe} {
      assert HostsFirst(front) + {} == HostsFirst(front);
    } else {
      OneMoreName(HostsFirst(front), last.host);
    }
  }

  // The counts are those of the names that come up as an executable first, and as a host first.
  lemma {:induction false} UniquesCount(tasks: seq<ProcDesc>)
    ensures Uniques(tasks).0 == |ExecsFirst(tasks)| && Uniques(tasks).1 == |HostsFirst(tasks)|
  {
    hide ExecsFirst, HostsFirst, NamesOf;
    if tasks == [] {
      NothingFirst();
    } else {
      var front, last := tasks[..|tasks| - 1], tasks[|tasks| - 1];
      assert tasks == front + [last];
      UniquesCount(front);
      ExecCounted(front, last);
      HostCounted(front, last);
    }
  }

  lemma NothingFirst()
    ensures ExecsFirst([]) == {} && HostsFirst([]) == {}
  {
  }

  // If no host bears the name of an executable, these are the distinct executables and the distinct hosts.
  lemma HostsAreCounted(tasks: seq<ProcDesc>)
    requires Execs(tasks) !! HostNames(tasks)
    ensures Uniques(tasks).0 == |Execs(tasks)| && Uniques(tasks).1 == |HostNames(tasks)|
  {
    hide ExecsFirst, HostsFirst, Execs, HostNames;
    UniquesCount(tasks);
    FirstWithin(tasks);
    forall x
      ensures x in Execs(tasks) ==> x in ExecsFirst(tasks)
      ensures x in HostNames(tasks) ==> x in HostsFirst(tasks)
    {
      FirstAmong(tasks, x);
    }
    assert ExecsFirst(tasks) == Execs(tasks) && HostsFirst(tasks) == HostNames(tasks);
  }

  function ShipHeader(tasks: seq<ProcDesc>): (h: Header) {
    var small := |tasks| < NTASKS_THRE;
    SetHeader(FETOFE, PROCTABLE_AVAIL, if small then |tasks| else NTASKS_THRE, 0, Uniques(tasks).0, Uniques(tasks).1,
              if small then 0 else |tasks|, |Payload(tasks)|, 0)
  }

  function Shipped(tasks: seq<ProcDesc>): (b: Bytes) { EncodeHeader(ShipHeader(tasks)) + Payload(tasks) }

  // The front end changes class and type in place before it passes the message on.
  function PassedOn(msg: Bytes): (b: Bytes)
    requires |msg| >= HEADER_SIZE
  {
    EncodeHeader(Relabel(DecodeHeader(msg))) + msg[HEADER_SIZE..]
  }

  // ----- how the message is read

  function UnsignedAt(msg: Bytes, at: nat): (v: nat) {
    if at + INT_SIZE <= |msg| then DecodeUnsigned(msg[at..at + INT_SIZE]) else 0
  }

  function StringFrom(msg: Bytes, at: nat): (b: Bytes) { if at <= |msg| then CString(msg[at..]) else [] }

  function EntryAt(msg: Bytes, at: nat, strtab: nat): (procDesc: ProcDesc) {
    ProcDesc(StringFrom(msg, strtab + UnsignedAt(msg, at)),
             StringFrom(msg, strtab + UnsignedAt(msg, at + INT_SIZE)),
             Signed(UnsignedAt(msg, at + 8)),
             Signed(UnsignedAt(msg, at + 12)),
             Signed(UnsignedAt(msg, at + 16)))
  }

  function EntriesOf(msg: Bytes, strtab: nat, n: nat): (list: seq<ProcDesc>) {
    seq(n, i requires 0 <= i < n => EntryAt(msg, HEADER_SIZE + 20 * i, strtab))
  }

  // The flat table in a message, if the message has one.
  function Table(msg: Bytes): (o: Option<seq<ProcDesc>>) {
    var h := DecodeHeader(msg);
    match StrtabBegin(h)
    case None => None
    case Some(strtab) => Some(EntriesOf(msg, strtab, NumTasks(h)))
  }

  // ----- round trip

  ghost predicate Shippable(tasks: seq<ProcDesc>) {
    tasks != [] && |Payload(tasks)| < 0x8000_0000 - HEADER_SIZE && Plain(tasks) &&
    forall i :: 0 <= i < |tasks| ==> IsInt32(tasks[i].pid) && IsInt32(tasks[i].rank) && IsInt32(tasks[i].cnode)
  }

  lemma {:induction false} EntryWordsAt(tasks: seq<ProcDesc>, strings: seq<Bytes>, i: nat)
    requires Covered(tasks, strings) && i < |tasks|
    ensures EntryWords(tasks, strings)[5 * i..5 * i + PROCDESC_FIELDS] == Fields5(tasks[i], strings)
    decreases |tasks|
  {
    var front := tasks[..|tasks| - 1];
    if i < |front| {
      EntryWordsAt(front, strings, i);
      assert EntryWords(tasks, strings)[..5 * |front|] == EntryWords(front, strings);
    }
  }

  // Word j of the payload is the word at its place in the message.
  lemma WordBehind(header: Bytes, payload: Bytes, j: nat)
    requires |header| == HEADER_SIZE && 4 * j + 4 <= |payload|
    ensures UnsignedAt(header + payload, HEADER_SIZE + 4 * j) == Word(payload, j)
  {
    hide EncodeInt, DecodeUnsigned;
    Behind(header, payload, 4 * j, 4 * j + 4);
  }

  lemma StringBehind(header: Bytes, words: Bytes, table: Bytes, at: nat)
    requires at <= |table|
    ensures StringFrom(header + (words + table), |header| + |words| + at) == CString(table[at..])
  {
    hide CString;
    Behind(words, table, at, at);
    Behind(header, words + table, |words| + at, |words| + at);
  }

  // The five words of an entry.
  ghost predicate FiveAt(msg: Bytes, at: nat, five: seq<int>) {
    |five| == PROCDESC_FIELDS &&
      forall k: nat :: k < PROCDESC_FIELDS ==> UnsignedAt(msg, at + 4 * k) == Unsigned(five[k])
  }

  lemma OneBehind(header: Bytes, ws: seq<int>, table: Bytes, i: nat)
    requires |header| == HEADER_SIZE && i < |ws|
    ensures UnsignedAt(header + (Words(ws) + table), HEADER_SIZE + 4 * i) == Unsigned(ws[i])
  {
    hide EncodeInt, DecodeUnsigned, Words, Word, UnsignedAt, Unsigned;
    WordsConcat(ws, []);
    WordAt(ws, table, i);
    WordBehind(header, Words(ws) + table, i);
  }

  lemma FiveBehind(header: Bytes, ws: seq<int>, table: Bytes, i: nat, five: seq<int>)
    requires |header| == HEADER_SIZE && 5 * i + 5 <= |ws| && ws[5 * i..5 * i + 5] == five
    ensures FiveAt(header + (Words(ws) + table), HEADER_SIZE + 20 * i, five)
  {
    hide Words, UnsignedAt, Unsigned;
    forall k: nat | k < PROCDESC_FIELDS
      ensures UnsignedAt(header + (Words(ws) + table), HEADER_SIZE + 20 * i + 4 * k) == Unsigned(five[k])
    {
      OneBehind(header, ws, table, 5 * i + k);
      assert ws[5 * i + k] == five[k];
    }
  }

  // What the five words of an entry say.
  lemma EntryIs(msg: Bytes, at: nat, strtab: nat, five: seq<int>, t: ProcDesc)
    requires FiveAt(msg, at, five) && IsUint32(five[0]) && IsUint32(five[1])
    requires StringFrom(msg, strtab + five[0]) == t.host && StringFrom(msg, strtab + five[1]) == t.exe
    requires five[2..] == [t.pid, t.rank, t.cnode] && IsInt32(t.pid) && IsInt32(t.rank) && IsInt32(t.cnode)
    ensures EntryAt(msg, at, strtab) == t
  {
    hide DecodeUnsigned, EncodeInt, UnsignedAt, StringFrom, Unsigned;
    SignedRoundTrip(t.pid);
    SignedRoundTrip(t.rank);
    SignedRoundTrip(t.cnode);
    assert five[2] == five[2..][0] && five[3] == five[2..][1] && five[4] == five[2..][2];
    assert UnsignedAt(msg, at + 4 * 0) == five[0] && UnsignedAt(msg, at + 4 * 1) == five[1];
    assert UnsignedAt(msg, at + 4 * 2) == Unsigned(five[2]) && UnsignedAt(msg, at + 4 * 3) == Unsigned(five[3]);
    assert UnsignedAt(msg, at + 4 * 4) == Unsigned(five[4]);
  }

  // An entry whose two indices point to its names.
  lemma EntryFrom(header: Bytes, words: Bytes, table: Bytes, at: nat, five: seq<int>, t: ProcDesc)
    requires |five| == PROCDESC_FIELDS && |table| < 0x1_0000_0000 && FiveAt(header + (words + table), at, five)
    requires 0 <= five[0] < |table| && 0 <= five[1] < |table|
    requires CString(table[five[0]..]) == t.host && CString(table[five[1]..]) == t.exe
    requires five[2..] == [t.pid, t.rank, t.cnode] && IsInt32(t.pid) && IsInt32(t.rank) && IsInt32(t.cnode)
    ensures EntryAt(header + (words + table), at, |header| + |words|) == t
  {
    hide EncodeInt, DecodeUnsigned, EntryAt, StringFrom, CString, FiveAt;
    StringBehind(header, words, table, five[0]);
    StringBehind(header, words, table, five[1]);
    EntryIs(header + (words + table), at, |header| + |words|, five, t);
  }

  lemma FieldsPoint(tasks: seq<ProcDesc>, t: ProcDesc)
    requires Plain(tasks) && t in tasks
    ensures Covered(tasks, Distinct(NamesOf(tasks)))
    ensures var strings := Distinct(NamesOf(tasks)); var table := Packed(strings);
      t.host in strings && t.exe in strings && Offset(strings, t.host) < |table| && Offset(strings, t.exe) < |table| &&
      CString(table[Offset(strings, t.host)..]) == t.host && CString(table[Offset(strings, t.exe)..]) == t.exe
  {
    var strings := Distinct(NamesOf(tasks));
    NamesCover(tasks);
    NamesArePlain(tasks);
    assert forall k :: 0 <= k < |strings| ==> strings[k] in NamesOf(tasks);
    LookupAlone(strings, t.host);
    LookupAlone(strings, t.exe);
  }

  // Entry i of a message with the payload of `tasks` behind any header.
  lemma EntryRoundTrip(header: Bytes, tasks: seq<ProcDesc>, i: nat)
    requires Shippable(tasks) && |header| == HEADER_SIZE && i < |tasks|
    ensures EntryAt(header + Payload(tasks), HEADER_SIZE + 20 * i, HEADER_SIZE + 20 * |tasks|) == tasks[i]
  {
    hide EncodeInt, DecodeUnsigned, Words, Word, UnsignedAt, Unsigned, EntryAt, CString, Distinct, Packed, Offset,
         NamesOf, EntryWords, FiveAt;
    var strings, t := Distinct(NamesOf(tasks)), tasks[i];
    FieldsPoint(tasks, t);
    var ws, table, five := EntryWords(tasks, strings), Packed(strings), Fields5(t, strings);
    assert Payload(tasks) == Words(ws) + table;
    WordsConcat(ws, []);
    EntryWordsAt(tasks, strings, i);
    FiveBehind(header, ws, table, i, five);
    EntryFrom(header, Words(ws), table, HEADER_SIZE + 20 * i, five, t);
  }

  // Where everything lies in a table message: twenty bytes for each task (the places of its host and its executable in
  // the table of strings, its process id, its rank and its node), and behind the last of them the strings.
  lemma EntryLayout(tasks: seq<ProcDesc>, i: nat)
    requires Shippable(tasks) && i < |tasks|
    ensures var msg, at, strings, t := Shipped(tasks), 28 + 20 * i, 28 + 20 * |tasks|, tasks[i];
      (StringFrom(msg, strings + UnsignedAt(msg, at)) == t.host &&
       StringFrom(msg, strings + UnsignedAt(msg, at + 4)) == t.exe &&
       Signed(UnsignedAt(msg, at + 8)) == t.pid && Signed(UnsignedAt(msg, at + 12)) == t.rank &&
       Signed(UnsignedAt(msg, at + 16)) == t.cnode)
  {
    hide EncodeHeader, Payload, UnsignedAt, StringFrom, Signed, ShipHeader;
    ShipHeaderFits(tasks);
    HeaderRoundTrip(ShipHeader(tasks), []);
    EntryRoundTrip(EncodeHeader(ShipHeader(tasks)), tasks, i);
  }

  // The header of a table of n tasks, under either label.
  ghost predicate TableHeader(h: Header, n: nat) {
    Fields(h) && h.usrLength == 0 && h.lmonLength > 0 && NumTasks(h) == n &&
    ((h.msgclass == FETOFE && h.kind == PROCTABLE_AVAIL) || (h.msgclass == FETOBE && h.kind == PROCTAB))
  }

  lemma PayloadSize(tasks: seq<ProcDesc>)
    ensures |Payload(tasks)| >= 20 * |tasks|
  {
    NamesCover(tasks);
    WordsConcat(EntryWords(tasks, Distinct(NamesOf(tasks))), []);
  }

  lemma ShipHeaderFits(tasks: seq<ProcDesc>)
    requires Shippable(tasks)
    ensures TableHeader(ShipHeader(tasks), |tasks|) && TableHeader(Relabel(ShipHeader(tasks)), |tasks|)
    ensures ShipHeader(tasks).lmonLength == |Payload(tasks)|
  {
    hide EncodeInt, Payload, Uniques, Short;
    PayloadSize(tasks);
  }

  lemma EntriesRoundTrip(header: Bytes, tasks: seq<ProcDesc>)
    requires Shippable(tasks) && |header| == HEADER_SIZE
    ensures EntriesOf(header + Payload(tasks), HEADER_SIZE + 20 * |tasks|, |tasks|) == tasks
  {
    hide EncodeInt, DecodeUnsigned, Payload, EntryAt;
    forall i: nat | i < |tasks|
      ensures EntryAt(header + Payload(tasks), HEADER_SIZE + 20 * i, HEADER_SIZE + 20 * |tasks|) == tasks[i]
    {
      EntryRoundTrip(header, tasks, i);
    }
  }

  lemma TableBehind(h: Header, tasks: seq<ProcDesc>)
    requires Shippable(tasks) && TableHeader(h, |tasks|)
    ensures Table(EncodeHeader(h) + Payload(tasks)) == Some(tasks)
  {
    hide EncodeInt, DecodeUnsigned, EncodeHeader, Payload, EntriesOf, DecodeHeader;
    HeaderRoundTrip(h, Payload(tasks));
    EntriesRoundTrip(EncodeHeader(h), tasks);
  }

  // The table survives shipping, and the relabelling by the front end, for any number of tasks.
  // The two halves of a header's union of key and counts: the number of executables is in the lower one, and the number
  // of hosts, which the front end takes for the number of daemons, in the upper one.
  function NumExecs(h: Header): (v: nat) { Unsigned(h.stringInfo) % 0x1_0000 }
  function NumHosts(h: Header): (v: nat) { Unsigned(h.stringInfo) / 0x1_0000 }

  lemma HalvesRead(h: Header, execs: nat, hosts: nat)
    requires h.stringInfo == Short(execs) + 0x1_0000 * Short(hosts)
    ensures NumExecs(h) == execs % 0x1_0000 && NumHosts(h) == hosts % 0x1_0000
  {
  }

  // What is read from the header of a shipped table, before and after it has been relabelled.
  lemma CountsArrive(tasks: seq<ProcDesc>)
    requires Shippable(tasks)
    ensures |Shipped(tasks)| >= HEADER_SIZE
    ensures var a, b := DecodeHeader(Shipped(tasks)), DecodeHeader(PassedOn(Shipped(tasks)));
      (NumExecs(a) == NumExecs(b) == |ExecsFirst(tasks)| % 0x1_0000 &&
       NumHosts(a) == NumHosts(b) == |HostsFirst(tasks)| % 0x1_0000 &&
       (Execs(tasks) !! HostNames(tasks) ==>
          NumExecs(a) == NumExecs(b) == |Execs(tasks)| % 0x1_0000 &&
          NumHosts(a) == NumHosts(b) == |HostNames(tasks)| % 0x1_0000))
  {
    hide EncodeInt, EncodeHeader, Payload, DecodeHeader, ExecsFirst, HostsFirst, Execs, HostNames, NumExecs, NumHosts,
         Short, Unsigned;
    ShipHeaderFits(tasks);
    var h := ShipHeader(tasks);
    HeaderRoundTrip(h, Payload(tasks));
    HeaderRoundTrip(Relabel(h), Payload(tasks));
    UniquesCount(tasks);
    if Execs(tasks) !! HostNames(tasks) { HostsAreCounted(tasks); }
    HalvesRead(h, Uniques(tasks).0, Uniques(tasks).1);
    HalvesRead(Relabel(h), Uniques(tasks).0, Uniques(tasks).1);
  }

  lemma TableRoundTrip(tasks: seq<ProcDesc>)
    requires Shippable(tasks)
    ensures Table(Shipped(tasks)) == Some(tasks)
    ensures |Shipped(tasks)| >= HEADER_SIZE && |PassedOn(Shipped(tasks))| == |Shipped(tasks)|
    ensures Table(PassedOn(Shipped(tasks))) == Some(tasks)
  {
    hide EncodeInt, EncodeHeader, Payload, Table, DecodeHeader, ShipHeader, Relabel;
    ShipHeaderFits(tasks);
    var h := ShipHeader(tasks);
    HeaderRoundTrip(h, Payload(tasks));
    HeaderRoundTrip(Relabel(h), Payload(tasks));
    TableBehind(h, tasks);
    TableBehind(Relabel(h), tasks);
  }

  // ----- by host

  // The entries of one host, in their order.
  function OfHost(tasks: seq<ProcDesc>, host: Bytes): (list: seq<ProcDesc>) {
    if tasks == [] then []
    else
      var front, last := OfHost(tasks[..|tasks| - 1], host), tasks[|tasks| - 1];
      if last.host == host then front + [last] else front
  }

  ghost predicate Partition(tasks: seq<ProcDesc>, byHost: map<Bytes, seq<ProcDesc>>) {
    (forall x :: x in byHost <==> OfHost(tasks, x) != []) &&
    forall x :: x in byHost ==> byHost[x] == OfHost(tasks, x)
  }

  lemma PartitionNext(tasks: seq<ProcDesc>, i: nat, byHost: map<Bytes, seq<ProcDesc>>)
    requires i < |tasks| && Partition(tasks[..i], byHost)
    ensures var t := tasks[i];
      Partition(tasks[..i + 1], byHost[t.host := (if t.host in byHost then byHost[t.host] else []) + [t]])
  {
    assert tasks[..i + 1][..i] == tasks[..i];
  }

  // parse_raw_RPDTAB_msg: builds the map of the hosts, or reports what is missing.
  method ParseTable(msg: Bytes, byHost: map<Bytes, seq<ProcDesc>>) returns (rc: int, table: map<Bytes, seq<ProcDesc>>)
    ensures byHost != map[] ==> rc == -1
    ensures byHost == map[] && Table(msg) == None ==> rc < 0
    ensures byHost == map[] && Table(msg).Some? ==> rc == 0 && Partition(Table(msg).value, table)
    ensures rc != 0 ==> table == byHost
  {
    table := byHost;
    if byHost != map[] { return -1, byHost; }
    var h := DecodeHeader(msg);
    if LmonPayloadBegin(h).None? { return -2, byHost; }
    if StrtabBegin(h).None? { return -3, byHost; }
    var at, strtab, n := HEADER_SIZE, StrtabBegin(h).value, NumTasks(h);
    ghost var tasks := EntriesOf(msg, strtab, n);
    assert tasks[..0] == [];
    for i := 0 to n
      invariant at == HEADER_SIZE + 20 * i && Partition(tasks[..i], table)
    {
      var entry := EntryAt(msg, at, strtab);
      PartitionNext(tasks, i, table);
      table := table[entry.host := (if entry.host in table then table[entry.host] else []) + [entry]];
      at := at + ENTRY_SIZE;
    }
    assert tasks[..n] == tasks;
    return 0, table;
  }

  // The front end's copy of the table into a buffer of its caller.
  method GetProctable(msg: Bytes, proctable: array<ProcDesc>) returns (rc: int, size: nat)
    modifies proctable
    ensures Table(msg).Some? ==>
      var tasks := Table(msg).value; var k := if |tasks| < proctable.Length then |tasks| else proctable.Length;
      size == |tasks| && rc == (if proctable.Length < |tasks| then LMON_ETRUNC else LMON_OK) &&
      proctable[..k] == tasks[..k] && proctable[k..] == old(proctable[k..])
    ensures Table(msg).None? ==> rc == LMON_EDUNAV && proctable[..] == old(proctable[..])
  {
    var h := DecodeHeader(msg);
    if LmonPayloadBegin(h).None? || StrtabBegin(h).None? { return LMON_EDUNAV, 0; }
    var at, strtab, i := HEADER_SIZE, StrtabBegin(h).value, 0;
    size := NumTasks(h);
    ghost var tasks := EntriesOf(msg, strtab, size);
    while i < size && i < proctable.Length
      invariant i <= size && i <= proctable.Length && at == HEADER_SIZE + 20 * i
      invariant proctable[..i] == tasks[..i] && proctable[i..] == old(proctable[i..])
    {
      proctable[i] := EntryAt(msg, at, strtab);
      at := at + ENTRY_SIZE;
      i := i + 1;
    }
    rc := if i == proctable.Length && proctable.Length < size then LMON_ETRUNC else LMON_OK;
  }

  // The part of the table a daemon gets: the entries of the first of its aliases that has any.
  function SliceFor(tasks: seq<ProcDesc>, aliases: seq<Bytes>): (list: seq<ProcDesc>) {
    if aliases == [] then []
    else if OfHost(tasks, aliases[0]) != [] then OfHost(tasks, aliases[0])
    else SliceFor(tasks, aliases[1..])
  }

  // As much of a slice as the caller's buffer holds.
  method CopyOut(slice: seq<ProcDesc>, proctabbuf: array<ProcDesc>) returns (rc: int)
    modifies proctabbuf
    ensures rc == (if proctabbuf.Length < |slice| then LMON_ETRUNC else LMON_OK)
    ensures var k := if |slice| < proctabbuf.Length then |slice| else proctabbuf.Length;
      proctabbuf[..k] == slice[..k] && proctabbuf[k..] == old(proctabbuf[k..])
  {
    var i := 0;
    while i < |slice| && i < proctabbuf.Length
      invariant i <= |slice| && i <= proctabbuf.Length
      invariant proctabbuf[..i] == slice[..i] && proctabbuf[i..] == old(proctabbuf[i..])
    {
      proctabbuf[i] := slice[i];
      i := i + 1;
    }
    rc := if i == proctabbuf.Length && proctabbuf.Length < |slice| then LMON_ETRUNC else LMON_OK;
  }

  // A back-end daemon's copy of the message and the map it builds from it on first use.
  class BackEnd {
    var proctabMsg: Option<Bytes>
    var proctabCache: map<Bytes, seq<ProcDesc>>
    var aliases: seq<Bytes>

    ghost predicate Valid()
      reads this
    {
      proctabCache != map[] ==>
        proctabMsg.Some? && Table(proctabMsg.value).Some? && Partition(Table(proctabMsg.value).value, proctabCache)
    }

    constructor (msg: Option<Bytes>, hostAliases: seq<Bytes>)
      ensures Valid() && proctabMsg == msg && aliases == hostAliases
    {
      proctabMsg, proctabCache, aliases := msg, map[], hostAliases;
    }

    method FillCache() returns (rc: int)
      requires Valid()
      modifies this`proctabCache
      ensures Valid() && (rc == LMON_OK <==> proctabMsg.Some? && Table(proctabMsg.value).Some?) &&
        rc in {LMON_OK, LMON_EINVAL}
      ensures rc == LMON_OK ==> Partition(Table(proctabMsg.value).value, proctabCache)
    {
      if proctabMsg.None? { return LMON_EINVAL; }
      if proctabCache == map[] {
        var err, table := ParseTable(proctabMsg.value, proctabCache);
        if err < 0 { return LMON_EINVAL; }
        proctabCache := table;
      }
      return LMON_OK;
    }

    method FindSlice(ghost tasks: seq<ProcDesc>) returns (slice: seq<ProcDesc>)
      requires Partition(tasks, proctabCache)
      ensures slice == SliceFor(tasks, aliases)
    {
      for i := 0 to |aliases|
        invariant SliceFor(tasks, aliases) == SliceFor(tasks, aliases[i..])
      {
        if aliases[i] in proctabCache { return proctabCache[aliases[i]]; }
      }
      return [];
    }

    method GetMyProctabSize() returns (rc: int, size: nat)
      requires Valid()
      modifies this`proctabCache
      ensures Valid() && (rc == LMON_OK <==> proctabMsg.Some? && Table(proctabMsg.value).Some?)
      ensures rc == LMON_OK ==> size == |SliceFor(Table(proctabMsg.value).value, aliases)|
    {
      size := 0;
      rc := FillCache();
      if rc != LMON_OK { return; }
      var slice := FindSlice(Table(proctabMsg.value).value);
      size := |slice|;
    }

    method GetMyProctab(proctabbuf: array<ProcDesc>) returns (rc: int, size: nat)
      requires Valid()
      modifies this`proctabCache, proctabbuf
      ensures Valid() && (rc == LMON_EINVAL <==> !(proctabMsg.Some? && Table(proctabMsg.value).Some?))
      ensures rc != LMON_EINVAL ==>
        var mine := SliceFor(Table(proctabMsg.value).value, aliases);
        var k := if |mine| < proctabbuf.Length then |mine| else proctabbuf.Length;
        size == |mine| && rc == (if proctabbuf.Length < |mine| then LMON_ETRUNC else LMON_OK) &&
        proctabbuf[..k] == mine[..k] && proctabbuf[k..] == old(proctabbuf[k..])
    {
      size := 0;
      rc := FillCache();
      if rc != LMON_OK { return; }
      var slice := FindSlice(Table(proctabMsg.value).value);
      size := |slice|;
      rc := CopyOut(slice, proctabbuf);
    }
  }

  // ----- the slices of all daemons together

  // The host a daemon's slice belongs to.
  function KeyOf(tasks: seq<ProcDesc>, aliases: seq<Bytes>): (o: Option<Bytes>) {
    if aliases == [] then None
    else if OfHost(tasks, aliases[0]) != [] then Some(aliases[0])
    else KeyOf(tasks, aliases[1..])
  }

  lemma {:induction false} SliceIsOfKey(tasks: seq<ProcDesc>, aliases: seq<Bytes>)
    ensures SliceFor(tasks, aliases) == match KeyOf(tasks, aliases) case None => [] case Some(key) => OfHost(tasks, key)
  {
    if aliases != [] { SliceIsOfKey(tasks, aliases[1..]); }
  }

  lemma {:induction false} CountOfHost(tasks: seq<ProcDesc>, host: Bytes, t: ProcDesc)
    ensures multiset(OfHost(tasks, host))[t] == if t.host == host then multiset(tasks)[t] else 0
  {
    if tasks != [] {
      var front, last := tasks[..|tasks| - 1], tasks[|tasks| - 1];
      CountOfHost(front, host, t);
      assert tasks == front + [last];
    }
  }

  function AllSlices(tasks: seq<ProcDesc>, daemons: seq<seq<Bytes>>): (list: seq<ProcDesc>) {
    if daemons == [] then [] else SliceFor(tasks, daemons[0]) + AllSlices(tasks, daemons[1..])
  }

  // No two daemons answer to the same host of the table.
  ghost predicate OwnHosts(tasks: seq<ProcDesc>, daemons: seq<seq<Bytes>>) {
    forall p, q :: 0 <= p < q < |daemons| && KeyOf(tasks, daemons[p]).Some? ==>
        KeyOf(tasks, daemons[p]) != KeyOf(tasks, daemons[q])
  }

  ghost predicate Served(tasks: seq<ProcDesc>, daemons: seq<seq<Bytes>>, host: Bytes) {
    exists q :: 0 <= q < |daemons| && KeyOf(tasks, daemons[q]) == Some(host)
  }

  lemma {:induction false} CountInSlices(tasks: seq<ProcDesc>, daemons: seq<seq<Bytes>>, t: ProcDesc)
    requires OwnHosts(tasks, daemons)
    ensures multiset(AllSlices(tasks, daemons))[t] == if Served(tasks, daemons, t.host) then multiset(tasks)[t] else 0
  {
    if daemons != [] {
      var rest := daemons[1..];
      forall p, q | 0 <= p < q < |rest| && KeyOf(tasks, rest[p]).Some?
        ensures KeyOf(tasks, rest[p]) != KeyOf(tasks, rest[q])
      {
        assert rest[p] == daemons[p + 1] && rest[q] == daemons[q + 1];
      }
      CountInSlices(tasks, rest, t);
      SliceIsOfKey(tasks, daemons[0]);
      match KeyOf(tasks, daemons[0]) {
        case None =>
        case Some(key) => CountOfHost(tasks, key, t);
      }
      if Served(tasks, rest, t.host) {
        var q :| 0 <= q < |rest| && KeyOf(tasks, rest[q]) == Some(t.host);
        assert KeyOf(tasks, daemons[q + 1]) == Some(t.host);
      }
      if q :| 0 < q < |daemons| && KeyOf(tasks, daemons[q]) == Some(t.host) {
        assert KeyOf(tasks, rest[q - 1]) == Some(t.host);
      }
    }
  }

  // If no two daemons answer to one host and every host has its daemon, the slices of all daemons together are
  // the table: every task is handed out exactly once, to a daemon of its own host.
  lemma SlicesConserveTable(tasks: seq<ProcDesc>, daemons: seq<seq<Bytes>>)
    requires OwnHosts(tasks, daemons) && forall i :: 0 <= i < |tasks| ==> Served(tasks, daemons, tasks[i].host)
    ensures multiset(AllSlices(tasks, daemons)) == multiset(tasks)
    ensures forall p, q, a, b ::
      (0 <= p < q < |daemons| && a in SliceFor(tasks, daemons[p]) && b in SliceFor(tasks, daemons[q])) ==>
        a.host != b.host
  {
    forall t
      ensures multiset(AllSlices(tasks, daemons))[t] == multiset(tasks)[t]
    {
      CountInSlices(tasks, daemons, t);
      if t in multiset(tasks) { assert t in tasks; }
    }
    forall p, q, a, b | 0 <= p < q < |daemons| && a in SliceFor(tasks, daemons[p]) && b in SliceFor(tasks, daemons[q])
      ensures a.host != b.host
    {
      InSlice(tasks, daemons[p], a);
      InSlice(tasks, daemons[q], b);
    }
  }

  lemma InSlice(tasks: seq<ProcDesc>, aliases: seq<Bytes>, t: ProcDesc)
    requires t in SliceFor(tasks, aliases)
    ensures KeyOf(tasks, aliases) == Some(t.host)
  {
    SliceIsOfKey(tasks, aliases);
    var key := KeyOf(tasks, aliases).value;
    CountOfHost(tasks, key, t);
    assert t in multiset(OfHost(tasks, key));
  }
}
