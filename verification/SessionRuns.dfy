// One completing schedule of a session, and what it says about all of them.
module SessionRuns {
  import opened Bytestream
  import opened CoboTree
  import opened Network
  import opened Collectives
  import opened TreeRuns
  import opened CollectiveRuns
  import opened Lmonp
  import opened Session
  import HostTable
  import Rpdtab

  // Whoever has logged the release of the launcher knew of the readiness of all n daemons.
  ghost predicate Safe(log: set<Entry>, n: nat) {
    forall x, p :: x in log && x.stamp.event == LauncherReleased && 0 <= p < n ==> Stamp(p, ControlReady) in x.past
  }

  ghost predicate Calm(s: State, n: nat) {
    Shape(s) && |s.procs| == n + 1 && (forall e :: Chan(s, e) == []) && Safe(s.log, n)
  }

  ghost predicate Calmly(s: State, t: State, n: nat) { Reaches(s, t) && Grows(s, t) && Calm(t, n) }

  lemma CalmlyThen(s: State, t: State, u: State, n: nat)
    requires Calmly(s, t, n) && Calmly(t, u, n)
    ensures Calmly(s, u, n)
  {
    ReachesTransitive(s, t, u);
  }

  lemma CalmAfter(s: State, t: State, n: nat)
    requires Calmly(s, t, n)
    ensures Calm(t, n) && |t.procs| == n + 1
  {
  }

  lemma CalmSize(s: State, n: nat)
    requires Calm(s, n)
    ensures |s.procs| == n + 1
  {
  }

  lemma CalmlySelf(s: State, n: nat)
    requires Calm(s, n)
    ensures Calmly(s, s, n)
  {
    ReachesSelf(s);
  }

  lemma QuietIsCalm(s: State, t: State, n: nat)
    requires Calm(s, n) && Quiet(s, t, n, 0, n - 1)
    ensures Calmly(s, t, n)
  {
  }

  // The daemons stand at their places.
  ghost predicate Daemons(s: State, n: nat, place: int -> Proc) {
    n < |s.procs| && forall q :: 0 <= q < n ==> s.procs[q] == place(q)
  }

  // Where a broadcast of the master's bytes takes the daemons.
  ghost predicate BcastTakes(n: nat, data: Bytes, bufs: seq<Bytes>, ks: seq<Kont>, from: int -> Proc, to: int -> Proc) {
    n >= 1 && |bufs| == |ks| == n && bufs[0] == data &&
    forall q :: 0 <= q < n ==> from(q) == Bcast(n, q, bufs[q], |data|, ks[q]) && to(q) == ks[q](data)
  }

  lemma CalmBcast(s: State, n: nat, data: Bytes, bufs: seq<Bytes>, ks: seq<Kont>, from: int -> Proc, to: int -> Proc)
    returns (t: State)
    requires Calm(s, n) && Daemons(s, n, from) && BcastTakes(n, data, bufs, ks, from, to)
    ensures Calmly(s, t, n) && Daemons(t, n, to) && t.procs[n] == s.procs[n] && t.log == s.log
  {
    hide Bcast;
    t := BcastRuns(s, n, data, bufs, ks);
    QuietIsCalm(s, t, n);
  }

  lemma CalmGather(s: State, n: nat, count: nat, parts: seq<Bytes>, ks: seq<Kont>) returns (t: State)
    requires n >= 1 && Calm(s, n) && Blocks(parts, n, count) && |ks| == n
    requires forall q :: 0 <= q < n ==> s.procs[q] == Gather(n, q, parts[q], count, ks[q])
    ensures Calmly(s, t, n) && t.procs[n] == s.procs[n] && t.log == s.log
    ensures forall q :: 0 <= q < n ==> t.procs[q] == ks[q](if q == 0 then Concat(parts) else [])
  {
    hide Gather;
    t := GatherRuns(s, n, count, parts, ks);
    QuietIsCalm(s, t, n);
  }

  // Everybody learns what anybody knew.
  lemma CalmBarrier(s: State, n: nat, ks: seq<Kont>) returns (t: State)
    requires n >= 1 && Calm(s, n) && |ks| == n && forall q :: 0 <= q < n ==> s.procs[q] == Barrier(n, q, ks[q])
    ensures Calmly(s, t, n) && t.procs[n] == s.procs[n] && t.log == s.log
    ensures forall q :: 0 <= q < n ==> t.procs[q] == ks[q]([])
    ensures forall p, q :: 0 <= p < n && 0 <= q < n ==> s.know[p] <= t.know[q]
  {
    hide Barrier;
    t := BarrierRuns(s, n, ks);
    QuietIsCalm(s, t, n);
  }

  // ----- one message between the master and the front end

  lemma Tell(s: State, n: nat, p: int, q: int) returns (t: State)
    requires Calm(s, n) && 0 <= p <= n && 0 <= q <= n && p != q && Fits(s.procs[p], s.procs[q], p, q)
    ensures Calmly(s, t, n) && t.procs == s.procs[p := s.procs[p].next][q := s.procs[q].onData(s.procs[p].data)]
    ensures t.log == s.log
    ensures s.procs[p].data != [] ==> s.know[p] <= t.know[q]
  {
    t := HandOver(s, p, q);
  }

  lemma StampedParts(data: Bytes, epoch: nat, past: set<Stamp>, head: nat)
    requires head <= |data|
    ensures Stamped(data, epoch, past)[..head] == Stamped(data[..head], epoch, past)
    ensures Stamped(data, epoch, past)[head..] == Stamped(data[head..], epoch, past)
  {
  }

  lemma NothingStamped(epoch: nat, past: set<Stamp>)
    ensures Stamped([], epoch, past) == []
  {
  }

  // The reader takes the header first, and then asks for just the rest.
  ghost predicate FitsInTwo(writer: Proc, reader: Proc, p: int, q: int) {
    writer.Send? && writer.to == q && reader.Recv? && reader.from == p && reader.size <= |writer.data| &&
    var rest := reader.onData(writer.data[..reader.size]);
    rest.Recv? && rest.from == p && rest.size == |writer.data| - reader.size
  }

  // A process reads size bytes that are there.
  lemma ReadsFront(s: State, p: int, q: int, data: Bytes, epoch: nat, past: set<Stamp>) returns (t: State)
    requires Shape(s) && 0 <= q < |s.procs| && s.procs[q].Recv? && s.procs[q].from == p && s.procs[q].size <= |data|
    requires Chan(s, Edge(p, q)) == Stamped(data, epoch, past)
    ensures Reaches(s, t) && Grows(s, t)
    ensures var size := s.procs[q].size;
      t.procs == s.procs[q := s.procs[q].onData(data[..size])] && t.log == s.log &&
      Chan(t, Edge(p, q)) == Stamped(data[size..], epoch, past)
    ensures forall e :: e != Edge(p, q) ==> Chan(t, e) == Chan(s, e)
  {
    var size := s.procs[q].size;
    StampedParts(data, epoch, past, size);
    PayloadOfStamped(data[..size], epoch, past);
    t := Step(s, q);
    ReachesStep(s, q);
    ReachesGrows(s, t);
  }

  lemma Writes(s: State, p: int, q: int) returns (t: State)
    requires Shape(s) && 0 <= p < |s.procs| && s.procs[p].Send? && s.procs[p].to == q && Chan(s, Edge(p, q)) == []
    ensures Reaches(s, t) && Grows(s, t) && t.procs == s.procs[p := s.procs[p].next] && t.log == s.log
    ensures Chan(t, Edge(p, q)) == Stamped(s.procs[p].data, s.epochs[p], s.know[p])
    ensures forall e :: e != Edge(p, q) ==> Chan(t, e) == Chan(s, e)
  {
    t := Step(s, p);
    ReachesStep(s, p);
    ReachesGrows(s, t);
  }

  lemma TellInTwo(s: State, n: nat, p: int, q: int) returns (t: State)
    requires Calm(s, n) && 0 <= p <= n && 0 <= q <= n && p != q && FitsInTwo(s.procs[p], s.procs[q], p, q)
    ensures Calmly(s, t, n) && t.log == s.log
    ensures var data, size := s.procs[p].data, s.procs[q].size;
      t.procs == s.procs[p := s.procs[p].next][q := s.procs[q].onData(data[..size]).onData(data[size..])]
  {
    hide Reaches, Stamped, Safe, Step, Chan;
    var data, size := s.procs[p].data, s.procs[q].size;
    var u := Writes(s, p, q);
    var v := ReadsFront(u, p, q, data, s.epochs[p], s.know[p]);
    t := ReadsFront(v, p, q, data[size..], s.epochs[p], s.know[p]);
    assert data[size..][..|data| - size] == data[size..] && data[size..][|data| - size..] == [];
    ReachesTransitive(s, u, v);
    ReachesTransitive(s, v, t);
    NothingStamped(s.epochs[p], s.know[p]);
  }

  // What will be needed of a well-formed configuration.
  lemma Owed(c: Config)
    requires WellFormed(c)
    ensures c.n >= 1 && |c.hosts| == c.n && Blocks(c.hosts, c.n, HostTable.HN_MAX) && |Names(c)| == c.n
    ensures |c.key| == KEY_WORDS && |Usr(c)| <= MAX_USRPAYLOAD
  {
  }

  // ----- the security check

  lemma KeyRead(c: Config, i: nat)
    requires WellFormed(c) && i < KEY_WORDS
    ensures |KeyMsg(c.key[i])| == HEADER_SIZE
    ensures KeyKont(c, i, c.key[..i])(KeyMsg(c.key[i])) == FeKeys(c, i + 1, c.key[..i + 1])
  {
    hide EncodeHeader, DecodeHeader;
    var h := SetHeader(FETOBE, SECURITY_CHK, 0, c.key[i], 0, 0, 0, 0, 0);
    assert h == Header(FETOBE, SECURITY_CHK, 0, c.key[i], 0, 0, 0);
    BareHeaderRoundTrip(h);
    assert c.key[..i + 1] == c.key[..i] + [c.key[i]];
  }

  function AwaitHosts(c: Config): (p: Proc) { Recv(0, HEADER_SIZE, HostKont(c), Return(LMON_ESYS)) }

  lemma KeyRun(s: State, c: Config, i: nat) returns (t: State)
    requires WellFormed(c) && Calm(s, c.n) && i < KEY_WORDS
    requires s.procs[0] == BeKeys(c, i) && s.procs[c.n] == FeKeys(c, i, c.key[..i])
    ensures Calmly(s, t, c.n) && t.procs == s.procs[0 := BeKeys(c, i + 1)][c.n := FeKeys(c, i + 1, c.key[..i + 1])]
    ensures t.log == s.log
  {
    hide WellFormed, KeyMsg, KeyKont, BeInit, Calmly, Safe, HostKont;
    Owed(c);
    KeyRead(c, i);
    assert s.procs[0].data == KeyMsg(c.key[i]) && s.procs[c.n].size == HEADER_SIZE;
    t := Tell(s, c.n, 0, c.n);
  }

  // The front end has heard the whole key.
  lemma Recognized(c: Config)
    ensures FeKeys(c, KEY_WORDS, c.key) == if c.authorize(c.key) then AwaitHosts(c) else Return(LMON_ESYS)
  {
    hide HostKont;
  }

  lemma {:induction false} KeysRun(s: State, c: Config, i: nat) returns (t: State)
    requires WellFormed(c) && Calm(s, c.n) && i <= KEY_WORDS
    requires s.procs[0] == BeKeys(c, i) && s.procs[c.n] == FeKeys(c, i, c.key[..i])
    ensures Calmly(s, t, c.n) && t.procs == s.procs[0 := BeInit(c, 0)][c.n := FeKeys(c, KEY_WORDS, c.key)]
    ensures t.log == s.log
    decreases KEY_WORDS - i
  {
    hide WellFormed, KeyMsg, KeyKont, BeInit, Calm, Calmly, HostKont;
    Owed(c);
    if i == KEY_WORDS {
      assert c.key[..i] == c.key;
      CalmSize(s, c.n);
      CalmlySelf(s, c.n);
      t := s;
    } else {
      var u := KeyRun(s, c, i);
      CalmSize(s, c.n);
      CalmAfter(s, u, c.n);
      t := KeysRun(u, c, i + 1);
      CalmlyThen(s, u, t, c.n);
    }
  }

  // ----- init's barrier and the gathering of the host names

  lemma InitRun(s: State, c: Config) returns (t: State)
    requires WellFormed(c) && Calm(s, c.n) && forall q :: 0 <= q < c.n ==> s.procs[q] == BeInit(c, q)
    ensures Calmly(s, t, c.n) && t.procs[c.n] == s.procs[c.n] && t.log == s.log
    ensures forall q :: 0 <= q < c.n ==> t.procs[q] == Gathered(c, q)(if q == 0 then Concat(c.hosts) else [])
  {
    hide WellFormed, Barrier, Gather, Concat, Calm, Calmly, Gathered;
    Owed(c);
    var n := c.n;
    var u := CalmBarrier(s, n, seq(n, q requires 0 <= q < n => BeGather(c, q)));
    CalmAfter(s, u, n);
    t := CalmGather(u, n, HostTable.HN_MAX, c.hosts, seq(n, q requires 0 <= q < n => Gathered(c, q)));
    CalmlyThen(s, u, t, n);
  }

  // ----- host names up, process table, mode, resource manager and user data down

  function HostsMsg(c: Config): (b: Bytes) { HostTable.Message(Names(c)) }

  lemma HostsRead(c: Config)
    requires WellFormed(c)
    ensures var msg := HostsMsg(c);
      |msg| > HEADER_SIZE && msg[..HEADER_SIZE] + msg[HEADER_SIZE..] == msg &&
      HostKont(c)(msg[..HEADER_SIZE]) == Recv(0, |msg| - HEADER_SIZE, FeTell(c, msg[..HEADER_SIZE]), Return(LMON_ESYS))
  {
    hide EncodeHeader, DecodeHeader, HostTable.Payload, HostTable.NameAt;
    var payload := HostTable.Payload(Names(c));
    HostTable.PayloadSize(Names(c));
    assert |Names(c)| == c.n;
    HostTable.HostnameHeaderReads(c.n, |payload|);
    MessageParts(HostnameHeader(c.n, |payload|), payload);
  }

  lemma TableRead(c: Config)
    requires WellFormed(c) && c.table.lmonLength > 0
    ensures var msg := TableMsg(c);
      |msg| > HEADER_SIZE && msg[..HEADER_SIZE] + msg[HEADER_SIZE..] == msg &&
      TableKont(c)(msg[..HEADER_SIZE]) ==
        Recv(c.n, |msg| - HEADER_SIZE, EntriesKont(c, msg[..HEADER_SIZE]), Return(LMON_EBDMSG))
  {
    hide EncodeHeader, DecodeHeader;
    MessageParts(Relabel(c.table), c.entries);
  }

  lemma TableSize(c: Config)
    requires WellFormed(c)
    ensures HEADER_SIZE <= |TableMsg(c)| && IsInt32(|TableMsg(c)|)
  {
    hide EncodeHeader, DecodeHeader;
    MessageParts(Relabel(c.table), c.entries);
  }

  // What the daemons remember of the mode.
  function TraceMode(c: Config): (v: int) {
    if c.launch then (if c.dontStop == Some(1) then TRM_LAUNCH_DONTSTOP else TRM_LAUNCH)
    else (if c.dontStop == Some(0) then TRM_ATTACH_STOP else TRM_ATTACH)
  }

  lemma OrdersRead(c: Config, table: Bytes)
    requires WellFormed(c)
    ensures |ModeMsg(c)| == HEADER_SIZE && |RmMsg(c)| == HEADER_SIZE
    ensures ModeKont(c, table)(ModeMsg(c)) ==
      Recv(c.n, HEADER_SIZE, RmKont(c, table, TraceMode(c)), Return(LMON_EBDMSG))
    ensures RmKont(c, table, TraceMode(c))(RmMsg(c)) ==
      Recv(c.n, HEADER_SIZE, UsrKont(c, table, TraceMode(c), c.rmType), Return(LMON_EBDMSG))
  {
    hide EncodeHeader, DecodeHeader;
    BareHeaderRoundTrip(Plain(Mode(c), 0));
    var h := SetHeader(FETOBE, RM_TYPE, c.rmType, 0, 0, 0, 0, 0, 0);
    BareHeaderRoundTrip(h);
  }

  // What the master has learned from the front end.
  function Told(c: Config): (known: Session.Known) {
    Session.Known(EncodeInt(TraceMode(c)), EncodeInt(c.rmType), TableMsg(c), Usr(c))
  }

  lemma UsrRead(c: Config)
    requires WellFormed(c)
    ensures var k, msg := UsrKont(c, TableMsg(c), TraceMode(c), c.rmType), UsrMsg(Usr(c));
      |msg| == HEADER_SIZE + |Usr(c)| &&
      if Usr(c) == [] then k(msg) == BeShare(c, 0, Told(c))
      else
        var r := k(msg[..HEADER_SIZE]);
        (r.Recv? && r.from == c.n && r.size == |msg| - HEADER_SIZE &&
         r.onData(msg[HEADER_SIZE..]) == BeShare(c, 0, Told(c)))
  {
    hide EncodeHeader, DecodeHeader, EncodeInt, BeShare, WellFormed, TableMsg, TraceMode, Usr;
    Owed(c);
    var h := Plain(FEBE_USRDATA, |Usr(c)|);
    MessageParts(h, Usr(c));
    if Usr(c) == [] { assert EncodeHeader(h) + [] == EncodeHeader(h); }
  }

  function OrdersNext(c: Config): (p: Proc) { Send(0, ModeMsg(c), Send(0, RmMsg(c), FeUsrData(c, HostsMsg(c)))) }

  lemma HostsRun(s: State, c: Config) returns (t: State)
    requires WellFormed(c) && Calm(s, c.n)
    requires s.procs[0] == Gathered(c, 0)(Concat(c.hosts)) && s.procs[c.n] == AwaitHosts(c)
    ensures Calmly(s, t, c.n) && t.procs == s.procs[0 := BeTable(c)][c.n := Send(0, TableMsg(c), OrdersNext(c))]
    ensures t.log == s.log
  {
    hide TableMsg, ModeMsg, RmMsg, FeUsrData, HostKont, Safe, Reaches, Grows, WellFormed, HostTable.Message,
         HostTable.Names, BeTable;
    Owed(c);
    HostsRead(c);
    t := TellInTwo(s, c.n, 0, c.n);
  }

  // The table has been told.
  function AwaitMode(c: Config): (p: Proc) {
    Recv(c.n, HEADER_SIZE, ModeKont(c, TableMsg(c)), Return(LMON_EBDMSG))
  }

  lemma TableRun(s: State, c: Config) returns (t: State)
    requires WellFormed(c) && c.table.lmonLength > 0 && Calm(s, c.n) && s.procs[0] == BeTable(c) &&
      s.procs[c.n] == Send(0, TableMsg(c), OrdersNext(c))
    ensures Calmly(s, t, c.n) && t.log == s.log
    ensures t.procs == s.procs[0 := AwaitMode(c)][c.n := OrdersNext(c)]
  {
    hide TableMsg, OrdersNext, TableKont, ModeKont, Safe, Reaches, Grows, WellFormed;
    Owed(c);
    TableRead(c);
    t := TellInTwo(s, c.n, c.n, 0);
  }

  // Mode and resource manager have been told.
  function AwaitUsr(c: Config): (p: Proc) {
    Recv(c.n, HEADER_SIZE, UsrKont(c, TableMsg(c), TraceMode(c), c.rmType), Return(LMON_EBDMSG))
  }

  lemma ModeRun(s: State, c: Config) returns (t: State)
    requires WellFormed(c) && Calm(s, c.n)
    requires s.procs[0] == AwaitMode(c)
    requires s.procs[c.n] == OrdersNext(c)
    ensures Calmly(s, t, c.n) && t.procs == s.procs[0 := AwaitUsr(c)][c.n := FeUsrData(c, HostsMsg(c))]
    ensures t.log == s.log
  {
    hide TableMsg, HostsMsg, ModeMsg, RmMsg, TraceMode, WellFormed, FeUsrData, ModeKont, RmKont, UsrKont, Safe, Reaches,
         Grows, Chan;
    OrdersRead(c, TableMsg(c));
    var u := Tell(s, c.n, c.n, 0);
    t := Tell(u, c.n, c.n, 0);
    CalmlyThen(s, u, t, c.n);
  }

  // Where the front end stands when it has sent all orders.
  function Ordered(c: Config): (p: Proc) {
    if c.febe == NoCallback then Return(LMON_ENCLLB) else FeAwait(c, HostsMsg(c))
  }

  lemma UsrSent(c: Config)
    requires c.febe != Refused
    ensures FeUsrData(c, HostsMsg(c)) == Send(0, UsrMsg(Usr(c)), Ordered(c))
  {
    hide UsrMsg, HostsMsg, FeAwait;
  }

  lemma UsrRun(s: State, c: Config) returns (t: State)
    requires WellFormed(c) && c.febe != Refused && Calm(s, c.n)
    requires s.procs[0] == AwaitUsr(c) && s.procs[c.n] == FeUsrData(c, HostsMsg(c))
    ensures Calmly(s, t, c.n) && t.procs == s.procs[0 := BeShare(c, 0, Told(c))][c.n := Ordered(c)] && t.log == s.log
  {
    hide TableMsg, HostsMsg, UsrMsg, TraceMode, WellFormed, BeShare, Usr, FeUsrData, Ordered, Told, UsrKont, Safe,
         Reaches, Grows, Chan;
    UsrRead(c);
    UsrSent(c);
    if Usr(c) == [] {
      t := Tell(s, c.n, c.n, 0);
    } else {
      t := TellInTwo(s, c.n, c.n, 0);
    }
  }

  lemma OrdersRun(s: State, c: Config) returns (t: State)
    requires WellFormed(c) && c.febe != Refused && Calm(s, c.n)
    requires s.procs[0] == AwaitMode(c)
    requires s.procs[c.n] == OrdersNext(c)
    ensures Calmly(s, t, c.n) && t.procs == s.procs[0 := BeShare(c, 0, Told(c))][c.n := Ordered(c)] && t.log == s.log
  {
    hide TableMsg, HostsMsg, WellFormed, BeShare, FeUsrData, Ordered, Told, ModeKont, AwaitUsr, Calm, Calmly,
         OrdersNext;
    Owed(c);
    CalmSize(s, c.n);
    var u := ModeRun(s, c);
    CalmAfter(s, u, c.n);
    t := UsrRun(u, c);
    CalmlyThen(s, u, t, c.n);
  }

  // ----- the master shares what it has been told

  function Untold(): (known: Session.Known) { Session.Known([], [], [], []) }
  function Start(c: Config, q: int): (known: Session.Known) { if q == 0 then Told(c) else Untold() }
  // What daemon q knows in the end: all but the user data has been broadcast.
  function Learned(c: Config, q: int): (known: Session.Known) { Told(c).(usr := if q == 0 then Usr(c) else []) }

  function WithMode(c: Config, q: int): (known: Session.Known) { Start(c, q).(mode := Told(c).mode) }
  function WithRm(c: Config, q: int): (known: Session.Known) { WithMode(c, q).(rm := Told(c).rm) }

  function AtShare(c: Config): (f: int -> Proc) { q => BeShare(c, q, Start(c, q)) }
  function AtRm(c: Config): (f: int -> Proc) {
    q => Bcast(c.n, q, Start(c, q).rm, INT_SIZE, ShareSize(c, q, WithMode(c, q)))
  }
  function AtSize(c: Config): (f: int -> Proc) {
    q => Bcast(c.n, q, EncodeInt(|Start(c, q).table|), INT_SIZE, ShareTable(c, q, WithRm(c, q)))
  }
  function AtTable(c: Config): (f: int -> Proc) {
    q => Bcast(c.n, q, Start(c, q).table, |TableMsg(c)|, InitControl(c, q, WithRm(c, q)))
  }
  function AtControl(c: Config): (f: int -> Proc) {
    q => Mark(ControlReady, Barrier(c.n, q, AskForLauncher(c, q, Learned(c, q))))
  }

  lemma MasterStarts(c: Config)
    ensures Start(c, 0) == Told(c) && Told(c).mode == EncodeInt(TraceMode(c)) && Told(c).rm == EncodeInt(c.rmType) &&
      Told(c).table == TableMsg(c)
    ensures |EncodeInt(TraceMode(c))| == |EncodeInt(c.rmType)| == |EncodeInt(|TableMsg(c)|)| == INT_SIZE
  {
    hide EncodeInt, TableMsg, TraceMode;
    UnsignedRoundTrip(TraceMode(c));
    UnsignedRoundTrip(c.rmType);
    UnsignedRoundTrip(|TableMsg(c)|);
  }

  function ModeBufs(c: Config): (list: seq<Bytes>) { seq(c.n, q requires 0 <= q < c.n => Start(c, q).mode) }
  function ModeKs(c: Config): (list: seq<Kont>) { seq(c.n, q requires 0 <= q < c.n => ShareRm(c, q, Start(c, q))) }
  function RmBufs(c: Config): (list: seq<Bytes>) { seq(c.n, q requires 0 <= q < c.n => Start(c, q).rm) }
  function RmKs(c: Config): (list: seq<Kont>) { seq(c.n, q requires 0 <= q < c.n => ShareSize(c, q, WithMode(c, q))) }
  function SizeBufs(c: Config): (list: seq<Bytes>) {
    seq(c.n, q requires 0 <= q < c.n => EncodeInt(|Start(c, q).table|))
  }
  function SizeKs(c: Config): (list: seq<Kont>) { seq(c.n, q requires 0 <= q < c.n => ShareTable(c, q, WithRm(c, q))) }
  function TableBufs(c: Config): (list: seq<Bytes>) { seq(c.n, q requires 0 <= q < c.n => Start(c, q).table) }
  function TableKs(c: Config): (list: seq<Kont>) {
    seq(c.n, q requires 0 <= q < c.n => InitControl(c, q, WithRm(c, q)))
  }

  lemma FirstBufs(c: Config)
    requires c.n >= 1
    ensures |ModeBufs(c)| == |ModeKs(c)| == c.n && ModeBufs(c)[0] == Start(c, 0).mode
    ensures |RmBufs(c)| == |RmKs(c)| == c.n && RmBufs(c)[0] == Start(c, 0).rm
  {
    hide Start, ShareRm, ShareSize, WithMode;
  }

  lemma ShareModeAt(c: Config, q: int)
    requires 0 <= q < c.n == |ModeBufs(c)| == |ModeKs(c)|
    ensures AtShare(c)(q) == Bcast(c.n, q, ModeBufs(c)[q], INT_SIZE, ModeKs(c)[q]) &&
      AtRm(c)(q) == ModeKs(c)[q](Told(c).mode)
  {
    hide EncodeInt, TableMsg, Bcast, WellFormed, TraceMode, Start, Told, ShareSize;
  }

  lemma ShareModeTakes(c: Config)
    requires WellFormed(c)
    ensures BcastTakes(c.n, EncodeInt(TraceMode(c)), ModeBufs(c), ModeKs(c), AtShare(c), AtRm(c))
  {
    hide EncodeInt, TableMsg, Bcast, WellFormed, TraceMode, Start, Told, AtShare, AtRm, ModeBufs, ModeKs;
    Owed(c);
    MasterStarts(c);
    FirstBufs(c);
    forall q | 0 <= q < c.n
      ensures AtShare(c)(q) == Bcast(c.n, q, ModeBufs(c)[q], INT_SIZE, ModeKs(c)[q]) &&
        AtRm(c)(q) == ModeKs(c)[q](Told(c).mode)
    {
      ShareModeAt(c, q);
    }
  }

  lemma ShareRmAt(c: Config, q: int)
    requires 0 <= q < c.n == |RmBufs(c)| == |RmKs(c)|
    ensures AtRm(c)(q) == Bcast(c.n, q, RmBufs(c)[q], INT_SIZE, RmKs(c)[q]) && AtSize(c)(q) == RmKs(c)[q](Told(c).rm)
  {
    hide EncodeInt, TableMsg, Bcast, WellFormed, TraceMode, Start, Told, ShareTable;
  }

  lemma ShareRmTakes(c: Config)
    requires WellFormed(c)
    ensures BcastTakes(c.n, EncodeInt(c.rmType), RmBufs(c), RmKs(c), AtRm(c), AtSize(c))
  {
    hide EncodeInt, TableMsg, Bcast, WellFormed, TraceMode, Start, Told, AtRm, AtSize, RmBufs, RmKs;
    Owed(c);
    MasterStarts(c);
    FirstBufs(c);
    forall q | 0 <= q < c.n
      ensures AtRm(c)(q) == Bcast(c.n, q, RmBufs(c)[q], INT_SIZE, RmKs(c)[q]) && AtSize(c)(q) == RmKs(c)[q](Told(c).rm)
    {
      ShareRmAt(c, q);
    }
  }

  lemma ShareSizeTakes(c: Config)
    requires WellFormed(c)
    ensures BcastTakes(c.n, EncodeInt(|TableMsg(c)|), SizeBufs(c), SizeKs(c), AtSize(c), AtTable(c))
  {
    hide EncodeInt, DecodeInt, TableMsg, Bcast, WellFormed, TraceMode, Start, Told;
    Owed(c);
    TableSize(c);
    MasterStarts(c);
    IntRoundTrip(|TableMsg(c)|);
  }

  lemma WithRmIs(c: Config, q: int)
    ensures WithRm(c, q).(table := TableMsg(c)) == Learned(c, q)
  {
    hide TableMsg, EncodeInt, TraceMode, Usr;
  }

  // What every daemon does when it has the table.
  function AtInit(c: Config): (f: int -> Proc) { q => InitControl(c, q, WithRm(c, q))(TableMsg(c)) }

  lemma ControlAt(c: Config, q: int)
    ensures AtInit(c)(q) == if c.init(q) == LMON_OK then AtControl(c)(q) else Return(c.init(q))
  {
    hide TableMsg, Barrier, WithRm, Learned, AskForLauncher;
    WithRmIs(c, q);
    var k := WithRm(c, q);
    assert AtInit(c)(q) == InitControl(c, q, k)(TableMsg(c));
    assert k.(table := TableMsg(c)) == Learned(c, q);
    if c.init(q) == LMON_OK {
      assert AtInit(c)(q) == Mark(ControlReady, Barrier(c.n, q, AskForLauncher(c, q, Learned(c, q))));
    } else {
      assert AtInit(c)(q) == Return(c.init(q));
    }
  }

  lemma Controls(s: State, c: Config)
    requires Daemons(s, c.n, AtInit(c)) && forall q :: 0 <= q < c.n ==> c.init(q) == LMON_OK
    ensures Daemons(s, c.n, AtControl(c))
  {
    hide AtInit, AtControl;
    forall q | 0 <= q < c.n
      ensures s.procs[q] == AtControl(c)(q)
    {
      ControlAt(c, q);
    }
  }

  lemma InitAt(c: Config, q: int)
    requires 0 <= q < c.n
    ensures AtInit(c)(q) == TableKs(c)[q](TableMsg(c))
  {
    hide TableMsg, Barrier, WithRm, InitControl;
  }

  lemma ShareTableTakes(c: Config)
    requires WellFormed(c)
    ensures BcastTakes(c.n, TableMsg(c), TableBufs(c), TableKs(c), AtTable(c), AtInit(c))
  {
    hide EncodeInt, TableMsg, Bcast, WellFormed, TraceMode, Start, Told, WithRm, AtInit, InitControl;
    Owed(c);
    MasterStarts(c);
    forall q | 0 <= q < c.n
      ensures AtInit(c)(q) == TableKs(c)[q](TableMsg(c))
    {
      InitAt(c, q);
    }
  }

  lemma ShareOne(s: State, r: State, c: Config, data: Bytes, bufs: seq<Bytes>, ks: seq<Kont>, from: int -> Proc,
                 to: int -> Proc)
    returns (t: State)
    requires Calmly(r, s, c.n) && Daemons(s, c.n, from) && BcastTakes(c.n, data, bufs, ks, from, to)
    requires c.n < |r.procs| && s.procs[c.n] == r.procs[c.n]
    ensures Calmly(r, t, c.n) && Daemons(t, c.n, to) && t.procs[c.n] == r.procs[c.n] && t.log == s.log
  {
    hide BcastTakes;
    t := CalmBcast(s, c.n, data, bufs, ks, from, to);
    CalmlyThen(r, s, t, c.n);
  }

  lemma ShareRun(s: State, c: Config) returns (t: State)
    requires WellFormed(c) && Calm(s, c.n) && Daemons(s, c.n, AtShare(c))
    ensures Calmly(s, t, c.n) && Daemons(t, c.n, AtInit(c)) && t.procs[c.n] == s.procs[c.n] && t.log == s.log
  {
    hide Calm, Calmly, BcastTakes, WellFormed, Daemons, AtShare, AtRm, AtSize, AtTable, AtInit, EncodeInt,
         TraceMode, TableMsg, ModeBufs, ModeKs, RmBufs, RmKs, SizeBufs, SizeKs, TableBufs, TableKs;
    CalmSize(s, c.n);
    CalmlySelf(s, c.n);
    ShareModeTakes(c);
    t := ShareOne(s, s, c, EncodeInt(TraceMode(c)), ModeBufs(c), ModeKs(c), AtShare(c), AtRm(c));
    ShareRmTakes(c);
    t := ShareOne(t, s, c, EncodeInt(c.rmType), RmBufs(c), RmKs(c), AtRm(c), AtSize(c));
    ShareSizeTakes(c);
    t := ShareOne(t, s, c, EncodeInt(|TableMsg(c)|), SizeBufs(c), SizeKs(c), AtSize(c), AtTable(c));
    ShareTableTakes(c);
    t := ShareOne(t, s, c, TableMsg(c), TableBufs(c), TableKs(c), AtTable(c), AtInit(c));
  }

  // ----- process control is initialized everywhere

  function AtRelease(c: Config): (f: int -> Proc) { q => AskForLauncher(c, q, Learned(c, q))([]) }

  // All n daemons are ready, and each of them knows it.
  ghost predicate AllReady(s: State, n: nat) {
    Shape(s) && n <= |s.procs| && forall p, q :: 0 <= p < n && 0 <= q < n ==> Stamp(p, ControlReady) in s.know[q]
  }

  ghost predicate Unreleased(log: set<Entry>) { forall x :: x in log ==> x.stamp.event != LauncherReleased }

  lemma AnnounceRun(s: State, c: Config) returns (t: State)
    requires Calm(s, c.n) && Daemons(s, c.n, AtControl(c))
    ensures Calmly(s, t, c.n) && t.procs[c.n] == s.procs[c.n]
    ensures forall q :: 0 <= q < c.n ==> t.procs[q] == Barrier(c.n, q, AskForLauncher(c, q, Learned(c, q)))
    ensures forall q :: 0 <= q < c.n ==> Stamp(q, ControlReady) in t.know[q]
    ensures Unreleased(s.log) ==> Unreleased(t.log)
  {
    hide Barrier, Reaches;
    t := Announce(s, c.n, ControlReady);
  }

  lemma ControlRun(s: State, c: Config) returns (t: State)
    requires c.n >= 1 && Calm(s, c.n) && Daemons(s, c.n, AtControl(c))
    ensures Calmly(s, t, c.n) && Daemons(t, c.n, AtRelease(c)) && t.procs[c.n] == s.procs[c.n] && AllReady(t, c.n)
    ensures Unreleased(s.log) ==> Unreleased(t.log)
  {
    hide Barrier, Reaches, AtControl, Safe;
    var n := c.n;
    var u := AnnounceRun(s, c);
    var ks := seq(n, q requires 0 <= q < n => AskForLauncher(c, q, Learned(c, q)));
    t := CalmBarrier(u, n, ks);
    CalmlyThen(s, u, t, n);
  }

  // ----- the launcher is released

  lemma ContRead(c: Config, hosts: Bytes)
    ensures |ContMsg()| == HEADER_SIZE
    ensures ContKont(c, hosts)(ContMsg()) == Mark(LauncherReleased, AwaitReady(c, hosts))
  {
    hide EncodeHeader, DecodeHeader;
    BareHeaderRoundTrip(Plain(CONT_LAUNCH_BP, 0));
  }

  function AwaitReady(c: Config, hosts: Bytes): (p: Proc) {
    Recv(0, HEADER_SIZE, ReadyKont(c, hosts), Return(LMON_EBDMSG))
  }

  function AtSettle(c: Config): (f: int -> Proc) { q => BeSettle(c, q, Learned(c, q)) }
  function AtSynced(c: Config): (f: int -> Proc) { q => BeSynced(c, q, Learned(c, q)) }

  // The front end announces an event it may announce.
  lemma Release(s: State, n: nat, after: Proc) returns (t: State)
    requires Calm(s, n) && s.procs[n] == Mark(LauncherReleased, after)
    requires forall p :: 0 <= p < n ==> Stamp(p, ControlReady) in s.know[n]
    ensures Calmly(s, t, n) && t.procs == s.procs[n := after] && Stamp(n, LauncherReleased) in Stamps(t.log)
  {
    t := Step(s, n);
    ReachesStep(s, n);
    ReachesGrows(s, t);
    assert Entry(Stamp(n, LauncherReleased), s.know[n]) in t.log;
    forall e
      ensures Chan(t, e) == []
    {
      assert Chan(t, e) == Chan(s, e);
    }
  }

  lemma MasterAsks(c: Config)
    ensures AtRelease(c)(0) == Send(c.n, ContMsg(), AtSettle(c)(0))
    ensures forall q :: q != 0 ==> AtRelease(c)(q) == AtSettle(c)(q)
  {
    forall q: int
      ensures AtRelease(c)(q) == AskForLauncher(c, q, Learned(c, q))([])
      ensures AtSettle(c)(q) == BeSettle(c, q, Learned(c, q))
    {
    }
  }

  lemma Settles(s: State, c: Config)
    requires Daemons(s, c.n, AtSettle(c)) && forall q :: 0 <= q < c.n ==> c.settle(q) == LMON_OK
    ensures Daemons(s, c.n, AtSynced(c))
  {
    hide BeSynced;
    forall q | 0 <= q < c.n
      ensures s.procs[q] == AtSynced(c)(q)
    {
      assert s.procs[q] == AtSettle(c)(q) && c.settle(q) == LMON_OK;
    }
  }

  lemma ReleaseRun(s: State, c: Config) returns (t: State)
    requires c.n >= 1 && Calm(s, c.n) && Daemons(s, c.n, AtRelease(c)) && AllReady(s, c.n)
    requires s.procs[c.n] == FeAwait(c, HostsMsg(c))
    ensures Calmly(s, t, c.n) && Daemons(t, c.n, AtSettle(c)) && t.procs[c.n] == AwaitReady(c, HostsMsg(c))
    ensures Stamp(c.n, LauncherReleased) in Stamps(t.log)
  {
    hide ContMsg, ContKont, HostsMsg, Stamps, Reaches, Safe, AtRelease, AtSettle, Fortunate;
    var n := c.n;
    ContRead(c, HostsMsg(c));
    assert s.procs[0] == AtRelease(c)(0);
    MasterAsks(c);
    var u := Tell(s, n, 0, n);
    t := Release(u, n, AwaitReady(c, HostsMsg(c)));
    CalmlyThen(s, u, t, n);
  }

  // ----- the ready message

  function Ending(c: Config, q: int): (outcome: Outcome) {
    Value([EncodeInt(TraceMode(c)), EncodeInt(c.rmType), TableMsg(c), if q == 0 then Usr(c) else []])
  }
  function Reported(c: Config): (b: Bytes) { if c.befe.Some? then c.befe.value else [] }

  // The front end reports an error of its own callback, which no daemon hears of.
  function FeEnding(c: Config): (outcome: Outcome) {
    if Reported(c) == [] || (c.wanted && c.unpack(Reported(c)) >= 0) then Value([HostsMsg(c), Reported(c)])
    else Code(if c.wanted then LMON_ENEGCB else LMON_ENCLLB)
  }

  lemma ReadyRead(c: Config)
    requires WellFormed(c)
    ensures |ReadyMsg(c)| == HEADER_SIZE + |Reported(c)|
    ensures var done := Done(FeEnding(c));
      if Reported(c) == [] then ReadyKont(c, HostsMsg(c))(ReadyMsg(c)) == done
      else var r := ReadyKont(c, HostsMsg(c))(ReadyMsg(c)[..HEADER_SIZE]);
        r.Recv? && r.from == 0 && r.size == |Reported(c)| && r.onData(ReadyMsg(c)[HEADER_SIZE..]) == done
  {
    hide EncodeHeader, DecodeHeader, HostsMsg;
    var h := ReadyHeader(c);
    MessageParts(h, Reported(c));
    if Reported(c) == [] { assert EncodeHeader(h) + [] == EncodeHeader(h); }
  }

  function AtReady(c: Config): (f: int -> Proc) { q => BeReady(c, q, Learned(c, q))([]) }
  function AtEnd(c: Config): (f: int -> Proc) { q => Barrier(c.n, q, BeFinish(Learned(c, q))) }
  function AtDone(c: Config): (f: int -> Proc) { q => Done(Ending(c, q)) }

  lemma MasterReports(c: Config)
    ensures AtReady(c)(0) == Send(c.n, ReadyMsg(c), AtEnd(c)(0)) && forall q :: q != 0 ==> AtReady(c)(q) == AtEnd(c)(q)
  {
    forall q: int
      ensures AtReady(c)(q) == BeReady(c, q, Learned(c, q))([]) &&
        AtEnd(c)(q) == Barrier(c.n, q, BeFinish(Learned(c, q)))
    {
    }
  }

  lemma ReadyRun(s: State, c: Config) returns (t: State)
    requires WellFormed(c) && Calm(s, c.n) && Daemons(s, c.n, AtReady(c)) && s.procs[c.n] == AwaitReady(c, HostsMsg(c))
    ensures Calmly(s, t, c.n) && Daemons(t, c.n, AtEnd(c)) && t.procs[c.n] == Done(FeEnding(c))
  {
    hide ReadyMsg, ReadyKont, HostsMsg, FeEnding, Reaches, Safe, WellFormed, Reported, Grows, AtReady, AtEnd;
    Owed(c);
    ReadyRead(c);
    assert s.procs[0] == AtReady(c)(0);
    MasterReports(c);
    if Reported(c) == [] {
      t := Tell(s, c.n, 0, c.n);
    } else {
      t := TellInTwo(s, c.n, 0, c.n);
    }
  }

  lemma SyncedRun(s: State, c: Config) returns (t: State)
    requires c.n >= 1 && Calm(s, c.n) && Daemons(s, c.n, AtSynced(c))
    ensures Calmly(s, t, c.n) && Daemons(t, c.n, AtReady(c)) && t.procs[c.n] == s.procs[c.n]
  {
    hide Barrier, Calm, Calmly, BeReady;
    var n := c.n;
    t := CalmBarrier(s, n, seq(n, q requires 0 <= q < n => BeReady(c, q, Learned(c, q))));
    CalmAfter(s, t, n);
  }

  lemma EndRun(s: State, c: Config) returns (t: State)
    requires c.n >= 1 && Calm(s, c.n) && Daemons(s, c.n, AtEnd(c))
    ensures Calmly(s, t, c.n) && Daemons(t, c.n, AtDone(c)) && t.procs[c.n] == s.procs[c.n]
  {
    hide Barrier, Calm, Calmly, TraceMode, TableMsg, Usr, EncodeInt;
    var n := c.n;
    t := CalmBarrier(s, n, seq(n, q requires 0 <= q < n => BeFinish(Learned(c, q))));
    CalmAfter(s, t, n);
  }

  // ----- the whole session

  lemma InitIsCalm(c: Config)
    requires c.n >= 1 && c.key[..0] == []
    ensures Calm(Init(c), c.n) && Truthful(Init(c)) && Init(c).procs[0] == BeKeys(c, 0) && Init(c).log == {}
    ensures Init(c).procs[c.n] == FeKeys(c, 0, c.key[..0]) &&
      forall q :: 0 < q < c.n ==> Init(c).procs[q] == BeInit(c, q)
  {
    hide BeKeys, FeKeys, BeInit;
  }

  // Up to where the master has all host names.
  lemma GreetingRun(c: Config) returns (t: State)
    requires WellFormed(c)
    ensures Calmly(Init(c), t, c.n) && t.procs[c.n] == FeKeys(c, KEY_WORDS, c.key) && t.log == {}
    ensures forall q :: 0 <= q < c.n ==> t.procs[q] == Gathered(c, q)(if q == 0 then Concat(c.hosts) else [])
  {
    hide WellFormed, BeKeys, FeKeys, BeInit, Calm, Calmly, Gathered, Init, Concat, Truthful;
    Owed(c);
    var s, n := Init(c), c.n;
    InitIsCalm(c);
    CalmSize(s, n);
    var a := KeysRun(s, c, 0);
    CalmAfter(s, a, n);
    t := InitRun(a, c);
    CalmlyThen(s, a, t, n);
  }

  lemma SlaveGathered(c: Config, q: int)
    requires q != 0
    ensures Gathered(c, q)([]) == AtShare(c)(q)
  {
    hide BeShare;
  }

  // Up to where the master is about to share what it was told.
  lemma OpeningRun(c: Config) returns (t: State)
    requires WellFormed(c) && c.authorize(c.key) && c.febe != Refused && c.table.lmonLength > 0
    ensures Calmly(Init(c), t, c.n) && Daemons(t, c.n, AtShare(c)) && t.procs[c.n] == Ordered(c) && t.log == {}
  {
    hide WellFormed, AwaitHosts, HostsMsg, TableMsg, OrdersNext, BeTable, Told, Calm, Calmly, Ordered, BeShare,
         ModeKont, Gathered, Init, Concat, FeKeys;
    Owed(c);
    var s, n := Init(c), c.n;
    var b := GreetingRun(c);
    Recognized(c);
    CalmAfter(s, b, n);
    var a := HostsRun(b, c);
    CalmlyThen(s, b, a, n);
    CalmAfter(s, a, n);
    var d := TableRun(a, c);
    CalmlyThen(s, a, d, n);
    CalmAfter(s, d, n);
    t := OrdersRun(d, c);
    CalmlyThen(s, d, t, n);
    CalmAfter(s, t, n);
    assert AtShare(c)(0) == BeShare(c, 0, Told(c));
    forall q | 0 <= q < n
      ensures t.procs[q] == AtShare(c)(q)
    {
      if q != 0 { SlaveGathered(c, q); }
    }
  }

  lemma ClosingRun(s: State, r: State, c: Config) returns (t: State)
    requires WellFormed(c) && Fortunate(c) && Calmly(r, s, c.n) && Daemons(s, c.n, AtShare(c)) &&
      s.procs[c.n] == FeAwait(c, HostsMsg(c))
    ensures Calmly(r, t, c.n) && Daemons(t, c.n, AtDone(c)) && t.procs[c.n] == Done(FeEnding(c))
    ensures Stamp(c.n, LauncherReleased) in Stamps(t.log)
  {
    hide WellFormed, FeEnding, Calm, Calmly, Daemons, AtShare, AtInit, AtControl, AtRelease, AtSettle, AtSynced,
         AtReady, AtEnd, AtDone, HostsMsg, Reported, FeAwait, AwaitReady, AllReady, Stamps;
    Owed(c);
    var n := c.n;
    CalmAfter(r, s, n);
    var a := ShareRun(s, c);
    CalmAfter(s, a, n);
    CalmlyThen(r, s, a, n);
    Controls(a, c);
    var b := ControlRun(a, c);
    CalmAfter(a, b, n);
    CalmlyThen(r, a, b, n);
    var d := ReleaseRun(b, c);
    CalmAfter(b, d, n);
    CalmlyThen(r, b, d, n);
    Settles(d, c);
    var e := SyncedRun(d, c);
    CalmAfter(d, e, n);
    CalmlyThen(r, d, e, n);
    var f := ReadyRun(e, c);
    CalmAfter(e, f, n);
    CalmlyThen(r, e, f, n);
    t := EndRun(f, c);
    CalmlyThen(r, f, t, n);
    LogKeeps(d, e, n); LogKeeps(e, f, n); LogKeeps(f, t, n);
    StampsGrow(d.log, t.log);
  }

  lemma LogKeeps(s: State, t: State, n: nat)
    requires Calmly(s, t, n)
    ensures s.log <= t.log
  {
  }

  lemma StampsGrow(a: set<Entry>, b: set<Entry>)
    requires a <= b
    ensures Stamps(a) <= Stamps(b)
  {
  }

  // Everybody has returned, the daemons successfully, with what it should have learned, and no byte is left anywhere.
  ghost predicate Complete(f: State, c: Config) {
    |f.procs| == c.n + 1 && (forall e :: Chan(f, e) == []) &&
    f.procs[c.n] == Done(FeEnding(c)) &&
    (forall q :: 0 <= q < c.n ==> f.procs[q] == Done(Ending(c, q))) && Stamp(c.n, LauncherReleased) in Stamps(f.log)
  }

  // If the launcher has been released, all daemons have initialized process control before.
  ghost predicate ReleasedLast(log: set<Entry>, n: nat) {
    forall q, p :: Stamp(q, LauncherReleased) in Stamps(log) && 0 <= p < n ==> Stamp(p, ControlReady) in Stamps(log)
  }

  lemma SafeIsReleasedLast(log: set<Entry>, all: set<Entry>, n: nat)
    requires Safe(all, n) && log <= all && forall x :: x in log ==> x.past <= Stamps(log)
    ensures ReleasedLast(log, n)
  {
    forall q, p | Stamp(q, LauncherReleased) in Stamps(log) && 0 <= p < n
      ensures Stamp(p, ControlReady) in Stamps(log)
    {
      var x :| x in log && x.stamp == Stamp(q, LauncherReleased);
      assert Stamp(p, ControlReady) in x.past;
    }
  }

  lemma Completed(s: State, f: State, c: Config)
    requires Calmly(s, f, c.n) && Daemons(f, c.n, AtDone(c)) && f.procs[c.n] == Done(FeEnding(c))
    requires Stamp(c.n, LauncherReleased) in Stamps(f.log)
    ensures Complete(f, c) && Reaches(s, f) && Safe(f.log, c.n) && Stuck(f)
  {
    hide FeEnding, Ending, Reaches, Safe;
    assert forall q :: 0 <= q < c.n ==> f.procs[q] == AtDone(c)(q);
  }

  // What holds of a state reached by `steps` steps when every run takes `total` steps to f.
  ghost predicate OnTrack(t: State, steps: nat, c: Config, total: nat, f: State) {
    steps <= total && Reaches(t, f) && ReleasedLast(t.log, c.n) && (Stuck(t) ==> t == f && steps == total)
  }

  // One end is enough: every other run is on its way to it.
  lemma EveryRunTo(c: Config, f: State) returns (total: nat)
    requires c.n >= 1 && c.key[..0] == [] && Reaches(Init(c), f) && Stuck(f) && Safe(f.log, c.n)
    ensures forall sched, t :: Run(Init(c), sched) == Some(t) ==> OnTrack(t, |sched|, c, total, f)
  {
    hide Init, Safe, ReleasedLast, Stuck, Truthful;
    InitIsCalm(c);
    var s := Init(c);
    var good :| Run(s, good) == Some(f);
    total := |good|;
    forall sched, t | Run(s, sched) == Some(t)
      ensures OnTrack(t, |sched|, c, total, f)
    {
      var rest := EveryRun(s, good, f, sched, t);
      SafeIsReleasedLast(t.log, f.log, c.n);
    }
  }

  // A schedule of a session in which all goes well.
  lemma FortunateRun(c: Config) returns (f: State)
    requires WellFormed(c) && Fortunate(c)
    ensures Complete(f, c) && Reaches(Init(c), f) && Safe(f.log, c.n) && Stuck(f)
  {
    hide WellFormed, FeEnding, Init, HostsMsg, Reported, FeAwait, Calmly, Calm, Daemons, Complete, AtDone, AtShare,
         Safe, Stuck;
    var u := OpeningRun(c);
    f := ClosingRun(u, Init(c), c);
    Completed(Init(c), f, c);
  }

  // For any number of daemons, any mode, any user data or none: however the front end and the daemons
  // interleave, every run ends with all daemons successful, the front end with the result of its own callback, and
  // every message read to its last byte; and at no time has the launcher been released while some daemon has not
  // initialized process control.
  lemma EverySession(c: Config) returns (total: nat, f: State)
    requires WellFormed(c) && Fortunate(c)
    ensures Complete(f, c)
    ensures forall sched, t :: Run(Init(c), sched) == Some(t) ==> OnTrack(t, |sched|, c, total, f)
  {
    hide WellFormed, Fortunate, Init, Complete, Safe, Stuck, Run, OnTrack, Reaches;
    Owed(c);
    f := FortunateRun(c);
    total := EveryRunTo(c, f);
  }

  // ----- a front end without a process table

  // Only the front end has written, and nothing but to the master.
  ghost predicate Hushed(r: State, s: State, n: nat) {
    Reaches(r, s) && Shape(s) && |s.procs| == n + 1 && Safe(s.log, n) &&
      forall e :: e != Edge(n, 0) ==> Chan(s, e) == []
  }

  lemma CalmIsHushed(r: State, s: State, n: nat)
    requires Calmly(r, s, n)
    ensures Hushed(r, s, n) && Payload(Chan(s, Edge(n, 0))) == []
  {
  }

  lemma WritesOn(r: State, s: State, n: nat) returns (t: State)
    requires Hushed(r, s, n) && s.procs[n].Send? && s.procs[n].to == 0
    ensures Hushed(r, t, n) && t.procs == s.procs[n := s.procs[n].next] && t.log == s.log
    ensures Payload(Chan(t, Edge(n, 0))) == Payload(Chan(s, Edge(n, 0))) + s.procs[n].data
  {
    hide Payload, Reaches, Safe;
    t := Step(s, n);
    ReachesStep(s, n);
    ReachesTransitive(r, s, t);
    WroteChannel(s, n);
    forall e | e != Edge(n, 0)
      ensures Chan(t, e) == []
    {
      OtherChannel(s, n, e);
    }
  }

  lemma HearsOn(r: State, s: State, n: nat, d: Bytes) returns (t: State)
    requires n >= 1 && Hushed(r, s, n) && s.procs[0].Recv? && s.procs[0].from == n && s.procs[0].size == |d|
    requires d <= Payload(Chan(s, Edge(n, 0)))
    ensures Hushed(r, t, n) && t.procs == s.procs[0 := s.procs[0].onData(d)] && t.log == s.log
  {
    hide Reaches, Safe;
    var c := Chan(s, Edge(n, 0));
    assert |c| == |Payload(c)| && Payload(c[..|d|]) == d;
    t := Step(s, 0);
    ReachesStep(s, 0);
    ReachesTransitive(r, s, t);
    forall e | e != Edge(n, 0)
      ensures Chan(t, e) == []
    {
      OtherChannel(s, 0, e);
    }
  }

  lemma MeetsEof(r: State, s: State, n: nat, p: int) returns (t: State)
    requires Hushed(r, s, n) && 0 < p <= n && s.procs[p].Recv? && s.procs[p].size > 0 && Departed(s, s.procs[p].from)
    ensures Hushed(r, t, n) && t.procs == s.procs[p := s.procs[p].onEof] && t.log == s.log
  {
    hide Reaches, Safe;
    assert Chan(s, Edge(s.procs[p].from, p)) == [];
    Unserved(s, p);
    t := Step(s, p);
    ReachesStep(s, p);
    ReachesTransitive(r, s, t);
    forall e | e != Edge(n, 0)
      ensures Chan(t, e) == []
    {
      assert Chan(t, e) == Chan(s, e);
    }
  }

  lemma TurnsAway(c: Config)
    requires WellFormed(c) && c.table.lmonLength == 0
    ensures |EncodeHeader(Relabel(c.table))| == HEADER_SIZE && EncodeHeader(Relabel(c.table)) <= TableMsg(c)
    ensures TableKont(c)(EncodeHeader(Relabel(c.table))) == Return(LMON_EBDMSG)
  {
    hide EncodeHeader, DecodeHeader;
    MessageParts(Relabel(c.table), c.entries);
  }

  // What the front end returns when the master has turned away its table.
  function AwayCode(c: Config): (code: int) {
    match c.febe
    case NoData => LMON_ESYS
    case NoCallback => LMON_ENCLLB
    case Refused => LMON_EINVAL
    case Packed(_) => LMON_ESYS
  }

  // The front end writes what it has left to write and returns, after the end of file if it awaits an answer.
  lemma FrontEndLeft(r: State, s: State, c: Config) returns (t: State)
    requires c.n >= 1 && Hushed(r, s, c.n) && s.procs[0].Done? && s.procs[c.n] == FeUsrData(c, HostsMsg(c))
    ensures Hushed(r, t, c.n) && t.log == s.log && t.procs == s.procs[c.n := Return(AwayCode(c))]
  {
    hide UsrMsg, HostsMsg, Hushed, FeUsrData, Ordered;
    HushedSize(r, s, c.n);
    t := s;
    if c.febe == Refused {
      assert FeUsrData(c, HostsMsg(c)) == Return(LMON_EINVAL) by { RefusedNext(c); }
    } else {
      UsrSent(c);
      t := WritesOn(r, s, c.n);
      OrderedIs(c);
      HushedSize(r, t, c.n);
      if c.febe != NoCallback { t := MeetsEof(r, t, c.n, c.n); }
    }
  }

  lemma RefusedNext(c: Config)
    requires c.febe == Refused
    ensures FeUsrData(c, HostsMsg(c)) == Return(LMON_EINVAL)
  {
    hide HostsMsg;
  }

  lemma OrderedIs(c: Config)
    ensures if c.febe == NoCallback then Ordered(c) == Return(LMON_ENCLLB)
      else Ordered(c) == Recv(0, HEADER_SIZE, ContKont(c, HostsMsg(c)), Return(LMON_ESYS))
  {
    hide HostsMsg, ContKont;
  }

  // The front end writes all its messages, the master returns at the first of them, and so does the front end then.
  lemma MasterTurnsAway(r: State, s: State, c: Config) returns (t: State)
    requires WellFormed(c) && c.table.lmonLength == 0
    requires Hushed(r, s, c.n) && Payload(Chan(s, Edge(c.n, 0))) == []
    requires s.procs[0] == BeTable(c) && s.procs[c.n] == Send(0, TableMsg(c), OrdersNext(c))
    ensures Hushed(r, t, c.n) && t.procs == s.procs[0 := Return(LMON_EBDMSG)][c.n := Return(AwayCode(c))]
    ensures t.log == s.log
  {
    hide WellFormed, TableMsg, ModeMsg, RmMsg, FeUsrData, HostsMsg, TableKont, Hushed, EncodeHeader, Relabel, Payload,
         Chan, AwayCode;
    Owed(c);
    HushedSize(r, s, c.n);
    TurnsAway(c);
    var a := WritesOn(r, s, c.n);
    HushedSize(r, a, c.n);
    assert [] + TableMsg(c) == TableMsg(c);
    var b := HearsOn(r, a, c.n, EncodeHeader(Relabel(c.table)));
    var d := WritesOn(r, b, c.n);
    var e := WritesOn(r, d, c.n);
    HushedSize(r, e, c.n);
    t := FrontEndLeft(r, e, c);
  }

  lemma HushedSize(r: State, s: State, n: nat)
    requires Hushed(r, s, n)
    ensures |s.procs| == n + 1
  {
  }

  // One slave after the other finds its parent gone.
  lemma {:induction false} SlavesGiveUp(r: State, s: State, c: Config, m: nat) returns (t: State)
    requires 1 <= m <= c.n && Hushed(r, s, c.n) && s.procs[0].Done?
    requires forall q :: 0 < q < c.n ==> s.procs[q] == AtShare(c)(q)
    ensures Hushed(r, t, c.n) && t.procs[c.n] == s.procs[c.n] && t.procs[0] == s.procs[0] && t.log == s.log
    ensures forall q :: 0 < q < m ==> t.procs[q] == Done(Code(1))
    ensures forall q :: m <= q < c.n ==> t.procs[q] == AtShare(c)(q)
    decreases m
  {
    hide Hushed, AtShare, Parent;
    HushedSize(r, s, c.n);
    if m == 1 {
      t := s;
    } else {
      var u := SlavesGiveUp(r, s, c, m - 1);
      HushedSize(r, u, c.n);
      SlaveWaits(c, m - 1);
      t := MeetsEof(r, u, c.n, m - 1);
    }
  }

  // Waits for an earlier rank, and exits at end of file.
  ghost predicate Awaits(p: Proc, q: int) { p.Recv? && 0 <= p.from < q && p.size > 0 && p.onEof == Done(Code(1)) }

  lemma SlaveWaits(c: Config, q: int)
    requires 0 < q < c.n
    ensures Awaits(AtShare(c)(q), q)
  {
    hide WalkParent, Start, EncodeInt, Kids, FanOut, Slice, ShareRm, TableMsg, TraceMode;
    ParentInRange(q, 0, c.n - 1, 0);
  }

  ghost predicate AllReturned(f: State, n: nat) { |f.procs| == n + 1 && forall p :: 0 <= p <= n ==> f.procs[p].Done? }

  // The front end and the master have returned these codes, and all slaves have exited.
  ghost predicate Abandoned(f: State, n: nat, front: int, master: int) {
    n >= 1 && |f.procs| == n + 1 && f.procs[n] == Done(Code(front)) && f.procs[0] == Done(Code(master)) &&
    forall q :: 0 < q < n ==> f.procs[q] == Done(Code(1))
  }

  lemma SlavesAbandon(r: State, s: State, c: Config, front: int) returns (f: State)
    requires c.n >= 1 && Hushed(r, s, c.n) && s.procs[0] == Return(LMON_EBDMSG) && s.procs[c.n] == Return(front)
    requires forall q :: 0 < q < c.n ==> s.procs[q] == AtShare(c)(q)
    ensures Hushed(r, f, c.n) && Abandoned(f, c.n, front, LMON_EBDMSG) && f.log == s.log
  {
    hide Hushed, AtShare;
    f := SlavesGiveUp(r, s, c, c.n);
    HushedSize(r, f, c.n);
  }

  // One schedule of such a session, in which all return.
  lemma TurnedAwayRun(c: Config) returns (f: State)
    requires WellFormed(c) && c.authorize(c.key) && c.table.lmonLength == 0
    ensures Reaches(Init(c), f) && f.log == {} && Abandoned(f, c.n, AwayCode(c), LMON_EBDMSG)
  {
    hide WellFormed, AwaitHosts, HostsMsg, TableMsg, OrdersNext, BeTable, Calm, Calmly, Gathered, Init, Concat,
         AtShare, Hushed, Safe, Reaches, FeKeys, AwayCode, Abandoned;
    Owed(c);
    var s, n := Init(c), c.n;
    var b := GreetingRun(c);
    Recognized(c);
    CalmAfter(s, b, n);
    var a := HostsRun(b, c);
    CalmlyThen(s, b, a, n);
    CalmIsHushed(s, a, n);
    CalmAfter(s, a, n);
    var d := MasterTurnsAway(s, a, c);
    forall q | 0 < q < n
      ensures d.procs[q] == AtShare(c)(q)
    {
      SlaveGathered(c, q);
    }
    f := SlavesAbandon(s, d, c, AwayCode(c));
    HushedMeans(s, f, n);
  }

  lemma AbandonedIsReturned(f: State, n: nat, front: int, master: int)
    requires Abandoned(f, n, front, master)
    ensures AllReturned(f, n)
  {
  }

  lemma CompleteIsReturned(f: State, c: Config)
    requires Complete(f, c)
    ensures AllReturned(f, c.n)
  {
    hide Ending, FeEnding;
  }

  lemma ReturnedIsStuck(f: State, n: nat)
    requires AllReturned(f, n)
    ensures Stuck(f)
  {
  }

  lemma TurnedAwaySession(c: Config) returns (total: nat, f: State)
    requires WellFormed(c) && Healthy(c) && c.table.lmonLength == 0
    ensures AllReturned(f, c.n)
    ensures forall sched, t :: Run(Init(c), sched) == Some(t) ==> OnTrack(t, |sched|, c, total, f)
  {
    hide WellFormed, Init, AllReturned, Stuck, AwayCode, Abandoned, Run, OnTrack, Reaches;
    Owed(c);
    f := TurnedAwayRun(c);
    AbandonedIsReturned(f, c.n, AwayCode(c), LMON_EBDMSG);
    ReturnedIsStuck(f, c.n);
    total := EveryRunTo(c, f);
  }

  // With or without a process table, a session in which the rest goes well has one end, in which all have returned.
  lemma HealthySession(c: Config) returns (total: nat, f: State)
    requires WellFormed(c) && Healthy(c)
    ensures AllReturned(f, c.n)
    ensures forall sched, t :: Run(Init(c), sched) == Some(t) ==> OnTrack(t, |sched|, c, total, f)
  {
    hide WellFormed, Healthy, Complete, Init, AllReturned, OnTrack, Run;
    Owed(c);
    if c.table.lmonLength > 0 {
      total, f := EverySession(c);
      CompleteIsReturned(f, c);
    } else {
      TableLength(c);
      total, f := TurnedAwaySession(c);
    }
  }

  lemma TableLength(c: Config)
    requires WellFormed(c)
    ensures c.table.lmonLength >= 0
  {
  }

  lemma HushedMeans(r: State, s: State, n: nat)
    requires Hushed(r, s, n)
    ensures Reaches(r, s) && Safe(s.log, n) && |s.procs| == n + 1
  {
  }

  // ----- what the parties have in hand at the end

  // If the front end holds a table as the engine ships it, the message every daemon has received is that table.
  lemma DaemonsHaveTable(c: Config, tasks: seq<Rpdtab.ProcDesc>)
    requires WellFormed(c) && Rpdtab.Shippable(tasks) && c.table == Rpdtab.ShipHeader(tasks) &&
      c.entries == Rpdtab.Payload(tasks)
    ensures forall q :: 0 <= q < c.n ==> Ending(c, q).Value? && Ending(c, q).results[2] == TableMsg(c)
    ensures Rpdtab.Table(TableMsg(c)) == Some(tasks)
  {
    hide EncodeInt, EncodeHeader, Rpdtab.Payload, Rpdtab.ShipHeader, Rpdtab.Table;
    Rpdtab.ShipHeaderFits(tasks);
    Rpdtab.TableBehind(Relabel(c.table), tasks);
  }

  lemma {:induction false} CStringInSlot(slot: Bytes, rest: Bytes)
    requires 0 in slot
    ensures CString(slot + rest) == CString(slot) && NoNul(CString(slot))
  {
    if slot[0] == 0 {
      assert (slot + rest)[0] == 0;
    } else {
      assert slot == [slot[0]] + slot[1..];
      CStringInSlot(slot[1..], rest);
      assert (slot + rest)[1..] == slot[1..] + rest;
    }
  }

  lemma NameInSlot(hosts: seq<Bytes>, i: nat)
    requires i < |hosts| && Blocks(hosts, |hosts|, HostTable.HN_MAX) && 0 in hosts[i]
    ensures HostTable.NameAt(Concat(hosts), i) == CString(hosts[i]) && NoNul(CString(hosts[i]))
  {
    hide CString;
    var buf, at := Concat(hosts), 108 * i;
    BlockAt(hosts, HostTable.HN_MAX, i);
    assert buf[at..] == hosts[i] + buf[at + 108..];
    CStringInSlot(hosts[i], buf[at + 108..]);
  }

  // The front end has every daemon's host name, at the daemon's rank.
  lemma FrontEndHasHosts(c: Config)
    requires WellFormed(c) && forall q :: 0 <= q < c.n ==> 0 in c.hosts[q]
    ensures forall i: nat :: i < c.n ==> HostTable.HostAt(HostsMsg(c), i) == Some(CString(c.hosts[i]))
  {
    hide CString, HostTable.HostAt, HostTable.Message, HostTable.NameAt, HostTable.Payload;
    Owed(c);
    forall i: nat | i < c.n
      ensures Names(c)[i] == CString(c.hosts[i]) && NoNul(Names(c)[i])
    {
      NameInSlot(c.hosts, i);
    }
    HostTable.MessageRoundTrip(Names(c));
  }
}
