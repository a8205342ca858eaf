// A session in which anything may fail: the front end may turn the master away or give up over its callbacks, and
// any daemon may fail in process control, after which end of file brings down whoever waits for it. Whatever fails,
// the parties have done no more than a part of what they do in a session in which nothing fails.
module SessionSafety {
  import opened Bytestream
  import opened Network
  import opened Collectives
  import opened Tracking
  import opened Lmonp
  import opened Session
  import opened SessionRuns
  import HostTable

  // ----- the session in which nothing fails

  function Recognize(): (list: seq<int> -> bool) { _ => true }
  function Succeed(): (f: int -> int) { _ => LMON_OK }

  function Mended(c: Config): (d: Config) {
    c.(authorize := Recognize(), febe := if c.febe.Packed? then c.febe else NoData,
       init := Succeed(), settle := Succeed())
  }

  lemma MendedIsHealthy(c: Config)
    requires WellFormed(c)
    ensures WellFormed(Mended(c)) && Healthy(Mended(c)) && Mended(c).table == c.table
  {
    assert Usr(Mended(c)) == Usr(c) && Names(Mended(c)) == Names(c);
  }

  // ----- the daemons up to where the master listens to the front end, and from where it shares what it was told

  // A daemon may stop anywhere, hears other daemons only, and announces nothing but process control that works. The
  // early part of the master ends where both wait for the process table.
  ghost function DaemonTerms(c: Config, me: int, early: bool): (terms: Terms) {
    Terms((p: Proc, q: Proc) => p.Done? || (early && p == BeTable(c) && q == BeTable(Mended(c))),
          c.n,
          (e: Event) => e.ControlReady? && c.init(me) == LMON_OK)
  }

  ghost predicate Lags(c: Config, me: int, early: bool, p: Proc, q: Proc) { Tracks(DaemonTerms(c, me, early), p, q) }

  lemma StoppedLags(c: Config, me: int, early: bool, p: Proc, q: Proc)
    requires p.Done?
    ensures Lags(c, me, early, p, q)
  {
  }

  lemma ListeningLags(c: Config, me: int)
    ensures Lags(c, me, true, BeTable(c), BeTable(Mended(c)))
  {
    hide BeTable;
  }

  lemma LagsOn(c: Config, me: int, early: bool, p: Proc, q: Proc)
    requires Lags(c, me, early, p, q) && !p.Done? && (early ==> p != BeTable(c))
    ensures SameHead(p, q) && (p.Recv? ==> p.from != c.n && p.onEof == EXIT)
    ensures p.Mark? ==> p.event == ControlReady && c.init(me) == LMON_OK
    ensures forall d :: Lags(c, me, early, Next(p, d), Next(q, d))
  {
    hide BeTable, Mended;
  }

  lemma ReadyLags(c: Config, me: int, k: Session.Known, d: Bytes)
    requires 0 <= me < c.n
    ensures Lags(c, me, false, BeReady(c, me, k)(d), BeReady(Mended(c), me, k)(d))
  {
    hide Tracks, Barrier, EncodeHeader;
    var terms := DaemonTerms(c, me, false);
    forall e
      ensures Tracks(terms, BeFinish(k)(e), BeFinish(k)(e))
    {
      StoppedLags(c, me, false, BeFinish(k)(e), BeFinish(k)(e));
    }
    BarrierTracks(terms, c.n, me, BeFinish(k), BeFinish(k));
    if me == 0 { Sends(terms, c.n, ReadyMsg(c), Barrier(c.n, me, BeFinish(k)), Barrier(c.n, me, BeFinish(k))); }
  }

  lemma SettleLags(c: Config, me: int, k: Session.Known)
    requires 0 <= me < c.n
    ensures Lags(c, me, false, BeSettle(c, me, k), BeSettle(Mended(c), me, k))
  {
    hide Tracks, Barrier, BeReady;
    var terms := DaemonTerms(c, me, false);
    forall d
      ensures Tracks(terms, BeReady(c, me, k)(d), BeReady(Mended(c), me, k)(d))
    {
      ReadyLags(c, me, k, d);
    }
    BarrierTracks(terms, c.n, me, BeReady(c, me, k), BeReady(Mended(c), me, k));
    if c.settle(me) != LMON_OK { StoppedLags(c, me, false, BeSettle(c, me, k), BeSettle(Mended(c), me, k)); }
  }

  lemma AskLags(c: Config, me: int, k: Session.Known, d: Bytes)
    requires 0 <= me < c.n
    ensures Lags(c, me, false, AskForLauncher(c, me, k)(d), AskForLauncher(Mended(c), me, k)(d))
  {
    hide Tracks, BeSettle, ContMsg;
    SettleLags(c, me, k);
    if me == 0 { Sends(DaemonTerms(c, me, false), c.n, ContMsg(), BeSettle(c, me, k), BeSettle(Mended(c), me, k)); }
  }

  lemma ControlLags(c: Config, me: int, k: Session.Known, d: Bytes)
    requires 0 <= me < c.n
    ensures Lags(c, me, false, InitControl(c, me, k)(d), InitControl(Mended(c), me, k)(d))
  {
    hide Tracks, Barrier, AskForLauncher;
    var terms, a, b := DaemonTerms(c, me, false), AskForLauncher(c, me, k.(table := d)),
      AskForLauncher(Mended(c), me, k.(table := d));
    if c.init(me) != LMON_OK {
      StoppedLags(c, me, false, InitControl(c, me, k)(d), InitControl(Mended(c), me, k)(d));
    } else {
      forall e
        ensures Tracks(terms, a(e), b(e))
      {
        AskLags(c, me, k.(table := d), e);
      }
      BarrierTracks(terms, c.n, me, a, b);
      Marks(terms, ControlReady, Barrier(c.n, me, a), Barrier(c.n, me, b));
    }
  }

  lemma ShareTableLags(c: Config, me: int, k: Session.Known, d: Bytes)
    requires 0 <= me < c.n
    ensures Lags(c, me, false, ShareTable(c, me, k)(d), ShareTable(Mended(c), me, k)(d))
  {
    hide Tracks, Bcast, InitControl, DecodeInt;
    var size := DecodeInt(d);
    if size < 0 {
      StoppedLags(c, me, false, EXIT, EXIT);
    } else {
      forall e
        ensures Lags(c, me, false, InitControl(c, me, k)(e), InitControl(Mended(c), me, k)(e))
      {
        ControlLags(c, me, k, e);
      }
      BcastTracks(DaemonTerms(c, me, false), c.n, me, k.table, size, InitControl(c, me, k),
        InitControl(Mended(c), me, k));
    }
  }

  lemma ShareSizeLags(c: Config, me: int, k: Session.Known, d: Bytes)
    requires 0 <= me < c.n
    ensures Lags(c, me, false, ShareSize(c, me, k)(d), ShareSize(Mended(c), me, k)(d))
  {
    hide Tracks, Bcast, ShareTable, EncodeInt;
    var r := k.(rm := d);
    forall e
      ensures Lags(c, me, false, ShareTable(c, me, r)(e), ShareTable(Mended(c), me, r)(e))
    {
      ShareTableLags(c, me, r, e);
    }
    BcastTracks(DaemonTerms(c, me, false), c.n, me, EncodeInt(|k.table|), INT_SIZE, ShareTable(c, me, r),
      ShareTable(Mended(c), me, r));
  }

  lemma ShareRmLags(c: Config, me: int, k: Session.Known, d: Bytes)
    requires 0 <= me < c.n
    ensures Lags(c, me, false, ShareRm(c, me, k)(d), ShareRm(Mended(c), me, k)(d))
  {
    hide Tracks, Bcast, ShareSize;
    var m := k.(mode := d);
    forall e
      ensures Lags(c, me, false, ShareSize(c, me, m)(e), ShareSize(Mended(c), me, m)(e))
    {
      ShareSizeLags(c, me, m, e);
    }
    BcastTracks(DaemonTerms(c, me, false), c.n, me, k.rm, INT_SIZE, ShareSize(c, me, m), ShareSize(Mended(c), me, m));
  }

  lemma ShareLags(c: Config, me: int, k: Session.Known)
    requires 0 <= me < c.n
    ensures Lags(c, me, false, BeShare(c, me, k), BeShare(Mended(c), me, k))
  {
    hide Tracks, Bcast, ShareRm;
    forall e
      ensures Lags(c, me, false, ShareRm(c, me, k)(e), ShareRm(Mended(c), me, k)(e))
    {
      ShareRmLags(c, me, k, e);
    }
    BcastTracks(DaemonTerms(c, me, false), c.n, me, k.mode, INT_SIZE, ShareRm(c, me, k), ShareRm(Mended(c), me, k));
  }

  lemma GatheredLags(c: Config, me: int, d: Bytes)
    requires 0 <= me < c.n
    ensures Lags(c, me, me == 0, Gathered(c, me)(d), Gathered(Mended(c), me)(d))
  {
    hide Tracks, BeShare, BeTable, HostTable.Message, HostTable.Names;
    if me == 0 {
      ListeningLags(c, me);
      var msg := HostTable.Message(HostTable.Names(d, c.n));
      Sends(DaemonTerms(c, me, true), c.n, msg, BeTable(c), BeTable(Mended(c)));
    } else {
      ShareLags(c, me, Session.Known([], [], [], []));
    }
  }

  lemma InitLags(c: Config, me: int)
    requires 0 <= me < c.n == |c.hosts|
    ensures Lags(c, me, me == 0, BeInit(c, me), BeInit(Mended(c), me))
  {
    hide Tracks, Barrier, Gather, Gathered;
    var terms := DaemonTerms(c, me, me == 0);
    forall d
      ensures Tracks(terms, Gathered(c, me)(d), Gathered(Mended(c), me)(d))
    {
      GatheredLags(c, me, d);
    }
    GatherTracks(terms, c.n, me, c.hosts[me], HostTable.HN_MAX, Gathered(c, me), Gathered(Mended(c), me));
    assert Follows(terms, BeGather(c, me), BeGather(Mended(c), me));
    BarrierTracks(terms, c.n, me, BeGather(c, me), BeGather(Mended(c), me));
  }

  lemma {:induction false} KeysLag(c: Config, i: nat)
    requires 1 <= c.n == |c.hosts|
    ensures Lags(c, 0, true, BeKeys(c, i), BeKeys(Mended(c), i))
    decreases KEY_WORDS - i
  {
    hide Tracks, KeyMsg, BeInit;
    if i < KEY_WORDS && i < |c.key| {
      KeysLag(c, i + 1);
      Sends(DaemonTerms(c, 0, true), c.n, KeyMsg(c.key[i]), BeKeys(c, i + 1), BeKeys(Mended(c), i + 1));
    } else {
      InitLags(c, 0);
    }
  }

  // ----- the front end

  // Where the front end stands, with what it has read so far. When the master has left it in the middle of the
  // security check, it goes on with the header it has read before.
  datatype FeStage =
    | AtKeys(i: nat, words: seq<int>)
    | Deserted(j: nat, stale: seq<int>)
    | AtHostNames(len: nat, header: Bytes)
    | ToTable(hosts: Bytes)
    | ToMode(hosts: Bytes)
    | ToRm(hosts: Bytes)
    | ToUsr(hosts: Bytes)
    | AtCont(hosts: Bytes)
    | AtRelease(hosts: Bytes)
    | AtReady(hosts: Bytes)
    | AtReport(len: nat, hosts: Bytes)

  function FeAt(c: Config, fe: FeStage): (p: Proc) {
    match fe
    case AtKeys(i, words) => FeKeys(c, i, words)
    case Deserted(i, words) => FeKeys(c, i, words)
    case AtHostNames(len, header) => Recv(0, len, FeTell(c, header), Return(LMON_ESYS))
    case ToTable(hosts) => Send(0, TableMsg(c), Send(0, ModeMsg(c), Send(0, RmMsg(c), FeUsrData(c, hosts))))
    case ToMode(hosts) => Send(0, ModeMsg(c), Send(0, RmMsg(c), FeUsrData(c, hosts)))
    case ToRm(hosts) => Send(0, RmMsg(c), FeUsrData(c, hosts))
    case ToUsr(hosts) => FeUsrData(c, hosts)
    case AtCont(hosts) => FeAwait(c, hosts)
    case AtRelease(hosts) => Mark(LauncherReleased, AwaitReady(c, hosts))
    case AtReady(hosts) => AwaitReady(c, hosts)
    case AtReport(len, hosts) => Recv(0, len, UnpackKont(c, hosts), UnpackKont(c, hosts)(c.torn))
  }

  // How many of the four messages to the master have been written.
  function Count(fe: FeStage): (count: nat) {
    match fe
    case ToMode(_) => 1
    case ToRm(_) => 2
    case ToUsr(_) => 3
    case AtCont(_) | AtRelease(_) | AtReady(_) | AtReport(_, _) => 4
    case _ => 0
  }

  function Orders(c: Config, i: nat): (msg: Bytes) {
    if i == 0 then TableMsg(c) else if i == 1 then ModeMsg(c) else if i == 2 then RmMsg(c) else UsrMsg(Usr(c))
  }

  // The messages that have not been written.
  function Unwritten(c: Config, count: nat): (b: Bytes)
    decreases 4 - count
  {
    if count < 4 then Orders(c, count) + Unwritten(c, count + 1) else []
  }

  lemma SameMessages(c: Config)
    ensures var d := Mended(c);
      (TableMsg(d) == TableMsg(c) && ModeMsg(d) == ModeMsg(c) && RmMsg(d) == RmMsg(c) &&
        UsrMsg(Usr(d)) == UsrMsg(Usr(c)) &&
       TraceMode(d) == TraceMode(c))
  {
    hide EncodeHeader;
  }

  lemma UnpackEnds(c: Config, hosts: Bytes, d: Bytes)
    ensures UnpackKont(c, hosts)(d).Done?
  {
    if !c.wanted { assert UnpackKont(c, hosts)(d) == Return(LMON_ENCLLB); }
    else if c.unpack(d) < 0 { assert UnpackKont(c, hosts)(d) == Return(LMON_ENEGCB); }
    else { assert UnpackKont(c, hosts)(d) == Done(Value([hosts, d])); }
  }

  // In both sessions the front end does the same until it returns.
  lemma FrontEndSame(c: Config, fe: FeStage)
    requires !fe.Deserted? && !FeAt(c, fe).Done?
    ensures SameHead(FeAt(c, fe), FeAt(Mended(c), fe))
    ensures FeAt(c, fe).Recv? ==> FeAt(c, fe).from == 0
    ensures FeAt(c, fe).Recv? && !FeAt(c, fe).onEof.Done? ==> fe.AtKeys? && FeAt(c, fe).size == HEADER_SIZE
    ensures FeAt(c, fe).Send? ==> FeAt(c, fe).to == 0 && Count(fe) < 4 && FeAt(c, fe).data == Orders(c, Count(fe))
    ensures FeAt(c, fe).Mark? ==> FeAt(c, fe).event == LauncherReleased
  {
    hide EncodeHeader, DecodeHeader, TableMsg, ModeMsg, RmMsg, UsrMsg, KeyKont, HostKont, FeTell, ContKont, ReadyKont,
         UnpackKont;
    SameMessages(c);
    if fe.AtReport? { UnpackEnds(c, fe.hosts, c.torn); }
  }

  // p and q are the programs of the two front ends at `on`, unless p has returned.
  ghost predicate Onward(c: Config, p: Proc, q: Proc, on: FeStage, count: nat) {
    p.Done? || (p == FeAt(c, on) && q == FeAt(Mended(c), on) && !on.Deserted? && Count(on) == count)
  }

  lemma KeyOn(c: Config, i: nat, words: seq<int>, d: Bytes) returns (on: FeStage)
    requires i < KEY_WORDS
    ensures Onward(c, KeyKont(c, i, words)(d), KeyKont(Mended(c), i, words)(d), on, 0)
  {
    hide DecodeHeader, FeKeys;
    on := AtKeys(i + 1, words + [DecodeHeader(d).stringInfo]);
  }

  lemma HostOn(c: Config, d: Bytes) returns (on: FeStage)
    ensures Onward(c, HostKont(c)(d), HostKont(Mended(c))(d), on, 0)
  {
    hide DecodeHeader, FeTell;
    var h := DecodeHeader(d);
    var len := Unsigned(h.lmonLength + h.usrLength);
    on := AtHostNames(len, d);
  }

  lemma ContOn(c: Config, hosts: Bytes, d: Bytes)
    ensures Onward(c, ContKont(c, hosts)(d), ContKont(Mended(c), hosts)(d), AtRelease(hosts), 4)
  {
    hide DecodeHeader, ReadyKont;
  }

  lemma ReportOn(c: Config, hosts: Bytes, d: Bytes) returns (on: FeStage)
    ensures Onward(c, ReadyKont(c, hosts)(d), ReadyKont(Mended(c), hosts)(d), on, 4)
  {
    hide DecodeHeader, UnpackKont;
    var len := DecodeHeader(d).usrLength;
    on := AtReport(if len > 0 then len else 0, hosts);
  }

  lemma FrontEndOn(c: Config, fe: FeStage, d: Bytes) returns (on: FeStage)
    requires !fe.Deserted? && !FeAt(c, fe).Done?
    ensures Onward(c, Next(FeAt(c, fe), d), Next(FeAt(Mended(c), fe), d), on,
                   if FeAt(c, fe).Send? then Count(fe) + 1 else Count(fe))
  {
    hide EncodeHeader, TableMsg, ModeMsg, RmMsg, UsrMsg, KeyKont, HostKont, ContKont, ReadyKont, UnpackKont;
    SameMessages(c);
    match fe {
      case AtKeys(i, words) => if i < KEY_WORDS { on := KeyOn(c, i, words, d); } else { on := HostOn(c, d); }
      case AtHostNames(len, header) => on := ToTable(header + d);
      case ToTable(hosts) => on := ToMode(hosts);
      case ToMode(hosts) => on := ToRm(hosts);
      case ToRm(hosts) => on := ToUsr(hosts);
      case ToUsr(hosts) => on := AtCont(hosts);
      case AtCont(hosts) =>
        ContOn(c, hosts, d);
        on := AtRelease(hosts);
      case AtRelease(hosts) => on := AtReady(hosts);
      case AtReady(hosts) => on := ReportOn(c, hosts, d);
      case AtReport(_, hosts) =>
        UnpackEnds(c, hosts, d);
        on := fe;
    }
  }

  // ----- the master while it listens to the front end

  datatype BeStage = Early | AtTable | AtEntries | AtMode | AtRm | AtUsr | AtPayload | Late

  ghost predicate Listening(be: BeStage) { be != Early && be != Late }

  function BeAt(c: Config, be: BeStage): (p: Proc) {
    match be
    case AtEntries => TableKont(c)(EncodeHeader(Relabel(c.table)))
    case AtMode => Recv(c.n, HEADER_SIZE, ModeKont(c, TableMsg(c)), Return(LMON_EBDMSG))
    case AtRm => Recv(c.n, HEADER_SIZE, RmKont(c, TableMsg(c), TraceMode(c)), Return(LMON_EBDMSG))
    case AtUsr => Recv(c.n, HEADER_SIZE, UsrKont(c, TableMsg(c), TraceMode(c), c.rmType), Return(LMON_EBDMSG))
    case AtPayload => UsrKont(c, TableMsg(c), TraceMode(c), c.rmType)(EncodeHeader(Plain(FEBE_USRDATA, |Usr(c)|)))
    case _ => BeTable(c)
  }

  // What the master has not read yet of the front end's messages.
  function Unread(c: Config, be: BeStage): (b: Bytes) {
    match be
    case AtEntries => c.entries + Unwritten(c, 1)
    case AtMode => Unwritten(c, 1)
    case AtRm => Unwritten(c, 2)
    case AtUsr => Unwritten(c, 3)
    case AtPayload => Usr(c)
    case _ => Unwritten(c, 0)
  }

  lemma TableParts(c: Config)
    requires WellFormed(c) && c.table.lmonLength > 0
    ensures var head := EncodeHeader(Relabel(c.table));
      |head| == HEADER_SIZE && TableMsg(c) == head + c.entries && head + c.entries == TableMsg(c) &&
      TableKont(c)(head) == Recv(c.n, |c.entries|, EntriesKont(c, head), Return(LMON_EBDMSG)) &&
      EntriesKont(c, head)(c.entries) == BeAt(c, AtMode)
  {
    hide EncodeHeader, DecodeHeader;
    TableRead(c);
    MessageParts(Relabel(c.table), c.entries);
  }

  lemma UnwrittenParts(c: Config)
    ensures Unwritten(c, 0) == TableMsg(c) + Unwritten(c, 1) && Unwritten(c, 1) == ModeMsg(c) + Unwritten(c, 2)
    ensures Unwritten(c, 2) == RmMsg(c) + Unwritten(c, 3) && Unwritten(c, 3) == UsrMsg(Usr(c))
  {
    hide TableMsg, ModeMsg, RmMsg, UsrMsg;
    assert Unwritten(c, 4) == [];
  }

  // The next message or part of one, in front of the rest, and what both masters do with it.
  ghost predicate Hears(c: Config, be: BeStage, d: Bytes, on: BeStage) {
    Listening(be) && Listening(on) && Unread(c, be) == d + Unread(c, on) &&
    BeAt(c, be).Recv? && BeAt(c, be).from == c.n && BeAt(c, be).size == |d| && BeAt(c, be).onData(d) == BeAt(c, on)
  }

  lemma HearsTable(c: Config)
    requires WellFormed(c) && c.table.lmonLength > 0
    ensures Hears(c, AtTable, EncodeHeader(Relabel(c.table)), AtEntries) && Hears(c, AtEntries, c.entries, AtMode)
    ensures BeAt(c, AtTable).onEof.Done? && BeAt(c, AtEntries).onEof.Done?
  {
    hide EncodeHeader, DecodeHeader, Relabel, Unwritten, TableKont, EntriesKont, ModeKont, WellFormed, TableMsg;
    TableParts(c);
    UnwrittenParts(c);
    var head := EncodeHeader(Relabel(c.table));
    assert (head + c.entries) + Unwritten(c, 1) == head + (c.entries + Unwritten(c, 1));
  }

  lemma HearsOrders(c: Config)
    requires WellFormed(c)
    ensures Hears(c, AtMode, ModeMsg(c), AtRm) && Hears(c, AtRm, RmMsg(c), AtUsr)
    ensures BeAt(c, AtMode).onEof.Done? && BeAt(c, AtRm).onEof.Done? && BeAt(c, AtUsr).onEof.Done?
  {
    hide TableMsg, ModeMsg, RmMsg, UsrMsg, ModeKont, RmKont, UsrKont, TraceMode, Unwritten, WellFormed;
    OrdersRead(c, TableMsg(c));
    UnwrittenParts(c);
  }

  // What ends the master's listening.
  ghost predicate HearsLast(c: Config, be: BeStage, d: Bytes) {
    Listening(be) && Unread(c, be) == d && BeAt(c, be).Recv? && BeAt(c, be).from == c.n && BeAt(c, be).size == |d| &&
    BeAt(c, be).onData(d) == BeShare(c, 0, Told(c))
  }

  lemma HearsUsr(c: Config)
    requires WellFormed(c)
    ensures if Usr(c) == [] then HearsLast(c, AtUsr, UsrMsg([]))
      else Hears(c, AtUsr, EncodeHeader(Plain(FEBE_USRDATA, |Usr(c)|)), AtPayload) && HearsLast(c, AtPayload, Usr(c))
  {
    hide EncodeHeader, DecodeHeader, TableMsg, TraceMode, BeShare, Told, UsrKont, Usr, Unwritten, WellFormed;
    Owed(c);
    UnwrittenParts(c);
    UsrRead(c);
    MessageParts(Plain(FEBE_USRDATA, |Usr(c)|), Usr(c));
  }

  // A master without a process table returns at once.
  lemma HearsNoTable(c: Config)
    requires WellFormed(c) && c.table.lmonLength == 0
    ensures var head := EncodeHeader(Relabel(c.table));
      Unread(c, AtTable) == head + (c.entries + Unwritten(c, 1)) && |head| == HEADER_SIZE &&
      TableKont(c)(head) == Return(LMON_EBDMSG)
  {
    hide EncodeHeader, DecodeHeader, Relabel, Unwritten, TableKont, WellFormed;
    TurnsAway(c);
    UnwrittenParts(c);
    var head := EncodeHeader(Relabel(c.table));
    assert (head + c.entries) + Unwritten(c, 1) == head + (c.entries + Unwritten(c, 1));
  }

  // The master is told something in two parts only if there is something to tell, and reads on only if there is a
  // process table.
  ghost predicate Proper(c: Config, be: BeStage) {
    (be == AtPayload ==> Usr(c) != []) && (Listening(be) && be != AtTable ==> c.table.lmonLength > 0)
  }

  // The next message, or part of one, for a listening master, and what it waits for then.
  function Heard(c: Config, be: BeStage): (d: Bytes) {
    match be
    case AtEntries => c.entries
    case AtMode => ModeMsg(c)
    case AtRm => RmMsg(c)
    case AtUsr => if Usr(c) == [] then UsrMsg([]) else EncodeHeader(Plain(FEBE_USRDATA, |Usr(c)|))
    case AtPayload => Usr(c)
    case _ => EncodeHeader(Relabel(c.table))
  }

  function Then(c: Config, be: BeStage): (on: BeStage) {
    match be
    case AtEntries => AtMode
    case AtMode => AtRm
    case AtRm => AtUsr
    case AtUsr => if Usr(c) == [] then Late else AtPayload
    case AtPayload => Late
    case _ => if c.table.lmonLength == 0 then Late else AtEntries
  }

  // What follows the part that ends the master's listening: nothing, unless it has returned without a table.
  function Unheard(c: Config, be: BeStage): (b: Bytes) {
    if Then(c, be) != Late then Unread(c, Then(c, be)) else if be == AtTable then c.entries + Unwritten(c, 1) else []
  }

  lemma Hearing(c: Config, be: BeStage)
    requires WellFormed(c) && Listening(be) && Proper(c, be) && c.table.lmonLength > 0
    ensures if Then(c, be) == Late then HearsLast(c, be, Heard(c, be)) && Unheard(c, be) == []
      else Hears(c, be, Heard(c, be), Then(c, be)) && Proper(c, Then(c, be)) && Unheard(c, be) == Unread(c, Then(c, be))
    ensures be != AtPayload ==> BeAt(c, be).onEof.Done?
  {
    hide Hears, HearsLast, BeAt, Usr, EncodeHeader, ModeMsg, RmMsg, UsrMsg, Unread, Unwritten;
    HearsTable(c);
    HearsOrders(c);
    HearsUsr(c);
  }

  lemma SameHeard(c: Config, be: BeStage)
    ensures Heard(Mended(c), be) == Heard(c, be) && Then(Mended(c), be) == Then(c, be)
    ensures Told(Mended(c)) == Told(c) && (Proper(c, be) ==> Proper(Mended(c), be))
  {
    hide EncodeHeader, TableMsg, ModeMsg, RmMsg, UsrMsg, TraceMode;
    SameMessages(c);
    assert Usr(Mended(c)) == Usr(c);
  }

  // Both masters go from one stage to the next on the same bytes.
  ghost predicate BothHear(c: Config, be: BeStage) {
    var a, b, d := BeAt(c, be), BeAt(Mended(c), be), Heard(c, be);
    a.Recv? && a.from == c.n && a.size == |d| && SameHead(a, b) && Unread(c, be) == d + Unheard(c, be) &&
    (if be == AtPayload then d == Usr(c) != [] else a.onEof.Done?) &&
    if Then(c, be) == Late then Lags(c, 0, false, a.onData(d), b.onData(d))
    else
      (a.onData(d) == BeAt(c, Then(c, be)) && b.onData(d) == BeAt(Mended(c), Then(c, be)) &&
       Listening(Then(c, be)) && Proper(c, Then(c, be)))
  }

  lemma MastersHearTable(c: Config, be: BeStage)
    requires WellFormed(c) && Listening(be) && Proper(c, be) && c.table.lmonLength > 0
    ensures BothHear(c, be)
  {
    hide BeAt, Heard, Then, Unheard, WellFormed, BeShare, Told, Unread, Lags, Mended, Usr;
    Hearing(c, be);
    MendedIsHealthy(c);
    SameHeard(c, be);
    MendedSize(c);
    Hearing(Mended(c), be);
    Owed(c);
    ShareLags(c, 0, Told(c));
    if be == AtPayload { PayloadHeard(c); }
    if Then(c, be) == Late { assert Heard(c, be) + [] == Heard(c, be); }
  }

  lemma MastersHearNone(c: Config)
    requires WellFormed(c) && c.table.lmonLength == 0
    ensures BothHear(c, AtTable)
  {
    hide TableKont, EncodeHeader, Relabel, WellFormed, Unwritten, Lags, Mended;
    HearsNoTable(c);
    MendedIsHealthy(c);
    HearsNoTable(Mended(c));
    MendedSize(c);
    StoppedLags(c, 0, false, Return(LMON_EBDMSG), Return(LMON_EBDMSG));
  }

  lemma MastersHear(c: Config, be: BeStage)
    requires WellFormed(c) && Listening(be) && Proper(c, be)
    ensures BothHear(c, be)
  {
    hide BothHear;
    if c.table.lmonLength > 0 { MastersHearTable(c, be); } else { MastersHearNone(c); }
  }

  lemma MendedSize(c: Config)
    ensures Mended(c).n == c.n
  {
  }

  lemma PayloadHeard(c: Config)
    ensures Heard(c, AtPayload) == Usr(c)
  {
  }

  // As long as a message is missing, more bytes are missing than the user data have.
  lemma {:induction false} UnwrittenIsLarge(c: Config, count: nat)
    requires WellFormed(c) && count < 4
    ensures |Unwritten(c, count)| > |Usr(c)|
    decreases 4 - count
  {
    hide EncodeHeader, TableMsg, ModeMsg, RmMsg, WellFormed, Usr;
    Owed(c);
    if count < 3 { UnwrittenIsLarge(c, count + 1); }
    else { MessageParts(Plain(FEBE_USRDATA, |Usr(c)|), Usr(c)); }
  }

  // ----- a state of the session beside one of the session in which nothing fails

  // Where front end and master stand, and how many messages the front end has written.
  datatype View = View(fe: FeStage, count: nat, be: BeStage)

  ghost predicate SlavesTrack(c: Config, s: State, t: State) {
    |s.procs| == |t.procs| == c.n + 1 && forall q :: 0 < q < c.n ==> Lags(c, q, false, s.procs[q], t.procs[q])
  }

  // The front end is where the other one is, or it has returned, or it is waiting for a master that is gone.
  ghost predicate FrontEndTracks(c: Config, s: State, t: State, fe: FeStage, count: nat) {
    |s.procs| == |t.procs| == c.n + 1 &&
    var p, q := s.procs[c.n], t.procs[c.n];
    p.Done? ||
    (p == FeAt(c, fe) &&
     if fe.Deserted? then Departed(s, 0) && |Chan(s, Edge(0, c.n))| < HEADER_SIZE
     else q == FeAt(Mended(c), fe) && count == Count(fe))
  }

  ghost predicate MasterTracks(c: Config, s: State, t: State, be: BeStage) {
    |s.procs| == |t.procs| == c.n + 1 && c.n >= 1 && Proper(c, be) &&
    if Listening(be) then s.procs[0] == BeAt(c, be) && t.procs[0] == BeAt(Mended(c), be)
    else Lags(c, 0, be == Early, s.procs[0], t.procs[0])
  }

  // What the master has not read is under way or not written yet, until it has read everything.
  ghost predicate Balanced(c: Config, s: State, count: nat, be: BeStage) {
    be != Late && !Departed(s, 0) ==> Payload(Chan(s, Edge(c.n, 0))) + Unwritten(c, count) == Unread(c, be)
  }

  // Only daemons whose process control works have announced so.
  ghost predicate Honest(c: Config, log: set<Entry>) {
    forall x :: x in log && x.stamp.event == ControlReady ==> 0 <= x.stamp.task < c.n && c.init(x.stamp.task) == LMON_OK
  }

  ghost predicate Beside(c: Config, s: State, t: State, v: View) {
    SameBooks(s, t) && SlavesTrack(c, s, t) && FrontEndTracks(c, s, t, v.fe, v.count) && MasterTracks(c, s, t, v.be) &&
    Balanced(c, s, v.count, v.be) && Honest(c, s.log)
  }

  lemma InitBeside(c: Config)
    requires WellFormed(c)
    ensures Beside(c, Init(c), Init(Mended(c)), View(AtKeys(0, []), 0, Early))
  {
    hide WellFormed, Lags, BeInit, BeKeys, FeKeys, Unwritten;
    Owed(c);
    KeysLag(c, 0);
    forall q | 0 < q < c.n
      ensures Lags(c, q, false, BeInit(c, q), BeInit(Mended(c), q))
    {
      InitLags(c, q);
    }
  }

  // ----- what a step adds to the log

  lemma StaysHonest(c: Config, s: State, p: int)
    requires Honest(c, s.log) && Ready(s, p)
    requires s.procs[p].Mark? && s.procs[p].event == ControlReady ==> 0 <= p < c.n && c.init(p) == LMON_OK
    ensures Honest(c, Step(s, p).log)
  {
    LogAfter(s, p);
  }

  // ----- every step keeps the two sessions side by side

  lemma SlaveServed(c: Config, s: State, t: State, v: View, q: int)
    requires Beside(c, s, t, v) && 0 < q < c.n && Served(s, q)
    ensures Ready(t, q) && Beside(c, Step(s, q), Step(t, q), v)
  {
    hide Lags, Step, Payload, Unwritten, Unread, FeAt, BeAt, Reading, Chan;
    LagsOn(c, q, false, s.procs[q], t.procs[q]);
    Mirror(s, t, q);
    OtherChannel(s, q, Edge(0, c.n));
    OtherChannel(s, q, Edge(c.n, 0));
    StaysHonest(c, s, q);
  }

  lemma SlaveUnserved(c: Config, s: State, t: State, v: View, q: int)
    requires Beside(c, s, t, v) && 0 < q < c.n && Ready(s, q) && !Served(s, q)
    ensures Beside(c, Step(s, q), t, v) && Step(s, q).procs[q].Done?
  {
    hide Lags, Step, Payload, Unwritten, Unread, FeAt, BeAt, Served;
    LagsOn(c, q, false, s.procs[q], t.procs[q]);
    Unserved(s, q);
    StoppedLags(c, q, false, EXIT, t.procs[q]);
  }

  // The master while it talks to other daemons only.
  lemma MasterServed(c: Config, s: State, t: State, v: View)
    requires Beside(c, s, t, v) && !Listening(v.be) && Served(s, 0) && (v.be == Early ==> s.procs[0] != BeTable(c))
    ensures Ready(t, 0) && Beside(c, Step(s, 0), Step(t, 0), v)
  {
    hide Lags, Step, Payload, Unwritten, Unread, FeAt, BeAt, BeTable, Reading, Chan;
    LagsOn(c, 0, v.be == Early, s.procs[0], t.procs[0]);
    Mirror(s, t, 0);
    OtherChannel(s, 0, Edge(c.n, 0));
    StaysHonest(c, s, 0);
  }

  lemma MasterUnserved(c: Config, s: State, t: State, v: View)
    requires Beside(c, s, t, v) && !Listening(v.be) && Ready(s, 0) && !Served(s, 0)
    requires v.be == Early ==> s.procs[0] != BeTable(c)
    ensures Beside(c, Step(s, 0), t, v) && Step(s, 0).procs[0].Done?
  {
    hide Lags, Step, Payload, Unwritten, Unread, FeAt, BeAt, BeTable, Served;
    LagsOn(c, 0, v.be == Early, s.procs[0], t.procs[0]);
    Unserved(s, 0);
    StoppedLags(c, 0, v.be == Early, EXIT, t.procs[0]);
  }

  // The early master has come to the wait for the process table.
  lemma StartsListening(c: Config, s: State, t: State, v: View)
    requires Beside(c, s, t, v) && v.be == Early && s.procs[0] == BeTable(c)
    ensures Beside(c, s, t, v.(be := AtTable))
  {
    hide Payload, Unwritten, Chan, Mended;
  }

  lemma SameStart<T>(a: seq<T>, x: seq<T>, y: seq<T>, b: seq<T>, z: seq<T>)
    requires (a + x) + y == b + z && |a| == |b|
    ensures a == b && x + y == z
  {
    assert ((a + x) + y)[..|a|] == a && (b + z)[..|b|] == b;
    assert ((a + x) + y)[|a|..] == x + y && (b + z)[|b|..] == z;
  }

  lemma UnheardIs(c: Config, be: BeStage)
    ensures Then(c, be) != Late ==> Unheard(c, be) == Unread(c, Then(c, be))
  {
  }

  lemma ListenerServed(c: Config, s: State, t: State, v: View)
    requires WellFormed(c) && Beside(c, s, t, v) && Listening(v.be) && Served(s, 0)
    ensures Ready(t, 0) && Beside(c, Step(s, 0), Step(t, 0), v.(be := Then(c, v.be)))
  {
    hide Lags, Step, Payload, Unwritten, Unread, FeAt, BeAt, Heard, Then, Unheard, WellFormed, Reading, Chan, Mended,
         Usr;
    MastersHear(c, v.be);
    Mirror(s, t, 0);
    ReadChannel(s, 0);
    var rest := Payload(Chan(Step(s, 0), Edge(c.n, 0)));
    SameStart(Reading(s, 0), rest, Unwritten(c, v.count), Heard(c, v.be), Unheard(c, v.be));
    UnheardIs(c, v.be);
    OtherChannel(s, 0, Edge(0, c.n));
    StaysHonest(c, s, 0);
  }

  lemma ListenerUnserved(c: Config, s: State, t: State, v: View)
    requires WellFormed(c) && Beside(c, s, t, v) && Listening(v.be) && Ready(s, 0) && !Served(s, 0)
    ensures Beside(c, Step(s, 0), t, v.(be := Late)) && Step(s, 0).procs[0].Done?
  {
    hide Lags, Step, Unwritten, Unread, FeAt, BeAt, Heard, Then, WellFormed, Served, Mended, Usr;
    MastersHear(c, v.be);
    Unserved(s, 0);
    if v.be == AtPayload {
      if v.count < 4 { UnwrittenIsLarge(c, v.count); }
      assert |Payload(Chan(s, Edge(c.n, 0)))| == |Chan(s, Edge(c.n, 0))|;
      PayloadUnread(c);
      AllWritten(c, v.count);
    } else {
      StoppedLags(c, 0, false, s.procs[0].onEof, t.procs[0]);
    }
  }

  lemma PayloadUnread(c: Config)
    ensures Unread(c, AtPayload) == Usr(c)
  {
  }

  lemma AllWritten(c: Config, count: nat)
    ensures count >= 4 ==> Unwritten(c, count) == []
    ensures count < 4 ==> Unwritten(c, count) == Orders(c, count) + Unwritten(c, count + 1)
  {
    hide TableMsg, ModeMsg, RmMsg, UsrMsg;
  }

  // The front end.
  lemma FrontEndServed(c: Config, s: State, t: State, v: View) returns (on: View)
    requires Beside(c, s, t, v) && c.n >= 1 && Served(s, c.n)
    ensures Ready(t, c.n) && Beside(c, Step(s, c.n), Step(t, c.n), on)
    ensures !v.fe.Deserted? && (!on.fe.Deserted? || Step(s, c.n).procs[c.n].Done?)
  {
    hide Lags, Step, Payload, Unread, Unwritten, FeAt, BeAt, Orders, Reading, Chan, Mended, Usr;
    if v.fe.Deserted? { var none := DesertedIsUnserved(c, s, t, v); }
    FrontEndSame(c, v.fe);
    Mirror(s, t, c.n);
    var fe := FrontEndOn(c, v.fe, Reading(s, c.n));
    on := v.(fe := fe, count := if s.procs[c.n].Send? then v.count + 1 else v.count);
    StaysHonest(c, s, c.n);
    if s.procs[c.n].Send? {
      WroteChannel(s, c.n);
      AllWritten(c, v.count);
      var under := Payload(Chan(s, Edge(c.n, 0)));
      assert (under + Orders(c, v.count)) + Unwritten(c, on.count) == under +
          (Orders(c, v.count) + Unwritten(c, on.count));
    } else {
      OtherChannel(s, c.n, Edge(c.n, 0));
    }
  }

  // A deserted front end waits for more bytes than there are.
  lemma DesertedIsUnserved(c: Config, s: State, t: State, v: View) returns (on: View)
    requires FrontEndTracks(c, s, t, v.fe, v.count) && v.fe.Deserted? && Ready(s, c.n)
    ensures !Served(s, c.n) && s.procs[c.n].from == 0
    ensures s.procs[c.n].onEof.Done? || (v.fe.j < KEY_WORDS && s.procs[c.n].onEof == FeAt(c, on.fe))
    ensures on == v.(fe := on.fe) && on.fe.Deserted? && on.fe.j == v.fe.j + 1
  {
    hide KeyKont, HostKont, Chan;
    var Deserted(i, words) := v.fe;
    on := v.(fe := Deserted(i + 1, if words == [] then [] else words + [words[|words| - 1]]));
  }

  lemma FrontEndUnserved(c: Config, s: State, t: State, v: View) returns (on: View)
    requires Beside(c, s, t, v) && c.n >= 1 && Ready(s, c.n) && !Served(s, c.n)
    ensures Beside(c, Step(s, c.n), t, on)
    ensures Step(s, c.n).procs[c.n].Done? ||
      (on.fe.Deserted? && on.fe.j <= KEY_WORDS && (v.fe.Deserted? ==> v.fe.j < on.fe.j))
  {
    hide Lags, Step, Payload, Unread, Unwritten, BeAt, Served, Mended, Usr;
    Unserved(s, c.n);
    on := v;
    if v.fe.Deserted? {
      on := DesertedIsUnserved(c, s, t, v);
    } else {
      FrontEndSame(c, v.fe);
      if v.fe.AtKeys? && v.fe.i < KEY_WORDS && v.fe.words != [] {
        on := v.(fe := Deserted(v.fe.i + 1, v.fe.words + [v.fe.words[|v.fe.words| - 1]]));
      }
    }
  }

  // ----- steps at end of file are few

  ghost function Alive(s: State, m: nat): (v: nat)
    requires m <= |s.procs|
  {
    if m == 0 then 0 else Alive(s, m - 1) + if s.procs[m - 1].Done? then 0 else 1
  }

  // How many steps at end of file there may be yet: one for each daemon that has not returned, and a few for the front
  // end, which goes on reading headers of a master that is gone.
  ghost function EofsLeft(c: Config, s: State, v: View): (k: nat)
    requires |s.procs| == c.n + 1
  {
    Alive(s, c.n) +
    if s.procs[c.n].Done? then 0
    else if !v.fe.Deserted? then KEY_WORDS + 2
    else if v.fe.j <= KEY_WORDS then KEY_WORDS + 1 - v.fe.j
    else 1
  }

  lemma {:induction false} AliveAfter(s: State, p: int, m: nat)
    requires Ready(s, p) && m <= |s.procs|
    ensures |Step(s, p).procs| == |s.procs| && Alive(Step(s, p), m) <= Alive(s, m)
    ensures p < m && Step(s, p).procs[p].Done? ==> Alive(Step(s, p), m) < Alive(s, m)
    ensures p >= m ==> Alive(Step(s, p), m) == Alive(s, m)
    decreases m
  {
    hide Step;
    NotDone(s, p);
    if m > 0 {
      AliveAfter(s, p, m - 1);
      if p != m - 1 { StepMovesOne(s, p, m - 1); }
    }
  }

  lemma NotDone(s: State, p: int)
    requires Ready(s, p)
    ensures 0 <= p < |s.procs| == |Step(s, p).procs| && !s.procs[p].Done?
  {
  }

  // A step the other session takes too, or a step at end of file.
  ghost predicate Matched(c: Config, s: State, t: State, v: View, p: int, u: State, on: View)
    requires Ready(s, p)
  {
    |s.procs| == c.n + 1 == |Step(s, p).procs| && Beside(c, Step(s, p), u, on) &&
    if Served(s, p) then Ready(t, p) && u == Step(t, p) && EofsLeft(c, Step(s, p), on) <= EofsLeft(c, s, v)
    else u == t && EofsLeft(c, Step(s, p), on) < EofsLeft(c, s, v)
  }

  // Whatever step is taken, the session in which nothing fails takes it too, or it is one of a few steps at end of
  // file, by which nothing is written or announced.
  lemma StepBeside(c: Config, s: State, t: State, v: View, p: int) returns (u: State, on: View)
    requires WellFormed(c) && Beside(c, s, t, v) && Ready(s, p)
    ensures Matched(c, s, t, v, p, u, on)
  {
    hide Beside, Step, Served, Ready, Listening, BeTable, WellFormed, Alive;
    Owed(c);
    BesideSize(c, s, t, v, p);
    NotDone(s, p);
    AliveAfter(s, p, c.n);
    if p != c.n { StepMovesOne(s, p, c.n); }
    on := v;
    var w := v;
    if p == c.n {
      if Served(s, p) { on := FrontEndServed(c, s, t, v); } else { on := FrontEndUnserved(c, s, t, v); }
    } else if p > 0 {
      if Served(s, p) { SlaveServed(c, s, t, v, p); } else { SlaveUnserved(c, s, t, v, p); }
    } else {
      if v.be == Early && s.procs[0] == BeTable(c) {
        StartsListening(c, s, t, v);
        w := v.(be := AtTable);
      }
      if Listening(w.be) {
        if Served(s, p) {
          ListenerServed(c, s, t, w);
          on := w.(be := Then(c, w.be));
        } else {
          ListenerUnserved(c, s, t, w);
          on := w.(be := Late);
        }
      } else {
        TableIsListening();
        if Served(s, p) { MasterServed(c, s, t, v); } else { MasterUnserved(c, s, t, v); }
      }
    }
    u := if Served(s, p) then Step(t, p) else t;
  }

  lemma TableIsListening()
    ensures Listening(AtTable)
  {
  }

  lemma BesideSize(c: Config, s: State, t: State, v: View, p: int)
    requires Beside(c, s, t, v) && Ready(s, p)
    ensures 0 <= p <= c.n && |s.procs| == c.n + 1
  {
  }

  // So whatever fails, what has been announced is what has been announced at some time of a session in which nothing
  // fails, and there are not many more steps to it.
  lemma {:induction false} RunBeside(c: Config, s: State, t: State, v: View, sched: seq<int>, f: State)
    returns (shadow: seq<int>, u: State, on: View)
    requires WellFormed(c) && Beside(c, s, t, v) && Run(s, sched) == Some(f) && |s.procs| == c.n + 1
    ensures Beside(c, f, u, on) && Run(t, shadow) == Some(u) && |f.procs| == c.n + 1
    ensures |sched| <= |shadow| + EofsLeft(c, s, v)
    decreases |sched|
  {
    hide Beside, Step, Ready, WellFormed, EofsLeft, Served;
    if sched == [] {
      shadow, u, on := [], t, v;
    } else {
      var p := sched[0];
      var m, w := StepBeside(c, s, t, v, p);
      var rest;
      rest, u, on := RunBeside(c, Step(s, p), m, w, sched[1..], f);
      shadow := if Served(s, p) then [p] + rest else rest;
      assert Served(s, p) ==> shadow[1..] == rest;
    }
  }

  // ----- the launcher is released last, whatever fails

  // If the launcher has been released, all daemons have initialized process control before; in particular none of
  // them has failed to.
  ghost predicate ReleasedSafely(c: Config, log: set<Entry>) {
    ReleasedLast(log, c.n) &&
    forall q, p :: Stamp(q, LauncherReleased) in Stamps(log) && 0 <= p < c.n ==> c.init(p) == LMON_OK
  }

  lemma LastAndHonest(c: Config, log: set<Entry>)
    requires ReleasedLast(log, c.n) && Honest(c, log)
    ensures ReleasedSafely(c, log)
  {
    forall q, p | Stamp(q, LauncherReleased) in Stamps(log) && 0 <= p < c.n
      ensures c.init(p) == LMON_OK
    {
      assert Stamp(p, ControlReady) in Stamps(log);
      var x :| x in log && x.stamp == Stamp(p, ControlReady);
    }
  }

  // What one run of a session owes to the session in which nothing fails.
  lemma RunIsSafe(c: Config, total: nat, end: State, sched: seq<int>, t: State)
    requires WellFormed(c) && Run(Init(c), sched) == Some(t)
    requires forall more, u :: Run(Init(Mended(c)), more) == Some(u) ==> OnTrack(u, |more|, Mended(c), total, end)
    ensures ReleasedSafely(c, t.log)
  {
    hide WellFormed, Init, Beside, ReleasedLast, ReleasedSafely, Mended, EofsLeft, Reaches, Stuck;
    InitBeside(c);
    InitSize(c);
    var shadow, u, v := RunBeside(c, Init(c), Init(Mended(c)), View(AtKeys(0, []), 0, Early), sched, t);
    assert OnTrack(u, |shadow|, Mended(c), total, end);
    SameLog(c, t, u, v);
    MendedSize(c);
    LastAndHonest(c, t.log);
  }

  lemma InitSize(c: Config)
    ensures |Init(c).procs| == c.n + 1
  {
  }

  // However the parties interleave and whatever fails (the key, the callbacks, the process table, process control on
  // any of the daemons, and all reads that meet end of file in consequence), at no time has the launcher been released
  // while some daemon has not initialized process control.
  lemma EveryRelease(c: Config)
    requires WellFormed(c)
    ensures forall sched, t :: Run(Init(c), sched) == Some(t) ==> ReleasedSafely(c, t.log)
  {
    hide WellFormed, Healthy, Init, OnTrack, ReleasedSafely, AllReturned, Run, Mended;
    MendedIsHealthy(c);
    var total, end := HealthySession(Mended(c));
    forall sched, t | Run(Init(c), sched) == Some(t)
      ensures ReleasedSafely(c, t.log)
    {
      RunIsSafe(c, total, end, sched, t);
    }
  }

  lemma SameLog(c: Config, s: State, t: State, v: View)
    requires Beside(c, s, t, v)
    ensures s.log == t.log && Honest(c, s.log)
  {
  }
}
