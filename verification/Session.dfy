// The conversation of the front end with the n back-end daemons of a session, from the security check to
// the ready message. Daemons are processes 0 .. n-1, with 0 the master; the front end is process n and talks
// to the master only. Between messages the daemons meet in COBO collectives.
module Session {
  import opened Bytestream
  import opened CoboTree
  import opened Network
  import opened Collectives
  import opened TreeRuns
  import opened CollectiveRuns
  import opened Lmonp
  import HostTable
  import Rpdtab

  const MAX_USRPAYLOAD: nat := 4194304
  const KEY_WORDS: nat := 4

  // How a daemon remembers the mode it was told.
  const TRM_ATTACH: int := 0
  const TRM_LAUNCH: int := 1
  const TRM_LAUNCH_DONTSTOP: int := 2
  const TRM_ATTACH_STOP: int := 3

  // What the front end's caller passes for the back ends: nothing, data without a registered pack function,
  // data the pack function fails on or makes too long, or packed data.
  datatype UserData = NoData | NoCallback | Refused | Packed(data: Bytes)

  datatype Config = Config(
    n: nat,
    key: seq<int>,                 // the sealed session identifier, as the master sends it
    authorize: seq<int> -> bool,   // whether the front end recognizes it
    hosts: seq<Bytes>,             // every daemon's host name buffer
    table: Header, entries: Bytes, // the process table message held by the front end
    launch: bool, dontStop: Option<int>, // launch or attach, and the value of LMON_DONT_STOP_APP
    rmType: int,
    febe: UserData,                // user data for the back ends
    befe: Option<Bytes>,           // packed user data of the master for the front end
    wanted: bool, unpack: Bytes -> int, // whether the front end can take them, and what its unpack function returns
    init: int -> int,              // what each daemon's process table lookup and process-control initialization return
    settle: int -> int,            // what each daemon's closing process-control calls return
    torn: Bytes,                   // what the front end's buffer holds when the user data for it break off
    stale: int)                    // a header field the master leaves uninitialized in a ready message without data

  function Return(code: int): (p: Proc) { Done(Code(code)) }

  // ----- messages

  function KeyMsg(word: int): (b: Bytes) { EncodeHeader(SetHeader(FETOBE, SECURITY_CHK, 0, word, 0, 0, 0, 0, 0)) }
  function TableMsg(c: Config): (b: Bytes) { EncodeHeader(Relabel(c.table)) + c.entries }
  function Mode(c: Config): (v: int) {
    if c.launch then (if c.dontStop == Some(1) then LAUNCH_DONTSTOP else LAUNCH)
    else (if c.dontStop == Some(0) then ATTACH_STOP else ATTACH)
  }
  function ModeMsg(c: Config): (b: Bytes) { EncodeHeader(Plain(Mode(c), 0)) }
  function RmMsg(c: Config): (b: Bytes) { EncodeHeader(SetHeader(FETOBE, RM_TYPE, c.rmType, 0, 0, 0, 0, 0, 0)) }
  function UsrMsg(data: Bytes): (b: Bytes) { EncodeHeader(Plain(FEBE_USRDATA, |data|)) + data }
  function ContMsg(): (b: Bytes) { EncodeHeader(Plain(CONT_LAUNCH_BP, 0)) }
  function ReadyHeader(c: Config): (h: Header) {
    match c.befe
    case Some(data) => Plain(READY, |data|)
    case None => Plain(READY, 0).(longNumTasks := c.stale)
  }
  function ReadyMsg(c: Config): (b: Bytes) {
    EncodeHeader(ReadyHeader(c)) + (if c.befe.Some? then c.befe.value else [])
  }

  // ----- the front end: LMON_fe_beHandshakeSequence

  function FeKeys(c: Config, i: nat, words: seq<int>): (p: Proc)
    decreases KEY_WORDS - i, 0
  {
    // The result of the read is not looked at: at end of file the header read before is taken once more.
    if i < KEY_WORDS then
      Recv(0, HEADER_SIZE, KeyKont(c, i, words),
           if words == [] then Return(LMON_EBDMSG) else FeKeys(c, i + 1, words + [words[|words| - 1]]))
    else if !c.authorize(words) then Return(LMON_ESYS)
    else Recv(0, HEADER_SIZE, HostKont(c), Return(LMON_ESYS))
  }

  function KeyKont(c: Config, i: nat, words: seq<int>): (k: Kont)
    requires i < KEY_WORDS
    decreases KEY_WORDS - i - 1, 1
  {
    d => var h := DecodeHeader(d);
      if h.msgclass != FETOBE || h.kind != SECURITY_CHK || h.lmonLength != 0 then Return(LMON_EBDMSG)
      else FeKeys(c, i + 1, words + [h.stringInfo])
  }

  function HostKont(c: Config): (k: Kont) {
    d => var h := DecodeHeader(d);
      var len := Unsigned(h.lmonLength + h.usrLength);
      if h.msgclass != FETOBE || h.kind != HOSTNAME then Return(LMON_EBDMSG)
      else if len <= 0 then Return(LMON_ESYS)
      else Recv(0, len, FeTell(c, d), Return(LMON_ESYS))
  }

  // The host name message is complete: now the process table, the mode and the resource manager go out.
  function FeTell(c: Config, header: Bytes): (k: Kont) {
    p => Send(0, TableMsg(c), Send(0, ModeMsg(c), Send(0, RmMsg(c), FeUsrData(c, header + p))))
  }

  function FeUsrData(c: Config, hosts: Bytes): (p: Proc) {
    match c.febe
    case NoData => Send(0, UsrMsg([]), FeAwait(c, hosts))
    case NoCallback => Send(0, UsrMsg([]), Return(LMON_ENCLLB))
    case Refused => Return(LMON_EINVAL)
    case Packed(data) => Send(0, UsrMsg(data), FeAwait(c, hosts))
  }

  function FeAwait(c: Config, hosts: Bytes): (p: Proc) { Recv(0, HEADER_SIZE, ContKont(c, hosts), Return(LMON_ESYS)) }

  function ContKont(c: Config, hosts: Bytes): (k: Kont) {
    d => var h := DecodeHeader(d);
      if h.msgclass != FETOBE || h.kind != CONT_LAUNCH_BP then Return(LMON_EBDMSG)
      else Mark(LauncherReleased, Recv(0, HEADER_SIZE, ReadyKont(c, hosts), Return(LMON_EBDMSG)))
  }

  // The result of the second read is not looked at: at end of file whatever the buffer holds is unpacked.
  function ReadyKont(c: Config, hosts: Bytes): (k: Kont) {
    d => var h := DecodeHeader(d);
      if h.msgclass != FETOBE || !(h.kind == READY || h.kind == BEFE_USRDATA) || h.lmonLength != 0 then
        Return(LMON_EBDMSG)
      else if h.usrLength > 0 then Recv(0, h.usrLength, UnpackKont(c, hosts), UnpackKont(c, hosts)(c.torn))
      else Done(Value([hosts, []]))
  }

  function UnpackKont(c: Config, hosts: Bytes): (k: Kont) {
    d => if !c.wanted then Return(LMON_ENCLLB)
      else if c.unpack(d) < 0 then Return(LMON_ENEGCB)
      else Done(Value([hosts, d]))
  }

  // ----- a daemon: LMON_be_init from the security check, LMON_be_handshake, LMON_be_ready

  // What a daemon has learned.
  datatype Known = Known(mode: Bytes, rm: Bytes, table: Bytes, usr: Bytes)

  function BeStart(c: Config, me: int): (p: Proc) { if me == 0 then BeKeys(c, 0) else BeInit(c, me) }

  function BeKeys(c: Config, i: nat): (p: Proc)
    decreases KEY_WORDS - i
  {
    if i < KEY_WORDS && i < |c.key| then Send(c.n, KeyMsg(c.key[i]), BeKeys(c, i + 1)) else BeInit(c, 0)
  }

  function BeInit(c: Config, me: int): (p: Proc) { Barrier(c.n, me, BeGather(c, me)) }

  function BeGather(c: Config, me: int): (k: Kont) {
    _ => if 0 <= me < |c.hosts| then Gather(c.n, me, c.hosts[me], HostTable.HN_MAX, Gathered(c, me)) else EXIT
  }

  function Gathered(c: Config, me: int): (k: Kont) {
    d => if me == 0 then Send(c.n, HostTable.Message(HostTable.Names(d, c.n)), BeTable(c))
      else BeShare(c, me, Known([], [], [], []))
  }

  // A header that is not read leaves the one read before in place, which is never of the expected type.
  function BeTable(c: Config): (p: Proc) { Recv(c.n, HEADER_SIZE, TableKont(c), Return(LMON_EBDMSG)) }

  function TableKont(c: Config): (k: Kont) {
    d => var h := DecodeHeader(d);
      var len := Unsigned(h.lmonLength + h.usrLength);
      if h.kind != PROCTAB || h.lmonLength <= 0 || len <= 0 then Return(LMON_EBDMSG)
      else Recv(c.n, len, EntriesKont(c, d), Return(LMON_EBDMSG))
  }

  function EntriesKont(c: Config, header: Bytes): (k: Kont) {
    p => Recv(c.n, HEADER_SIZE, ModeKont(c, header + p), Return(LMON_EBDMSG))
  }

  // The mode a launch or attach message stands for.
  function Tracing(kind: int): (o: Option<int>) {
    if kind == ATTACH then Some(TRM_ATTACH)
    else if kind == LAUNCH then Some(TRM_LAUNCH)
    else if kind == LAUNCH_DONTSTOP then Some(TRM_LAUNCH_DONTSTOP)
    else if kind == ATTACH_STOP then Some(TRM_ATTACH_STOP)
    else None
  }

  function ModeKont(c: Config, table: Bytes): (k: Kont) {
    d => match Tracing(DecodeHeader(d).kind)
      case None => Return(LMON_EBDMSG)
      case Some(mode) => Recv(c.n, HEADER_SIZE, RmKont(c, table, mode), Return(LMON_EBDMSG))
  }

  function RmKont(c: Config, table: Bytes, mode: int): (k: Kont) {
    d => var h := DecodeHeader(d);
      if h.kind != RM_TYPE then Return(LMON_EBDMSG)
      else Recv(c.n, HEADER_SIZE, UsrKont(c, table, mode, h.jobInfo), Return(LMON_EBDMSG))
  }

  function UsrKont(c: Config, table: Bytes, mode: int, rm: int): (k: Kont) {
    d => var h := DecodeHeader(d);
      if h.kind != FEBE_USRDATA then Return(LMON_EBDMSG)
      else if 0 < h.usrLength < 0x8000_0000 then
        Recv(c.n, h.usrLength, UsrPayloadKont(c, table, mode, rm),
             BeShare(c, 0, Known(EncodeInt(mode), EncodeInt(rm), table, [])))
      else BeShare(c, 0, Known(EncodeInt(mode), EncodeInt(rm), table, []))
  }

  function UsrPayloadKont(c: Config, table: Bytes, mode: int, rm: int): (k: Kont) {
    d => BeShare(c, 0, Known(EncodeInt(mode), EncodeInt(rm), table, d))
  }

  // The master shares what it was told.
  function BeShare(c: Config, me: int, k: Known): (p: Proc) { Bcast(c.n, me, k.mode, INT_SIZE, ShareRm(c, me, k)) }
  function ShareRm(c: Config, me: int, k: Known): (r: Kont) {
    d => Bcast(c.n, me, k.rm, INT_SIZE, ShareSize(c, me, k.(mode := d)))
  }
  function ShareSize(c: Config, me: int, k: Known): (r: Kont) {
    d => Bcast(c.n, me, EncodeInt(|k.table|), INT_SIZE, ShareTable(c, me, k.(rm := d)))
  }
  function ShareTable(c: Config, me: int, k: Known): (r: Kont) {
    d => var size := DecodeInt(d);
      if size < 0 then EXIT else Bcast(c.n, me, k.table, size, InitControl(c, me, k))
  }

  // A daemon that cannot initialize process control returns. When all could, the master asks for the launcher.
  function InitControl(c: Config, me: int, k: Known): (r: Kont) {
    d => if c.init(me) != LMON_OK then Return(c.init(me))
      else Mark(ControlReady, Barrier(c.n, me, AskForLauncher(c, me, k.(table := d))))
  }

  function AskForLauncher(c: Config, me: int, k: Known): (r: Kont) {
    _ => if me == 0 then Send(c.n, ContMsg(), BeSettle(c, me, k)) else BeSettle(c, me, k)
  }

  function BeSettle(c: Config, me: int, k: Known): (p: Proc) {
    if c.settle(me) != LMON_OK then Return(c.settle(me)) else BeSynced(c, me, k)
  }

  function BeSynced(c: Config, me: int, k: Known): (p: Proc) { Barrier(c.n, me, BeReady(c, me, k)) }

  function BeReady(c: Config, me: int, k: Known): (r: Kont) {
    _ => if me == 0 then Send(c.n, ReadyMsg(c), Barrier(c.n, me, BeFinish(k))) else Barrier(c.n, me, BeFinish(k))
  }

  function BeFinish(k: Known): (r: Kont) { _ => Done(Value([k.mode, k.rm, k.table, k.usr])) }

  ghost function Init(c: Config): (s: State) {
    State(seq(c.n, q requires 0 <= q < c.n => BeStart(c, q)) + [FeKeys(c, 0, [])],
          seq(c.n + 1, _ => {}), seq(c.n + 1, _ => 0), map[], {}, false)
  }

  // ----- what the parties owe

  function Usr(c: Config): (b: Bytes) { if c.febe.Packed? then c.febe.data else [] }
  function Names(c: Config): (list: seq<Bytes>) { HostTable.Names(Concat(c.hosts), c.n) }

  // Buffers and messages have their lengths, and fields hold what fits them.
  ghost predicate WellFormed(c: Config) {
    c.n >= 1 && |c.key| == KEY_WORDS && (forall i :: 0 <= i < KEY_WORDS ==> IsUint32(c.key[i])) &&
    Blocks(c.hosts, c.n, HostTable.HN_MAX) && |HostTable.Payload(Names(c))| < 0x7fff_ff00 &&
    Fields(c.table) &&
    c.table.lmonLength + c.table.usrLength == |c.entries| < 0x7fff_ff00 &&
    0 <= c.rmType < 0x1_0000 && IsUint32(c.stale) && |Usr(c)| <= MAX_USRPAYLOAD &&
    (c.befe.Some? ==> |c.befe.value| <= MAX_USRPAYLOAD)
  }

  // The front end recognizes the master's key, user data for the back ends, if there are any, can be packed, and
  // process control works on all daemons.
  ghost predicate Healthy(c: Config) {
    c.authorize(c.key) && (c.febe == NoData || c.febe.Packed?) &&
    forall q :: 0 <= q < c.n ==> c.init(q) == LMON_OK && c.settle(q) == LMON_OK
  }

  // Nothing goes wrong before the ready message: besides, there is a process table.
  ghost predicate Fortunate(c: Config) { Healthy(c) && c.table.lmonLength > 0 }

  // ----- messages that are not due

  // Whoever waits for a message takes no other for it, and reports it.
  lemma OthersReported(c: Config, d: Bytes, i: nat, words: seq<int>, hosts: Bytes, table: Bytes, mode: int, rm: int)
    requires i < KEY_WORDS
    ensures var h, bad := DecodeHeader(d), Done(Code(LMON_EBDMSG));
      (h.msgclass != FETOBE || h.kind != SECURITY_CHK || h.lmonLength != 0 ==> KeyKont(c, i, words)(d) == bad) &&
      (h.msgclass != FETOBE || h.kind != HOSTNAME ==> HostKont(c)(d) == bad) &&
      (h.msgclass != FETOBE || h.kind != CONT_LAUNCH_BP ==> ContKont(c, hosts)(d) == bad) &&
      (h.msgclass != FETOBE || h.kind !in {READY, BEFE_USRDATA} || h.lmonLength != 0 ==>
        ReadyKont(c, hosts)(d) == bad) &&
      (h.kind != PROCTAB || h.lmonLength <= 0 ==> TableKont(c)(d) == bad) &&
      (h.kind !in {ATTACH, ATTACH_STOP, LAUNCH, LAUNCH_DONTSTOP} ==> ModeKont(c, table)(d) == bad) &&
      (h.kind != RM_TYPE ==> RmKont(c, table, mode)(d) == bad) &&
      (h.kind != FEBE_USRDATA ==> UsrKont(c, table, mode, rm)(d) == bad)
  {
    hide DecodeHeader, FeKeys, FeTell, UnpackKont, BeShare, EncodeInt;
  }

  // A master that is gone, as the front end finds it at each of its reads.
  lemma MasterGone(c: Config, i: nat, words: seq<int>, hosts: Bytes)
    requires i < KEY_WORDS && words != []
    ensures FeKeys(c, i, []).onEof == Done(Code(LMON_EBDMSG))
    ensures FeKeys(c, i, words).onEof == FeKeys(c, i + 1, words + [words[|words| - 1]])
    ensures c.authorize(words) ==> FeKeys(c, KEY_WORDS, words).onEof == Done(Code(LMON_ESYS))
    ensures FeAwait(c, hosts).onEof == Done(Code(LMON_ESYS))
  {
  }

  // Each mode of the front end is sent as the message of its own type.
  lemma ModeSent(c: Config)
    ensures DecodeHeader(ModeMsg(c)).kind ==
      if c.launch then (if c.dontStop == Some(1) then LAUNCH_DONTSTOP else LAUNCH)
      else (if c.dontStop == Some(0) then ATTACH_STOP else ATTACH)
  {
    hide EncodeHeader, DecodeHeader;
    BareHeaderRoundTrip(Plain(Mode(c), 0));
  }
}
