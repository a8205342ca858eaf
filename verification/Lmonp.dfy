// The LMONP message header: seven fields of fixed width in front of the two payloads.
module Lmonp {
  import opened Bytestream
  import opened Network

  const FETOFE: int := 0
  const FETOBE: int := 1
  const FETOMW: int := 2

  // message types of the front-end/engine conversation
  const PROCTABLE_AVAIL: int := 5

  // message types of the front-end/back-end conversation
  const SECURITY_CHK: int := 0
  const PROCTAB: int := 1
  const FEBE_USRDATA: int := 2
  const LAUNCH: int := 3
  const LAUNCH_DONTSTOP: int := 4
  const ATTACH: int := 5
  const ATTACH_STOP: int := 6
  const RM_TYPE: int := 8
  const HOSTNAME: int := 9
  const BEFE_USRDATA: int := 10
  const CONT_LAUNCH_BP: int := 11
  const READY: int := 12

  // message type of the front-end/middleware conversation
  const MWFE_HOSTNAME: int := 3

  const HEADER_SIZE: nat := 28
  const NTASKS_THRE: int := 32769
  const PROCDESC_FIELDS: nat := 5

  // `jobInfo` is the union of security_key1, num_tasks and rm_type; `stringInfo` that of security_key2 and
  // the two 16-bit counts of unique names.
  datatype Header = Header(msgclass: int, kind: int, jobInfo: int, stringInfo: int,
                           longNumTasks: int, lmonLength: int, usrLength: int)

  ghost predicate IsUint32(v: int) { 0 <= v < 0x1_0000_0000 }

  // The return codes of the LMON interfaces.
  const LMON_OK: int := 0
  const LMON_EINVAL: int := 1
  const LMON_ESYS: int := 5
  const LMON_ENCLLB: int := 10
  const LMON_ENEGCB: int := 12
  const LMON_EBDMSG: int := 14
  const LMON_EDUNAV: int := 15
  const LMON_ETRUNC: int := 16

  // Every field fits its bit field.
  ghost predicate Fields(h: Header) {
    0 <= h.msgclass < 8 && 0 <= h.kind < 0x2000 && 0 <= h.jobInfo < 0x1_0000 && IsUint32(h.stringInfo) &&
    IsUint32(h.longNumTasks) && IsUint32(h.lmonLength) && IsUint32(h.usrLength)
  }

  // The unsigned short an int is converted to.
  function Short(v: int): (u: nat)
    ensures u < 0x1_0000 && (0 <= v < 0x1_0000 ==> u == v)
  {
    v % 0x1_0000
  }

  // The header set_msg_header builds: a key, if there is one, takes the place of the counts of names.
  function SetHeader(msgclass: int, kind: int, jobInfo: int, key2: int, execs: int, hosts: int,
                     longNumTasks: int, lmonLength: int, usrLength: int): (h: Header) {
    Header(msgclass, kind, Short(jobInfo), if key2 != 0 then key2 else Short(execs) + 0x1_0000 * Short(hosts),
           longNumTasks, lmonLength, usrLength)
  }

  // A header that carries nothing but its class, its type and a payload length.
  function Plain(kind: int, usrLength: int): (h: Header) { Header(FETOBE, kind, 0, 0, 0, 0, usrLength) }

  function HeaderWords(h: Header): (list: seq<int>) {
    [h.msgclass, h.kind, h.jobInfo, h.stringInfo, h.longNumTasks, h.lmonLength, h.usrLength]
  }

  function EncodeHeader(h: Header): (b: Bytes) { Words(HeaderWords(h)) }

  function HeaderOf(w: seq<int>): (h: Header)
    requires |w| == 7
  {
    Header(w[0] % 8, w[1] % 0x2000, w[2] % 0x1_0000, w[3], w[4], w[5], w[6])
  }

  function DecodeHeader(b: Bytes): (h: Header) { HeaderOf(FirstWords(b, 7)) }

  // A reader recovers the header whatever follows it, and knows where the payloads begin.
  lemma HeaderRoundTrip(h: Header, payload: Bytes)
    requires Fields(h)
    ensures |EncodeHeader(h)| == HEADER_SIZE
    ensures DecodeHeader(EncodeHeader(h) + payload) == h && (EncodeHeader(h) + payload)[HEADER_SIZE..] == payload
  {
    hide Words, FirstWords, EncodeInt, DecodeUnsigned;
    WordsRoundTrip(HeaderWords(h), payload);
  }

  // Each field has a word of its own.
  lemma HeaderLayout(h: Header, payload: Bytes)
    requires Fields(h)
    ensures var msg := EncodeHeader(h) + payload;
      Word(msg, 0) == h.msgclass && Word(msg, 1) == h.kind && Word(msg, 2) == h.jobInfo &&
        Word(msg, 3) == h.stringInfo &&
      Word(msg, 4) == h.longNumTasks && Word(msg, 5) == h.lmonLength && Word(msg, 6) == h.usrLength
  {
    hide Word, Words;
    WordAt(HeaderWords(h), payload, 0); WordAt(HeaderWords(h), payload, 1); WordAt(HeaderWords(h), payload, 2);
    WordAt(HeaderWords(h), payload, 3); WordAt(HeaderWords(h), payload, 4); WordAt(HeaderWords(h), payload, 5);
    WordAt(HeaderWords(h), payload, 6);
  }

  lemma BareHeaderRoundTrip(h: Header)
    requires Fields(h)
    ensures |EncodeHeader(h)| == HEADER_SIZE && DecodeHeader(EncodeHeader(h)) == h
  {
    HeaderRoundTrip(h, []);
    assert EncodeHeader(h) + [] == EncodeHeader(h);
  }

  // A message read in two parts: its header, and what the header announces.
  lemma MessageParts(h: Header, payload: Bytes)
    requires Fields(h)
    ensures var msg := EncodeHeader(h) + payload;
      |msg| == HEADER_SIZE + |payload| && msg[..HEADER_SIZE] == EncodeHeader(h) && msg[HEADER_SIZE..] == payload
    ensures DecodeHeader(EncodeHeader(h)) == h
  {
    HeaderRoundTrip(h, payload);
    BareHeaderRoundTrip(h);
  }

  // ----- addresses computed from a header, as offsets into the message

  function LmonPayloadBegin(h: Header): (o: Option<nat>) {
    if h.lmonLength <= 0 then None else Some(HEADER_SIZE)
  }

  function UsrPayloadBegin(h: Header): (o: Option<nat>) {
    if h.usrLength <= 0 || h.lmonLength < 0 then None else Some(HEADER_SIZE + h.lmonLength)
  }

  // Both payloads lie where the header says, for any lengths; an empty one has no address.
  lemma PayloadsFound(h: Header, lmon: Bytes, usr: Bytes)
    requires Fields(h) && h.lmonLength == |lmon| && h.usrLength == |usr|
    ensures
      var msg := EncodeHeader(h) + (lmon + usr);
      var i, j := LmonPayloadBegin(DecodeHeader(msg)), UsrPayloadBegin(DecodeHeader(msg));
      (i == None <==> lmon == []) && (j == None <==> usr == []) &&
      (i.Some? ==> i.value + |lmon| <= |msg| && msg[i.value..i.value + |lmon|] == lmon) &&
      (j.Some? ==> j.value <= |msg| && msg[j.value..] == usr)
  {
    hide EncodeHeader, DecodeHeader;
    HeaderRoundTrip(h, lmon + usr);
    Behind(EncodeHeader(h), lmon + usr, 0, |lmon|);
    Behind(EncodeHeader(h), lmon + usr, |lmon|, |lmon + usr|);
    assert (lmon + usr)[0..|lmon|] == lmon && (lmon + usr)[|lmon|..] == usr;
  }

  // Small task counts travel in 16 bits, large ones in 32.
  function NumTasks(h: Header): (v: nat) {
    var tasks := if h.jobInfo < NTASKS_THRE then h.jobInfo else h.longNumTasks;
    if tasks < 0 then 0 else tasks
  }

  function StrtabBegin(h: Header): (o: Option<nat>) {
    var perTask := if (h.msgclass == FETOFE && h.kind == PROCTABLE_AVAIL) || (h.msgclass == FETOBE && h.kind == PROCTAB)
                   then 4 * PROCDESC_FIELDS
                   else if (h.msgclass == FETOBE && h.kind == HOSTNAME) ||
                     (h.msgclass == FETOMW && h.kind == MWFE_HOSTNAME)
                   then INT_SIZE
                   else 0;
    if perTask == 0 || LmonPayloadBegin(h) == None then None else Some(HEADER_SIZE + perTask * NumTasks(h))
  }

  // The front end turns the engine's process table message into one for the back end.
  function Relabel(h: Header): (r: Header) { h.(msgclass := FETOBE, kind := PROCTAB) }

  // The header of a hostname message for `width` daemons and a payload of `length` bytes.
  function HostnameHeader(width: nat, length: nat): (h: Header) {
    SetHeader(FETOBE, HOSTNAME, if width < NTASKS_THRE then width else NTASKS_THRE, 0, 0,
              width, if width < NTASKS_THRE then 0 else width, length, 0)
  }
}
