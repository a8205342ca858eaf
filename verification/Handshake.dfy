// The two-party security handshake: signatures, one sealed packet each way, a verdict on the peer's
// packet, an exchange of the verdicts, and up to three rounds when a credential has expired.
module Handshake {
  import opened Bytestream
  import opened Network

  const SUCCESS: int := 0
  const INTERNAL_ERROR: int := -1
  const DROP_CONNECTION: int := -2
  const CONNECTION_REFUSED: int := -3
  const ABORT: int := -4
  const AGAIN: int := -16

  const SIG: int := 0x845D_96C1
  const MAX_PACKET: int := 0x10_0000
  const MAX_NUM_TIMEOUTS: nat := 3

  // What one side computes locally in each round: the outcome of encoding and sealing its packet, the sealed
  // packet, and its verdict on the bytes it receives.
  datatype Side = Side(prepare: nat -> int, packet: nat -> Bytes, check: (nat, Bytes) -> int)

  // The codes the local steps can produce.
  ghost predicate Proper(side: Side) {
    (forall r :: side.prepare(r) in {SUCCESS, INTERNAL_ERROR, ABORT}) &&
    (forall r :: |side.packet(r)| < 0x1_0000_0000) &&
    (forall r, b :: side.check(r, b) in {SUCCESS, INTERNAL_ERROR, DROP_CONNECTION, ABORT, AGAIN})
  }

  function Return(code: int): (p: Proc) { Done(Code(code)) }

  // One round of handshake_main inside the retry loop of handshake_wrapper.
  function Round(side: Side, peer: int, r: nat): (p: Proc)
    requires r < MAX_NUM_TIMEOUTS
    decreases MAX_NUM_TIMEOUTS - r, 5
  {
    Mark(Entered(r), Send(peer, EncodeInt(SIG), Recv(peer, INT_SIZE, SigKont(side, peer, r), Return(INTERNAL_ERROR))))
  }

  function SigKont(side: Side, peer: int, r: nat): (f: Bytes -> Proc)
    requires r < MAX_NUM_TIMEOUTS
    decreases MAX_NUM_TIMEOUTS - r, 4
  {
    d =>
      if DecodeUnsigned(d) != SIG then Return(DROP_CONNECTION)
      else if side.prepare(r) < 0 then Share(side, peer, r, side.prepare(r))
      else Send(peer, EncodeInt(|side.packet(r)|), Send(peer, side.packet(r),
             Recv(peer, INT_SIZE, LengthKont(side, peer, r), Return(INTERNAL_ERROR))))
  }

  function LengthKont(side: Side, peer: int, r: nat): (f: Bytes -> Proc)
    requires r < MAX_NUM_TIMEOUTS
    decreases MAX_NUM_TIMEOUTS - r, 3
  {
    d =>
      var size := DecodeUnsigned(d);
      if size > MAX_PACKET || size < 0 then Return(DROP_CONNECTION)
      else Recv(peer, size, PacketKont(side, peer, r), Return(INTERNAL_ERROR))
  }

  function PacketKont(side: Side, peer: int, r: nat): (f: Bytes -> Proc)
    requires r < MAX_NUM_TIMEOUTS
    decreases MAX_NUM_TIMEOUTS - r, 2
  {
    d => Share(side, peer, r, side.check(r, d))
  }

  // The peer only learns of success, failure or the wish for another round.
  function Shared(verdict: int): (v: int) {
    if verdict == SUCCESS then SUCCESS else if verdict == AGAIN then AGAIN else DROP_CONNECTION
  }

  function Share(side: Side, peer: int, r: nat, verdict: int): (p: Proc)
    requires r < MAX_NUM_TIMEOUTS
    decreases MAX_NUM_TIMEOUTS - r, 1
  {
    Send(peer, EncodeInt(Shared(verdict)),
         Recv(peer, INT_SIZE, VerdictKont(side, peer, r, verdict), Settle(side, peer, r, verdict, INTERNAL_ERROR)))
  }

  function VerdictKont(side: Side, peer: int, r: nat, verdict: int): (f: Bytes -> Proc)
    requires r < MAX_NUM_TIMEOUTS
    decreases MAX_NUM_TIMEOUTS - r, 0, 1
  {
    d => Settle(side, peer, r, verdict, PeerResult(DecodeInt(d)))
  }

  function PeerResult(code: int): (v: int) {
    if code == SUCCESS then SUCCESS else if code == AGAIN then AGAIN else CONNECTION_REFUSED
  }

  // The peer's result counts only if this side has nothing to object to.
  function Combine(verdict: int, peerResult: int): (v: int) {
    if verdict == SUCCESS && peerResult != SUCCESS then peerResult else verdict
  }

  function Settle(side: Side, peer: int, r: nat, verdict: int, peerResult: int): (p: Proc)
    requires r < MAX_NUM_TIMEOUTS
    decreases MAX_NUM_TIMEOUTS - r, 0, 0
  {
    var result := Combine(verdict, peerResult);
    if result != AGAIN then Return(result)
    else if r + 1 == MAX_NUM_TIMEOUTS then Return(ABORT)
    else Round(side, peer, r + 1)
  }

  // ----- what both sides return, as a function of the local results alone

  // A side whose peer is gone: no verdict comes back, and another round meets end of file.
  function Alone(r: nat, verdict: int): (v: int) {
    if verdict == SUCCESS then INTERNAL_ERROR
    else if verdict == AGAIN then (if r + 1 == MAX_NUM_TIMEOUTS then ABORT else INTERNAL_ERROR)
    else verdict
  }

  // A side that has heard the peer's verdict returns its own, unless it has nothing to object to.
  function Answered(mine: int, theirs: int): (code: int) {
    if mine != SUCCESS then mine
    else if theirs == SUCCESS then SUCCESS
    else if theirs == AGAIN then AGAIN
    else CONNECTION_REFUSED
  }

  function Outcomes(server: Side, client: Side, r: nat): (out: (int, int))
    requires r < MAX_NUM_TIMEOUTS
    decreases MAX_NUM_TIMEOUTS - r
  {
    var ps, pc := server.prepare(r), client.prepare(r);
    if ps < 0 then (ps, if pc < 0 then pc else DROP_CONNECTION)
    else if pc < 0 then (DROP_CONNECTION, pc)
    else
      var vs, vc := server.check(r, client.packet(r)), client.check(r, server.packet(r));
      var longS, longC := |server.packet(r)| > MAX_PACKET, |client.packet(r)| > MAX_PACKET;
      if longS && longC then (DROP_CONNECTION, DROP_CONNECTION)
      else if longS then (Alone(r, vs), DROP_CONNECTION)
      else if longC then (DROP_CONNECTION, Alone(r, vc))
      else
        var rs, rc := Answered(vs, vc), Answered(vc, vs);
        if rs != AGAIN && rc != AGAIN then (rs, rc)
        else if rc != AGAIN then (Alone(r, AGAIN), rc)
        else if rs != AGAIN then (rs, Alone(r, AGAIN))
        else if r + 1 == MAX_NUM_TIMEOUTS then (ABORT, ABORT)
        else Outcomes(server, client, r + 1)
  }

  // What the peer is told of a verdict is enough to answer it.
  lemma AnswerIs(mine: int, theirs: int)
    ensures Combine(mine, PeerResult(Shared(theirs))) == Answered(mine, theirs)
  {
  }

  // ----- a conversation of two processes

  // Processes 0 and 1, and the bytes under way in both directions.
  datatype Pair = Pair(a: Proc, b: Proc, ab: Bytes, ba: Bytes)

  function Move(p: Pair): (o: Option<Pair>) {
    match p.a
    case Done(_) => None
    case Send(to, data, next) => if to == 1 then Some(p.(a := next, ab := p.ab + data)) else None
    case Recv(from, size, onData, onEof) =>
      if from != 1 then None
      else if size <= |p.ba| then Some(p.(a := onData(p.ba[..size]), ba := p.ba[size..]))
      else if p.b.Done? then Some(p.(a := onEof))
      else None
    case Mark(_, _) => None
  }

  function MoveBack(p: Pair): (o: Option<Pair>) {
    match p.b
    case Done(_) => None
    case Send(to, data, next) => if to == 0 then Some(p.(b := next, ba := p.ba + data)) else None
    case Recv(from, size, onData, onEof) =>
      if from != 0 then None
      else if size <= |p.ab| then Some(p.(b := onData(p.ab[..size]), ab := p.ab[size..]))
      else if p.a.Done? then Some(p.(b := onEof))
      else None
    case Mark(_, _) => None
  }

  ghost predicate Is(s: State, p: Pair) {
    Shape(s) && |s.procs| == 2 && s.procs[0] == p.a && s.procs[1] == p.b &&
    Payload(Chan(s, Edge(0, 1))) == p.ab && Payload(Chan(s, Edge(1, 0))) == p.ba
  }

  lemma PayloadSlices(c: seq<Cell>, i: nat, d: seq<Cell>)
    requires i <= |c|
    ensures Payload(c[..i]) == Payload(c)[..i] && Payload(c[i..]) == Payload(c)[i..] &&
      Payload(c + d) == Payload(c) + Payload(d)
  {
  }

  lemma MoveIsStep(s: State, p: Pair)
    requires Is(s, p) && Move(p).Some?
    ensures Ready(s, 0) && Is(Step(s, 0), Move(p).value) && Step(s, 0).log == s.log
  {
    match p.a {
      case Send(_, data, _) =>
        var c := Stamped(data, s.epochs[0], s.know[0]);
        PayloadSlices(Chan(s, Edge(0, 1)), 0, c);
        PayloadOfStamped(data, s.epochs[0], s.know[0]);
      case Recv(_, size, _, _) =>
        if size <= |p.ba| { PayloadSlices(Chan(s, Edge(1, 0)), size, []); }
    }
  }

  lemma MoveBackIsStep(s: State, p: Pair)
    requires Is(s, p) && MoveBack(p).Some?
    ensures Ready(s, 1) && Is(Step(s, 1), MoveBack(p).value) && Step(s, 1).log == s.log
  {
    match p.b {
      case Send(_, data, _) =>
        var c := Stamped(data, s.epochs[1], s.know[1]);
        PayloadSlices(Chan(s, Edge(1, 0)), 0, c);
        PayloadOfStamped(data, s.epochs[1], s.know[1]);
      case Recv(_, size, _, _) =>
        if size <= |p.ab| { PayloadSlices(Chan(s, Edge(0, 1)), size, []); }
    }
  }

  // Plays of a pair without announcements; true moves process 0, false process 1.
  ghost function Play(p: Pair, moves: seq<bool>): (o: Option<Pair>)
    decreases |moves|
  {
    if moves == [] then Some(p)
    else
      match if moves[0] then Move(p) else MoveBack(p)
      case None => None
      case Some(q) => Play(q, moves[1..])
  }

  ghost predicate Leads(p: Pair, q: Pair) { exists moves :: Play(p, moves) == Some(q) }

  lemma LeadsSelf(p: Pair)
    ensures Leads(p, p)
  {
    assert Play(p, []) == Some(p);
  }

  lemma {:induction false} PlayConcat(p: Pair, a: seq<bool>, q: Pair, b: seq<bool>)
    requires Play(p, a) == Some(q)
    ensures Play(p, a + b) == Play(q, b)
    decreases |a|
  {
    if a == [] {
      assert a + b == b;
    } else {
      var next := if a[0] then Move(p) else MoveBack(p);
      assert (a + b)[1..] == a[1..] + b;
      PlayConcat(next.value, a[1..], q, b);
    }
  }

  lemma LeadsThen(p: Pair, q: Pair, r: Pair)
    requires Leads(p, q) && Leads(q, r)
    ensures Leads(p, r)
  {
    var a :| Play(p, a) == Some(q);
    var b :| Play(q, b) == Some(r);
    PlayConcat(p, a, q, b);
  }

  lemma Go(p: Pair, q: Pair) returns (r: Pair)
    requires Leads(p, q) && Move(q).Some?
    ensures r == Move(q).value && Leads(p, r)
  {
    r := Move(q).value;
    assert Play(r, []) == Some(r);
    assert Play(q, [true]) == Some(r);
    LeadsThen(p, q, r);
  }

  lemma GoBack(p: Pair, q: Pair) returns (r: Pair)
    requires Leads(p, q) && MoveBack(q).Some?
    ensures r == MoveBack(q).value && Leads(p, r)
  {
    r := MoveBack(q).value;
    assert Play(r, []) == Some(r);
    assert Play(q, [false]) == Some(r);
    LeadsThen(p, q, r);
  }

  lemma {:induction false} PlayIsRun(s: State, p: Pair, moves: seq<bool>, q: Pair) returns (t: State)
    requires Is(s, p) && Play(p, moves) == Some(q)
    ensures Reaches(s, t) && Is(t, q) && t.log == s.log
    decreases |moves|
  {
    if moves == [] {
      ReachesSelf(s);
      t := s;
    } else if moves[0] {
      MoveIsStep(s, p);
      t := PlayIsRun(Step(s, 0), Move(p).value, moves[1..], q);
      ReachesStep(s, 0);
      ReachesTransitive(s, Step(s, 0), t);
    } else {
      MoveBackIsStep(s, p);
      t := PlayIsRun(Step(s, 1), MoveBack(p).value, moves[1..], q);
      ReachesStep(s, 1);
      ReachesTransitive(s, Step(s, 1), t);
    }
  }

  // ----- the phases of a round

  // Both write one message and read the other's.
  lemma Swap(x: Bytes, y: Bytes, ka: Bytes -> Proc, ea: Proc, kb: Bytes -> Proc, eb: Proc)
    ensures Leads(Pair(Send(1, x, Recv(1, |y|, ka, ea)), Send(0, y, Recv(0, |x|, kb, eb)), [], []),
      Pair(ka(y), kb(x), [], []))
  {
    var p := Pair(Send(1, x, Recv(1, |y|, ka, ea)), Send(0, y, Recv(0, |x|, kb, eb)), [], []);
    LeadsSelf(p);
    var p1 := Go(p, p);
    assert p1.ab == x;
    var p2 := GoBack(p, p1);
    assert p2.ba == y && y[..|y|] == y && x[..|x|] == x;
    var p3 := Go(p, p2);
    assert p3.a == ka(y) && p3.ba == [];
    var p4 := GoBack(p, p3);
    assert p4 == Pair(ka(y), kb(x), [], []);
  }

  // Process 0 and process 1 with their roles exchanged.
  function Framed(side: Side, peer: int, r: nat): (p: Proc)
    requires r < MAX_NUM_TIMEOUTS
  {
    Send(peer, EncodeInt(|side.packet(r)|), Send(peer, side.packet(r),
      Recv(peer, INT_SIZE, LengthKont(side, peer, r), Return(INTERNAL_ERROR))))
  }

  lemma LengthRoundTrip(side: Side, r: nat)
    requires Proper(side)
    ensures |EncodeInt(|side.packet(r)|)| == INT_SIZE && DecodeUnsigned(EncodeInt(|side.packet(r)|)) == |side.packet(r)|
  {
    UnsignedRoundTrip(|side.packet(r)|);
  }

  // Both write length and packet; both then have the peer's length in hand and its packet on the way.
  lemma SwapLengths(server: Side, client: Side, r: nat)
    requires Proper(server) && Proper(client) && r < MAX_NUM_TIMEOUTS
    ensures Leads(Pair(Framed(server, 1, r), Framed(client, 0, r), [], []),
      Pair(LengthKont(server, 1, r)(EncodeInt(|client.packet(r)|)),
        LengthKont(client, 0, r)(EncodeInt(|server.packet(r)|)),
           server.packet(r), client.packet(r)))
  {
    hide EncodeInt, Play, Leads, LengthKont;
    LengthRoundTrip(server, r);
    LengthRoundTrip(client, r);
    var lx, ly, x, y := EncodeInt(|server.packet(r)|), EncodeInt(|client.packet(r)|), server.packet(r),
      client.packet(r);
    var p := Pair(Framed(server, 1, r), Framed(client, 0, r), [], []);
    LeadsSelf(p);
    var p1 := Go(p, p);
    var p2 := Go(p, p1);
    var p3 := GoBack(p, p2);
    var p4 := GoBack(p, p3);
    assert p4.ab == lx + x && p4.ba == ly + y;
    assert p4.ba[..INT_SIZE] == ly && p4.ba[INT_SIZE..] == y;
    var p5 := Go(p, p4);
    assert p5.ab[..INT_SIZE] == lx && p5.ab[INT_SIZE..] == x;
    var p6 := GoBack(p, p5);
  }

  // ----- how a round ends

  datatype Ending = Over | NextRound | ServerAlone | ClientAlone

  // q is where the pair stands when round r is over, and what both sides will return from there.
  ghost predicate Ends(server: Side, client: Side, r: nat, q: Pair, ending: Ending)
    requires r < MAX_NUM_TIMEOUTS
  {
    var out := Outcomes(server, client, r);
    match ending
    case Over => q.a == Return(out.0) && q.b == Return(out.1)
    case NextRound =>
      r + 1 < MAX_NUM_TIMEOUTS && q == Pair(Round(server, 1, r + 1), Round(client, 0, r + 1), [], []) &&
      out == Outcomes(server, client, r + 1)
    case ServerAlone =>
      r + 1 < MAX_NUM_TIMEOUTS && q.a == Round(server, 1, r + 1) && q.b == Return(out.1) && q.ba == [] &&
        out.0 == INTERNAL_ERROR
    case ClientAlone =>
      r + 1 < MAX_NUM_TIMEOUTS && q.b == Round(client, 0, r + 1) && q.a == Return(out.0) && q.ab == [] &&
        out.1 == INTERNAL_ERROR
  }

  lemma SharedRoundTrip(verdict: int)
    ensures |EncodeInt(Shared(verdict))| == INT_SIZE && DecodeInt(EncodeInt(Shared(verdict))) == Shared(verdict)
  {
    IntRoundTrip(Shared(verdict));
  }

  // Both exchange their verdicts.
  lemma SwapVerdicts(server: Side, client: Side, r: nat, vs: int, vc: int)
    requires r < MAX_NUM_TIMEOUTS
    ensures Leads(Pair(Share(server, 1, r, vs), Share(client, 0, r, vc), [], []),
      Pair(Settle(server, 1, r, vs, PeerResult(Shared(vc))), Settle(client, 0, r, vc, PeerResult(Shared(vs))), [], []))
  {
    SharedRoundTrip(vs);
    SharedRoundTrip(vc);
    Swap(EncodeInt(Shared(vs)), EncodeInt(Shared(vc)),
         VerdictKont(server, 1, r, vs), Settle(server, 1, r, vs, INTERNAL_ERROR),
         VerdictKont(client, 0, r, vc), Settle(client, 0, r, vc, INTERNAL_ERROR));
  }

  // Both sides after the signatures.
  function Signed(server: Side, client: Side, r: nat): (pair: Pair)
    requires r < MAX_NUM_TIMEOUTS
  {
    Pair(SigKont(server, 1, r)(EncodeInt(SIG)), SigKont(client, 0, r)(EncodeInt(SIG)), [], [])
  }

  lemma SignedIs(server: Side, client: Side, r: nat)
    requires r < MAX_NUM_TIMEOUTS
    ensures Signed(server, client, r) == Pair(
      if server.prepare(r) < 0 then Share(server, 1, r, server.prepare(r)) else Framed(server, 1, r),
      if client.prepare(r) < 0 then Share(client, 0, r, client.prepare(r)) else Framed(client, 0, r), [], [])
  {
    UnsignedRoundTrip(SIG);
  }

  lemma BothFailEarly(server: Side, client: Side, r: nat) returns (q: Pair)
    requires Proper(server) && Proper(client) && r < MAX_NUM_TIMEOUTS && server.prepare(r) < 0 && client.prepare(r) < 0
    ensures Leads(Signed(server, client, r), q) && Ends(server, client, r, q, Over)
  {
    var ps, pc := server.prepare(r), client.prepare(r);
    SignedIs(server, client, r);
    SwapVerdicts(server, client, r, ps, pc);
    q := Pair(Settle(server, 1, r, ps, PeerResult(Shared(pc))), Settle(client, 0, r, pc, PeerResult(Shared(ps))), [],
      []);
  }

  // One side writes its verdict while the other writes a length l and a packet y; each reads four bytes.
  lemma CrossA(x: Bytes, l: Bytes, y: Bytes, ka: Bytes -> Proc, ea: Proc, kb: Bytes -> Proc, eb: Proc)
    requires |x| == |l| == INT_SIZE
    ensures Leads(Pair(Send(1, x, Recv(1, INT_SIZE, ka, ea)),
                       Send(0, l, Send(0, y, Recv(0, INT_SIZE, kb, eb))), [], []),
                  Pair(ka(l), kb(x), [], y))
  {
    var p := Pair(Send(1, x, Recv(1, INT_SIZE, ka, ea)), Send(0, l, Send(0, y, Recv(0, INT_SIZE, kb, eb))), [], []);
    LeadsSelf(p);
    var p1 := Go(p, p);
    var p2 := GoBack(p, p1);
    var p3 := GoBack(p, p2);
    assert p3.ba == l + y && (l + y)[..INT_SIZE] == l && (l + y)[INT_SIZE..] == y;
    var p4 := Go(p, p3);
    assert p4.ab == x && x[..INT_SIZE] == x;
    var p5 := GoBack(p, p4);
    assert p5 == Pair(ka(l), kb(x), [], y);
  }

  lemma CrossB(x: Bytes, l: Bytes, y: Bytes, ka: Bytes -> Proc, ea: Proc, kb: Bytes -> Proc, eb: Proc)
    requires |x| == |l| == INT_SIZE
    ensures Leads(Pair(Send(1, l, Send(1, y, Recv(1, INT_SIZE, ka, ea))),
                       Send(0, x, Recv(0, INT_SIZE, kb, eb)), [], []),
                  Pair(ka(x), kb(l), y, []))
  {
    var p := Pair(Send(1, l, Send(1, y, Recv(1, INT_SIZE, ka, ea))), Send(0, x, Recv(0, INT_SIZE, kb, eb)), [], []);
    LeadsSelf(p);
    var p1 := GoBack(p, p);
    var p2 := Go(p, p1);
    var p3 := Go(p, p2);
    assert p3.ab == l + y && (l + y)[..INT_SIZE] == l && (l + y)[INT_SIZE..] == y;
    var p4 := GoBack(p, p3);
    assert p4.ba == x && x[..INT_SIZE] == x;
    var p5 := Go(p, p4);
    assert p5 == Pair(ka(x), kb(l), y, []);
  }

  // The code of a failed side, read as a length, is refused.
  lemma FailureIsNoLength(side: Side, peer: int, r: nat)
    requires r < MAX_NUM_TIMEOUTS
    ensures LengthKont(side, peer, r)(EncodeInt(DROP_CONNECTION)) == Return(DROP_CONNECTION)
  {
    UnsignedRoundTrip(DROP_CONNECTION);
  }

  lemma ServerFailsEarly(server: Side, client: Side, r: nat) returns (q: Pair)
    requires Proper(server) && Proper(client) && r < MAX_NUM_TIMEOUTS && server.prepare(r) < 0 && client.prepare(r) == 0
    ensures Leads(Signed(server, client, r), q) && Ends(server, client, r, q, Over)
  {
    var ps, l := server.prepare(r), EncodeInt(|client.packet(r)|);
    SignedIs(server, client, r);
    CrossA(EncodeInt(DROP_CONNECTION), l, client.packet(r), VerdictKont(server, 1, r, ps),
      Settle(server, 1, r, ps, INTERNAL_ERROR),
           LengthKont(client, 0, r), Return(INTERNAL_ERROR));
    FailureIsNoLength(client, 0, r);
    q := Pair(Settle(server, 1, r, ps, PeerResult(DecodeInt(l))), Return(DROP_CONNECTION), [], client.packet(r));
  }

  lemma ClientFailsEarly(server: Side, client: Side, r: nat) returns (q: Pair)
    requires Proper(server) && Proper(client) && r < MAX_NUM_TIMEOUTS && server.prepare(r) == 0 && client.prepare(r) < 0
    ensures Leads(Signed(server, client, r), q) && Ends(server, client, r, q, Over)
  {
    var pc, l := client.prepare(r), EncodeInt(|server.packet(r)|);
    SignedIs(server, client, r);
    CrossB(EncodeInt(DROP_CONNECTION), l, server.packet(r), LengthKont(server, 1, r), Return(INTERNAL_ERROR),
           VerdictKont(client, 0, r, pc), Settle(client, 0, r, pc, INTERNAL_ERROR));
    FailureIsNoLength(server, 1, r);
    q := Pair(Return(DROP_CONNECTION), Settle(client, 0, r, pc, PeerResult(DecodeInt(l))), server.packet(r), []);
  }

  // The packets themselves are on the way in both directions.
  function Shipped(server: Side, client: Side, r: nat): (pair: Pair)
    requires r < MAX_NUM_TIMEOUTS
  {
    var x, y := server.packet(r), client.packet(r);
    Pair(if |y| > MAX_PACKET then Return(DROP_CONNECTION)
         else Recv(1, |y|, PacketKont(server, 1, r), Return(INTERNAL_ERROR)),
         if |x| > MAX_PACKET then Return(DROP_CONNECTION)
         else Recv(0, |x|, PacketKont(client, 0, r), Return(INTERNAL_ERROR)),
         x, y)
  }

  lemma Ship(server: Side, client: Side, r: nat)
    requires Proper(server) && Proper(client) && r < MAX_NUM_TIMEOUTS && server.prepare(r) == 0 &&
      client.prepare(r) == 0
    ensures Leads(Signed(server, client, r), Shipped(server, client, r))
  {
    SignedIs(server, client, r);
    LengthRoundTrip(server, r);
    LengthRoundTrip(client, r);
    SwapLengths(server, client, r);
  }

  lemma ClientRejectsLength(server: Side, client: Side, r: nat) returns (q: Pair, ending: Ending)
    requires Proper(server) && Proper(client) && r < MAX_NUM_TIMEOUTS && server.prepare(r) == 0 &&
      client.prepare(r) == 0
    requires |server.packet(r)| > MAX_PACKET >= |client.packet(r)|
    ensures Leads(Shipped(server, client, r), q) && Ends(server, client, r, q, ending)
  {
    var p, y := Shipped(server, client, r), client.packet(r);
    var vs := server.check(r, y);
    LeadsSelf(p);
    assert p.ba[..|y|] == y && p.ba[|y|..] == [];
    var p1 := Go(p, p);
    assert p1.a == Share(server, 1, r, vs);
    var p2 := Go(p, p1);
    q := Go(p, p2);
    assert q.a == Settle(server, 1, r, vs, INTERNAL_ERROR) && q.ba == [];
    ending := if vs == AGAIN && r + 1 < MAX_NUM_TIMEOUTS then ServerAlone else Over;
  }

  lemma ServerRejectsLength(server: Side, client: Side, r: nat) returns (q: Pair, ending: Ending)
    requires Proper(server) && Proper(client) && r < MAX_NUM_TIMEOUTS && server.prepare(r) == 0 &&
      client.prepare(r) == 0
    requires |client.packet(r)| > MAX_PACKET >= |server.packet(r)|
    ensures Leads(Shipped(server, client, r), q) && Ends(server, client, r, q, ending)
  {
    var p, x := Shipped(server, client, r), server.packet(r);
    var vc := client.check(r, x);
    LeadsSelf(p);
    assert p.ab[..|x|] == x && p.ab[|x|..] == [];
    var p1 := GoBack(p, p);
    assert p1.b == Share(client, 0, r, vc);
    var p2 := GoBack(p, p1);
    q := GoBack(p, p2);
    assert q.b == Settle(client, 0, r, vc, INTERNAL_ERROR) && q.ab == [];
    ending := if vc == AGAIN && r + 1 < MAX_NUM_TIMEOUTS then ClientAlone else Over;
  }

  // Where both stand when the verdicts vs and vc have been exchanged.
  function Told(server: Side, client: Side, r: nat, vs: int, vc: int): (pair: Pair)
    requires r < MAX_NUM_TIMEOUTS
  {
    Pair(Settle(server, 1, r, vs, PeerResult(Shared(vc))), Settle(client, 0, r, vc, PeerResult(Shared(vs))), [], [])
  }

  lemma BothTell(server: Side, client: Side, r: nat)
    requires Proper(server) && Proper(client) && r < MAX_NUM_TIMEOUTS
    requires |server.packet(r)| <= MAX_PACKET && |client.packet(r)| <= MAX_PACKET
    ensures var vs, vc := server.check(r, client.packet(r)), client.check(r, server.packet(r));
      Leads(Shipped(server, client, r), Told(server, client, r, vs, vc))
  {
    hide Combine, PeerResult, Shared, Alone, Leads, Play, Settle, EncodeInt;
    var p, x, y := Shipped(server, client, r), server.packet(r), client.packet(r);
    var vs, vc := server.check(r, y), client.check(r, x);
    LeadsSelf(p);
    assert p.ab[..|x|] == x && p.ab[|x|..] == [] && p.ba[..|y|] == y && p.ba[|y|..] == [];
    var p1 := Go(p, p);
    var p2 := GoBack(p, p1);
    assert p2 == Pair(Share(server, 1, r, vs), Share(client, 0, r, vc), [], []);
    SwapVerdicts(server, client, r, vs, vc);
    LeadsThen(p, p2, Told(server, client, r, vs, vc));
  }

  lemma Settled(side: Side, peer: int, r: nat, mine: int, theirs: int)
    requires r < MAX_NUM_TIMEOUTS
    ensures var result := Answered(mine, theirs);
      Settle(side, peer, r, mine, PeerResult(Shared(theirs))) ==
        if result != AGAIN then Return(result)
        else if r + 1 == MAX_NUM_TIMEOUTS then Return(ABORT)
        else Round(side, peer, r + 1)
  {
    hide Round;
    AnswerIs(mine, theirs);
  }

  lemma BothCheck(server: Side, client: Side, r: nat) returns (q: Pair, ending: Ending)
    requires Proper(server) && Proper(client) && r < MAX_NUM_TIMEOUTS && server.prepare(r) == 0 &&
      client.prepare(r) == 0
    requires |server.packet(r)| <= MAX_PACKET && |client.packet(r)| <= MAX_PACKET
    ensures Leads(Shipped(server, client, r), q) && Ends(server, client, r, q, ending)
  {
    hide Settle, PeerResult, Shared, Leads, Shipped, Round, Combine, Proper;
    var vs, vc := server.check(r, client.packet(r)), client.check(r, server.packet(r));
    BothTell(server, client, r);
    Settled(server, 1, r, vs, vc);
    Settled(client, 0, r, vc, vs);
    q := Told(server, client, r, vs, vc);
    var rs, rc := Answered(vs, vc), Answered(vc, vs);
    ending := if r + 1 == MAX_NUM_TIMEOUTS || (rs != AGAIN && rc != AGAIN) then Over
              else if rc != AGAIN then ServerAlone else if rs != AGAIN then ClientAlone else NextRound;
  }

  lemma RoundEnds(server: Side, client: Side, r: nat) returns (q: Pair, ending: Ending)
    requires Proper(server) && Proper(client) && r < MAX_NUM_TIMEOUTS
    ensures Leads(Signed(server, client, r), q) && Ends(server, client, r, q, ending)
  {
    ending := Over;
    if server.prepare(r) < 0 {
      if client.prepare(r) < 0 {
        q := BothFailEarly(server, client, r);
      } else {
        q := ServerFailsEarly(server, client, r);
      }
    } else if client.prepare(r) < 0 {
      q := ClientFailsEarly(server, client, r);
    } else {
      var p := Shipped(server, client, r);
      Ship(server, client, r);
      if |server.packet(r)| > MAX_PACKET && |client.packet(r)| > MAX_PACKET {
        q := p;
      } else {
        if |server.packet(r)| > MAX_PACKET { q, ending := ClientRejectsLength(server, client, r); }
        else if |client.packet(r)| > MAX_PACKET { q, ending := ServerRejectsLength(server, client, r); }
        else { q, ending := BothCheck(server, client, r); }
        LeadsThen(Signed(server, client, r), p, q);
      }
    }
  }

  // ----- whole runs

  ghost function Start(server: Side, client: Side): (s: State) {
    State([Round(server, 1, 0), Round(client, 0, 0)], [{}, {}], [0, 0], map[], {}, false)
  }

  // Whoever starts round r + 1 knows that its peer has started round r.
  ghost predicate InStep(log: set<Entry>) {
    forall x :: x in log && x.stamp.event.Entered? && x.stamp.event.call > 0 && x.stamp.task in {0, 1} ==>
      Stamp(1 - x.stamp.task, Entered(x.stamp.event.call - 1)) in x.past
  }

  // The two sides know of each other's start of round r - 1.
  ghost predicate Met(s: State, r: nat) {
    Shape(s) && |s.procs| == 2 &&
    (r > 0 ==> Stamp(1, Entered(r - 1)) in s.know[0] && Stamp(0, Entered(r - 1)) in s.know[1])
  }

  // Both write a message and read the other's, and so learn all the other knew.
  lemma SwapNews(s: State, x: Bytes, y: Bytes, ka: Bytes -> Proc, ea: Proc, kb: Bytes -> Proc, eb: Proc)
    returns (t: State)
    requires x != [] && y != []
    requires Is(s, Pair(Send(1, x, Recv(1, |y|, ka, ea)), Send(0, y, Recv(0, |x|, kb, eb)), [], []))
    ensures Reaches(s, t) && Is(t, Pair(ka(y), kb(x), [], [])) && t.log == s.log && Grows(s, t)
    ensures s.know[1] <= t.know[0] && s.know[0] <= t.know[1]
  {
    var p := Pair(Send(1, x, Recv(1, |y|, ka, ea)), Send(0, y, Recv(0, |x|, kb, eb)), [], []);
    MoveBackIsStep(s, p);
    var u, c := Step(s, 1), Stamped(y, s.epochs[1], s.know[1]);
    ReachesStep(s, 1);
    var v := HandOver(u, 0, 1);
    assert Chan(v, Edge(1, 0)) == Chan(u, Edge(1, 0)) == Chan(s, Edge(1, 0)) + c == c;
    PayloadOfStamped(y, s.epochs[1], s.know[1]);
    assert c[..|y|] == c && c[|y|..] == [];
    assert Is(v, Pair(Recv(1, |y|, ka, ea), kb(x), [], y));
    t := Step(v, 0);
    ReachesStep(v, 0);
    ReachesTransitive(s, u, v);
    ReachesTransitive(s, v, t);
    ReachesGrows(s, t);
    assert Chan(t, Edge(0, 1)) == Chan(v, Edge(0, 1));
  }

  lemma RoundAnnounced(s: State, pa: Proc, pb: Proc, r: nat) returns (t: State)
    requires Is(s, Pair(Mark(Entered(r), pa), Mark(Entered(r), pb), [], [])) && Met(s, r) && InStep(s.log)
    ensures Reaches(s, t) && Is(t, Pair(pa, pb, [], [])) && InStep(t.log)
    ensures Stamp(0, Entered(r)) in t.know[0] && Stamp(1, Entered(r)) in t.know[1]
  {
    t := Announce(s, 2, Entered(r));
    assert Chan(t, Edge(0, 1)) == Chan(s, Edge(0, 1)) && Chan(t, Edge(1, 0)) == Chan(s, Edge(1, 0));
    forall x | x in t.log && x.stamp.event.Entered? && x.stamp.event.call > 0 && x.stamp.task in {0, 1}
      ensures Stamp(1 - x.stamp.task, Entered(x.stamp.event.call - 1)) in x.past
    {
      if x !in s.log {
        var q :| 0 <= q < 2 && x == Entry(Stamp(q, Entered(r)), s.know[q]);
      }
    }
  }

  lemma RoundBegins(s: State, server: Side, client: Side, r: nat) returns (t: State)
    requires r < MAX_NUM_TIMEOUTS && Is(s, Pair(Round(server, 1, r), Round(client, 0, r), [], [])) && Met(s, r) &&
      InStep(s.log)
    ensures Reaches(s, t) && Is(t, Signed(server, client, r)) && Met(t, r + 1) && InStep(t.log)
  {
    UnsignedRoundTrip(SIG);
    var sig := EncodeInt(SIG);
    var pa := Send(1, sig, Recv(1, |sig|, SigKont(server, 1, r), Return(INTERNAL_ERROR)));
    var pb := Send(0, sig, Recv(0, |sig|, SigKont(client, 0, r), Return(INTERNAL_ERROR)));
    var a := RoundAnnounced(s, pa, pb, r);
    t := SwapNews(a, sig, sig, SigKont(server, 1, r), Return(INTERNAL_ERROR), SigKont(client, 0, r),
      Return(INTERNAL_ERROR));
    ReachesTransitive(s, a, t);
  }

  // A process that has returned, seen from the other one.
  ghost predicate Lonely(s: State, p: int) {
    Shape(s) && |s.procs| == 2 && p in {0, 1} && s.procs[1 - p].Done? && Chan(s, Edge(1 - p, p)) == []
  }

  // It announces the next round, writes, and meets end of file.
  lemma LonelyRound(s: State, p: int, side: Side, r: nat) returns (t: State)
    requires r + 1 < MAX_NUM_TIMEOUTS && Met(s, r + 1) && InStep(s.log) && Lonely(s, p)
    requires s.procs[p] == Round(side, 1 - p, r + 1)
    ensures Reaches(s, t) && InStep(t.log) && |t.procs| == 2 && Shape(t)
    ensures t.procs == s.procs[p := Return(INTERNAL_ERROR)]
  {
    hide EncodeInt, Met, Lonely, Reaches;
    var a := LonelyMark(s, p, side, r);
    var b := LonelySend(a, p);
    t := LonelyEof(b, p);
    ReachesTransitive(s, a, b);
    ReachesTransitive(s, b, t);
  }

  lemma LonelyMark(s: State, p: int, side: Side, r: nat) returns (t: State)
    requires r + 1 < MAX_NUM_TIMEOUTS && Met(s, r + 1) && InStep(s.log) && Lonely(s, p)
    requires s.procs[p] == Round(side, 1 - p, r + 1)
    ensures Reaches(s, t) && InStep(t.log) && Lonely(t, p) && 0 <= p < |s.procs|
    ensures t.procs == s.procs[p := s.procs[p].after]
  {
    hide EncodeInt, SigKont;
    t := Step(s, p);
    ReachesStep(s, p);
    OtherChannel(s, p, Edge(1 - p, p));
    LogAfter(s, p);
  }

  lemma LonelySend(s: State, p: int) returns (t: State)
    requires Lonely(s, p) && s.procs[p].Send? && s.procs[p].to == 1 - p
    ensures Reaches(s, t) && t.log == s.log && Lonely(t, p) && t.procs == s.procs[p := s.procs[p].next]
  {
    t := Step(s, p);
    ReachesStep(s, p);
    OtherChannel(s, p, Edge(1 - p, p));
  }

  lemma LonelyEof(s: State, p: int) returns (t: State)
    requires Lonely(s, p) && s.procs[p].Recv? && s.procs[p].from == 1 - p && s.procs[p].size > 0
    ensures Reaches(s, t) && t.log == s.log && Lonely(t, p) && t.procs == s.procs[p := s.procs[p].onEof]
  {
    t := Step(s, p);
    ReachesStep(s, p);
  }

  ghost predicate Ended(f: State, codes: (int, int)) {
    Shape(f) && |f.procs| == 2 && f.procs[0] == Return(codes.0) && f.procs[1] == Return(codes.1)
  }

  lemma NothingUnderway(s: State, e: Edge)
    requires Payload(Chan(s, e)) == []
    ensures Chan(s, e) == []
  {
    assert |Payload(Chan(s, e))| == |Chan(s, e)|;
  }

  // What remains when a round is over and there is no other one for both.
  lemma RoundFinishes(s: State, server: Side, client: Side, r: nat, q: Pair, ending: Ending) returns (f: State)
    requires r < MAX_NUM_TIMEOUTS && Ends(server, client, r, q, ending) && ending != NextRound
    requires Is(s, q) && Met(s, r + 1) && InStep(s.log)
    ensures Reaches(s, f) && Ended(f, Outcomes(server, client, r)) && InStep(f.log)
  {
    hide Outcomes, Round, Met, InStep, Payload, Chan, Reaches;
    ReachesSelf(s);
    f := s;
    if ending == ServerAlone {
      NothingUnderway(s, Edge(1, 0));
      f := LonelyRound(s, 0, server, r);
    } else if ending == ClientAlone {
      NothingUnderway(s, Edge(0, 1));
      f := LonelyRound(s, 1, client, r);
    }
  }

  lemma NextFollows(s: State, server: Side, client: Side, r: nat, q: Pair)
    requires r < MAX_NUM_TIMEOUTS && Ends(server, client, r, q, NextRound) && Is(s, q)
    ensures r + 1 < MAX_NUM_TIMEOUTS && Is(s, Pair(Round(server, 1, r + 1), Round(client, 0, r + 1), [], []))
    ensures Outcomes(server, client, r) == Outcomes(server, client, r + 1)
  {
    hide Outcomes, Round, Is;
  }

  lemma StillMet(s: State, t: State, r: nat)
    requires Met(s, r) && Grows(s, t)
    ensures Met(t, r)
  {
  }

  lemma {:induction false} RoundRuns(s: State, server: Side, client: Side, r: nat) returns (f: State)
    requires Proper(server) && Proper(client) && r < MAX_NUM_TIMEOUTS
    requires Is(s, Pair(Round(server, 1, r), Round(client, 0, r), [], [])) && Met(s, r) && InStep(s.log)
    ensures Reaches(s, f) && Ended(f, Outcomes(server, client, r)) && InStep(f.log)
    decreases MAX_NUM_TIMEOUTS - r
  {
    hide Outcomes, Round, Met, InStep, Reaches, Is, Ends, Ended, Proper, Signed, Play, Leads;
    var a := RoundBegins(s, server, client, r);
    var q, ending := RoundEnds(server, client, r);
    var moves := PlayOf(Signed(server, client, r), q);
    var b := PlayIsRun(a, Signed(server, client, r), moves, q);
    ReachesTransitive(s, a, b);
    IsShaped(a, Signed(server, client, r));
    ReachesGrows(a, b);
    StillMet(a, b, r + 1);
    if ending == NextRound {
      NextFollows(b, server, client, r, q);
      f := RoundRuns(b, server, client, r + 1);
    } else {
      f := RoundFinishes(b, server, client, r, q, ending);
    }
    ReachesTransitive(s, b, f);
  }

  lemma IsShaped(s: State, p: Pair)
    requires Is(s, p)
    ensures Shape(s)
  {
  }

  lemma PlayOf(p: Pair, q: Pair) returns (moves: seq<bool>)
    requires Leads(p, q)
    ensures Play(p, moves) == Some(q)
  {
    moves :| Play(p, moves) == Some(q);
  }

  // At any time the two sides are in the same round or one of them is one round ahead.
  ghost predicate SameRound(log: set<Entry>) {
    forall x :: x in Stamps(log) && x.event.Entered? && x.event.call > 0 && x.task in {0, 1} ==>
      Stamp(1 - x.task, Entered(x.event.call - 1)) in Stamps(log)
  }

  lemma LogInStep(log: set<Entry>, all: set<Entry>)
    requires InStep(all) && log <= all && forall x :: x in log ==> x.past <= Stamps(log)
    ensures SameRound(log)
  {
  }

  lemma EndedIsStuck(f: State, codes: (int, int))
    requires Ended(f, codes)
    ensures Stuck(f)
  {
  }

  // What holds of a state reached by `steps` steps when every run takes `total` steps to f.
  ghost predicate OnTrack(t: State, steps: nat, total: nat, f: State) {
    steps <= total && Reaches(t, f) && SameRound(t.log) && (Stuck(t) ==> t == f && steps == total)
  }

  // Whatever the local results are and however the two sides interleave: every run is on its way to the
  // same pair of return codes, and the rounds stay in step.
  lemma EveryHandshake(server: Side, client: Side) returns (total: nat, f: State)
    requires Proper(server) && Proper(client)
    ensures Ended(f, Outcomes(server, client, 0))
    ensures forall sched, t :: Run(Start(server, client), sched) == Some(t) ==> OnTrack(t, |sched|, total, f)
  {
    hide Round, Outcomes, Step, Combine, Alone;
    var s := Start(server, client);
    f := RoundRuns(s, server, client, 0);
    EndedIsStuck(f, Outcomes(server, client, 0));
    var good :| Run(s, good) == Some(f);
    total := |good|;
    forall sched, t | Run(s, sched) == Some(t)
      ensures OnTrack(t, |sched|, total, f)
    {
      var rest := EveryRun(s, good, f, sched, t);
      LogInStep(t.log, f.log);
    }
  }

  // ----- what the return codes say

  // The server returns success just when the client does.
  lemma {:induction false} Agreement(server: Side, client: Side, r: nat)
    requires Proper(server) && Proper(client) && r < MAX_NUM_TIMEOUTS
    ensures Outcomes(server, client, r).0 == SUCCESS <==> Outcomes(server, client, r).1 == SUCCESS
    ensures Outcomes(server, client, r).0 != AGAIN && Outcomes(server, client, r).1 != AGAIN
    decreases MAX_NUM_TIMEOUTS - r
  {
    if r + 1 < MAX_NUM_TIMEOUTS { Agreement(server, client, r + 1); }
  }

  // All local results of a side are acceptance or the wish for another round.
  ghost predicate Patient(side: Side) {
    forall r :: side.prepare(r) == SUCCESS && |side.packet(r)| <= MAX_PACKET &&
        forall b :: side.check(r, b) in {SUCCESS, AGAIN}
  }

  ghost predicate Accepted(server: Side, client: Side, r: nat) {
    server.check(r, client.packet(r)) == SUCCESS && client.check(r, server.packet(r)) == SUCCESS
  }

  // Patient sides both succeed in the first round that both accept, if it is one of the three; otherwise both
  // abort after the third timeout.
  lemma {:induction false} PatientOutcome(server: Side, client: Side, r: nat)
    requires Patient(server) && Patient(client) && r < MAX_NUM_TIMEOUTS
    ensures Outcomes(server, client, r) ==
      if exists k: nat :: r <= k < MAX_NUM_TIMEOUTS && Accepted(server, client, k) then (SUCCESS, SUCCESS)
      else (ABORT, ABORT)
    decreases MAX_NUM_TIMEOUTS - r
  {
    if !Accepted(server, client, r) && r + 1 < MAX_NUM_TIMEOUTS { PatientOutcome(server, client, r + 1); }
  }

  // Both sides have prepared and shipped a packet the other one reads.
  ghost predicate Exchanged(server: Side, client: Side, r: nat) {
    server.prepare(r) >= 0 && client.prepare(r) >= 0 &&
    |server.packet(r)| <= MAX_PACKET && |client.packet(r)| <= MAX_PACKET
  }

  ghost predicate Fails(verdict: int) { verdict == INTERNAL_ERROR || verdict == DROP_CONNECTION || verdict == ABORT }

  // What a round comes to in which packets have been exchanged and somebody objects. Whoever objects returns its own
  // verdict. Whoever accepts is refused. Whoever wishes for another round finds nobody there, or has had its three.
  lemma RoundRefused(server: Side, client: Side, r: nat)
    requires r < MAX_NUM_TIMEOUTS && Exchanged(server, client, r)
    ensures var vs, vc, out := server.check(r, client.packet(r)), client.check(r, server.packet(r)),
                               Outcomes(server, client, r);
      ((Fails(vs) && Fails(vc) ==> out == (vs, vc)) &&
       (vs == SUCCESS && Fails(vc) ==> out == (CONNECTION_REFUSED, vc)) &&
       (Fails(vs) && vc == SUCCESS ==> out == (vs, CONNECTION_REFUSED)) &&
       (vs == AGAIN && Fails(vc) ==> out == (if r == 2 then ABORT else INTERNAL_ERROR, vc)) &&
       (Fails(vs) && vc == AGAIN ==> out == (vs, if r == 2 then ABORT else INTERNAL_ERROR)) &&
       (vs == SUCCESS && vc == SUCCESS ==> out == (SUCCESS, SUCCESS)))
  {
  }

  // A round after which both start over.
  ghost predicate Undecided(server: Side, client: Side, r: nat) {
    Exchanged(server, client, r) &&
    var vs, vc := server.check(r, client.packet(r)), client.check(r, server.packet(r));
    vs in {SUCCESS, AGAIN} && vc in {SUCCESS, AGAIN} && (vs == AGAIN || vc == AGAIN)
  }

  lemma {:induction false} StillUndecided(server: Side, client: Side, r: nat, k: nat)
    requires r + k < MAX_NUM_TIMEOUTS && forall i :: r <= i < r + k ==> Undecided(server, client, i)
    ensures Outcomes(server, client, r) == Outcomes(server, client, r + k)
    decreases k
  {
    if k > 0 {
      assert Undecided(server, client, r);
      StillUndecided(server, client, r + 1, k - 1);
    }
  }

  // Over all runs: if the first rounds leave both sides undecided and in round r, with packets exchanged, one of them
  // accepts and the other one objects, the first returns that it was refused and the second its own verdict.
  lemma EveryRefusal(server: Side, client: Side, r: nat) returns (f: State)
    requires Proper(server) && Proper(client) && r < MAX_NUM_TIMEOUTS && Exchanged(server, client, r)
    requires forall i :: 0 <= i < r ==> Undecided(server, client, i)
    ensures forall sched, t :: Run(Start(server, client), sched) == Some(t) && Stuck(t) ==> t == f
    ensures var vs, vc := server.check(r, client.packet(r)), client.check(r, server.packet(r));
      ((vs == SUCCESS && Fails(vc) ==> Ended(f, (CONNECTION_REFUSED, vc))) &&
       (Fails(vs) && vc == SUCCESS ==> Ended(f, (vs, CONNECTION_REFUSED))) &&
       (Fails(vs) && Fails(vc) ==> Ended(f, (vs, vc))))
  {
    hide Outcomes, Ended, Undecided, Exchanged, Stuck, Start, Proper, Run;
    var total;
    total, f := EveryHandshake(server, client);
    StillUndecided(server, client, 0, r);
    RoundRefused(server, client, r);
  }

  // Four bytes that are not the signature end a handshake at once.
  lemma OthersDropped(side: Side, peer: int, r: nat, d: Bytes)
    requires r < MAX_NUM_TIMEOUTS && |d| == INT_SIZE && DecodeUnsigned(d) != 0x845D_96C1
    ensures SigKont(side, peer, r)(d) == Done(Code(DROP_CONNECTION))
  {
    hide DecodeUnsigned;
  }
}
