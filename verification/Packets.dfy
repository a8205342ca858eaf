// What the two sides of a handshake seal and compare: the session, the user and both ends of the connection
// as each of them sees them. Sealing is taken as perfect: a packet that opens at all is the one that was
// sealed; a credential may have expired when it is opened.
module Packets {
  import opened Bytestream
  import opened Network
  import opened Handshake

  const SERVER_TO_CLIENT_SIG: int := 0x67AD_047E
  const CLIENT_TO_SERVER_SIG: int := 0x9B1C_C028

  // One side's view of the connection.
  datatype View = View(session: int, uid: int, gid: int, serverPort: int, clientPort: int, serverAddr: Bytes,
                       clientAddr: Bytes)
  datatype Packet = Packet(view: View, signature: int)

  function Signature(server: bool): (v: int) { if server then SERVER_TO_CLIENT_SIG else CLIENT_TO_SERVER_SIG }

  // compare_packets: a packet of another session is dropped, any other difference is a security error.
  function Compare(expected: Packet, received: Packet): (v: int) {
    if expected.view.session != received.view.session then DROP_CONNECTION
    else if expected.signature != received.signature then ABORT
    else if expected.view.serverPort != received.view.serverPort then ABORT
    else if expected.view.clientPort != received.view.clientPort then ABORT
    else if expected.view.uid != received.view.uid then ABORT
    else if expected.view.gid != received.view.gid then ABORT
    else if expected.view.serverAddr != received.view.serverAddr then ABORT
    else if expected.view.clientAddr != received.view.clientAddr then ABORT
    else SUCCESS
  }

  // Sealing, and opening in a round: the packet, or the news that the credential has expired.
  datatype Seal = Seal(seal: Packet -> Bytes, open: (nat, Bytes) -> Option<Packet>)

  ghost predicate Perfect(s: Seal) {
    (forall p :: |s.seal(p)| <= MAX_PACKET) &&
      forall p, r :: s.open(r, s.seal(p)) == None || s.open(r, s.seal(p)) == Some(p)
  }

  function Checker(s: Seal, server: bool, view: View): (f: (nat, Bytes) -> int) {
    (r: nat, b: Bytes) =>
      match s.open(r, b)
      case None => AGAIN
      case Some(p) => Compare(Packet(view, Signature(!server)), p)
  }

  // A side that runs the code as it is.
  function Honest(s: Seal, server: bool, view: View): (side: Side) {
    Side((r: nat) => SUCCESS, (r: nat) => s.seal(Packet(view, Signature(server))), Checker(s, server, view))
  }

  function VerdictOf(s: Seal, r: nat, server: bool, mine: View, theirs: View): (v: int) {
    Honest(s, server, mine).check(r, Honest(s, !server, theirs).packet(r))
  }

  // In this round neither of the two packets has expired.
  ghost predicate Opens(s: Seal, r: nat, server: View, client: View) {
    s.open(r, s.seal(Packet(server, SERVER_TO_CLIENT_SIG))).Some? &&
      s.open(r, s.seal(Packet(client, CLIENT_TO_SERVER_SIG))).Some?
  }

  lemma VerdictIs(s: Seal, r: nat, server: bool, mine: View, theirs: View)
    requires Perfect(s)
    ensures VerdictOf(s, r, server, mine, theirs) ==
      if s.open(r, s.seal(Packet(theirs, Signature(!server)))).None? then AGAIN
      else if mine == theirs then SUCCESS else if mine.session != theirs.session then DROP_CONNECTION else ABORT
  {
    var p := Packet(theirs, Signature(!server));
    assert s.open(r, s.seal(p)) == None || s.open(r, s.seal(p)) == Some(p);
  }

  lemma HonestIsProper(s: Seal, server: bool, view: View)
    requires Perfect(s)
    ensures Proper(Honest(s, server, view))
  {
    var side := Honest(s, server, view);
    forall r: nat, b: Bytes
      ensures side.check(r, b) in {SUCCESS, INTERNAL_ERROR, DROP_CONNECTION, ABORT, AGAIN}
    {
      match s.open(r, b) {
        case None => assert side.check(r, b) == AGAIN;
        case Some(p) => assert side.check(r, b) == Compare(Packet(view, Signature(!server)), p);
      }
    }
  }

  // The same view on both sides: both succeed in the first round in which both packets open, or both give up
  // after the third.
  lemma {:induction false} SameViews(s: Seal, view: View, r: nat)
    requires Perfect(s) && r < MAX_NUM_TIMEOUTS
    ensures Outcomes(Honest(s, true, view), Honest(s, false, view), r) ==
      if exists k: nat :: r <= k < MAX_NUM_TIMEOUTS && Opens(s, k, view, view) then (SUCCESS, SUCCESS)
      else (ABORT, ABORT)
    decreases MAX_NUM_TIMEOUTS - r
  {
    var server, client := Honest(s, true, view), Honest(s, false, view);
    VerdictIs(s, r, true, view, view);
    VerdictIs(s, r, false, view, view);
    assert server.check(r, client.packet(r)) == VerdictOf(s, r, true, view, view);
    assert client.check(r, server.packet(r)) == VerdictOf(s, r, false, view, view);
    if !Opens(s, r, view, view) && r + 1 < MAX_NUM_TIMEOUTS { SameViews(s, view, r + 1); }
  }

  // Different views: nobody succeeds, and if the packets of the first round open, both sides return the same code.
  lemma {:induction false} DifferentViews(s: Seal, mine: View, theirs: View, r: nat)
    requires Perfect(s) && r < MAX_NUM_TIMEOUTS && mine != theirs
    ensures var out := Outcomes(Honest(s, true, mine), Honest(s, false, theirs), r);
      out.0 != SUCCESS && out.1 != SUCCESS &&
      (Opens(s, r, mine, theirs) ==> out.0 == out.1 == if mine.session != theirs.session then DROP_CONNECTION
        else ABORT)
    decreases MAX_NUM_TIMEOUTS - r
  {
    var server, client := Honest(s, true, mine), Honest(s, false, theirs);
    VerdictIs(s, r, true, mine, theirs);
    VerdictIs(s, r, false, theirs, mine);
    assert server.check(r, client.packet(r)) == VerdictOf(s, r, true, mine, theirs);
    assert client.check(r, server.packet(r)) == VerdictOf(s, r, false, theirs, mine);
    if r + 1 < MAX_NUM_TIMEOUTS { DifferentViews(s, mine, theirs, r + 1); }
  }

  // In every run of two honest sides, however they interleave: they succeed, both of them, just if they agree on
  // the session, the user and both ends of the connection, and in one of three rounds both packets open.
  lemma HonestHandshake(s: Seal, server: View, client: View) returns (total: nat, f: State)
    requires Perfect(s)
    ensures Ended(f, Outcomes(Honest(s, true, server), Honest(s, false, client), 0))
    ensures forall sched, t :: Run(Start(Honest(s, true, server), Honest(s, false, client)), sched) == Some(t) ==>
      OnTrack(t, |sched|, total, f)
    ensures f.procs[0] == Return(SUCCESS) <==> f.procs[1] == Return(SUCCESS)
    ensures f.procs[0] == Return(SUCCESS) <==>
      server == client && exists k: nat :: k < MAX_NUM_TIMEOUTS && Opens(s, k, server, client)
  {
    HonestIsProper(s, true, server);
    HonestIsProper(s, false, client);
    total, f := EveryHandshake(Honest(s, true, server), Honest(s, false, client));
    if server == client {
      SameViews(s, server, 0);
    } else {
      DifferentViews(s, server, client, 0);
    }
  }
}
