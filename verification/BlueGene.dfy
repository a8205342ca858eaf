// Stopping and continuing a job on Blue Gene/L and /P: every request to the control system is answered by an
// acknowledgement, and every stop is reported by a notice of its own. In launch mode the job is still held by
// its launcher: the stops take effect, and are reported in any order, only when the launcher is released.
module BlueGene {
  import opened Network
  import opened Lmonp

  datatype Request = Attach(node: int) | Kill(node: int) | Continue(node: int, signal: int)
  datatype Reply = AttachAck(node: int) | KillAck(node: int) | SignalEncountered(node: int) | ContinueAck(node: int)

  const SIGCONT: int := 18

  function Attaches(ptab: seq<int>): (list: seq<Request>) { seq(|ptab|, i requires 0 <= i < |ptab| => Attach(ptab[i])) }
  function Kills(ptab: seq<int>): (list: seq<Request>) { seq(|ptab|, i requires 0 <= i < |ptab| => Kill(ptab[i])) }
  function Continues(ptab: seq<int>, signal: int): (list: seq<Request>) {
    seq(|ptab|, i requires 0 <= i < |ptab| => Continue(ptab[i], if signal == SIGCONT then 0 else signal))
  }
  function Notices(order: seq<int>): (list: seq<Reply>) {
    seq(|order|, i requires 0 <= i < |order| => SignalEncountered(order[i]))
  }
  function Ranks(ptab: seq<int>): (all: set<int>) { set i | 0 <= i < |ptab| :: ptab[i] }

  lemma OneMore(ptab: seq<int>, i: nat, signal: int)
    requires i < |ptab|
    ensures Attaches(ptab[..i + 1]) == Attaches(ptab[..i]) + [Attach(ptab[i])]
    ensures Kills(ptab[..i + 1]) == Kills(ptab[..i]) + [Kill(ptab[i])]
    ensures Continues(ptab[..i + 1], signal) == Continues(ptab[..i], signal) +
      [Continue(ptab[i], if signal == SIGCONT then 0 else signal)]
    ensures Ranks(ptab[..i + 1]) == Ranks(ptab[..i]) + {ptab[i]}
  {
    assert ptab[..i + 1] == ptab[..i] + [ptab[i]];
    assert forall x :: x in Ranks(ptab[..i + 1]) ==> x in Ranks(ptab[..i]) || x == ptab[i];
    assert forall k :: 0 <= k < i ==> ptab[..i + 1][k] == ptab[..i][k];
    assert ptab[..i + 1][i] in Ranks(ptab[..i + 1]);
    forall x | x in Ranks(ptab[..i])
      ensures x in Ranks(ptab[..i + 1])
    {
      var k :| 0 <= k < i && ptab[..i][k] == x;
      assert ptab[..i + 1][k] == x;
    }
  }

  lemma SameRanks(a: seq<int>, b: seq<int>)
    requires multiset(a) == multiset(b)
    ensures |a| == |b| && Ranks(a) == Ranks(b)
  {
    assert |a| == |multiset(a)| == |b|;
    assert forall x :: x in a <==> x in multiset(a);
    assert forall x :: x in b <==> x in multiset(b);
    assert forall x :: x in Ranks(a) <==> x in a;
    assert forall x :: x in Ranks(b) <==> x in b;
  }

  // A back-end daemon and the control system at the other end of its pipes.
  class Control {
    var requests: seq<Request>  // all that have been written
    var inbox: seq<Reply>       // replies that have not been read
    var held: bool              // the launcher has not been released
    var owed: seq<int>          // stops that will take effect on the release
    var stopped: set<int>       // the ranks that are stopped
    var allStopped: bool        // what the daemon believes

    constructor (launch: bool)
      ensures requests == [] && inbox == [] && held == launch && owed == [] && stopped == {} && !allStopped
    {
      requests, inbox, held, owed, stopped, allStopped := [], [], launch, [], {}, false;
    }

    method WriteOnFd(r: Request)
      modifies this
      ensures allStopped == old(allStopped) && held == old(held) && requests == old(requests) + [r]
      ensures match r
        case Attach(n) => inbox == old(inbox) + [AttachAck(n)] && owed == old(owed) && stopped == old(stopped)
        case Kill(n) =>
          inbox == old(inbox) + (if held then [KillAck(n)] else [KillAck(n), SignalEncountered(n)]) &&
          owed == (if held then old(owed) + [n] else old(owed)) &&
          stopped == (if held then old(stopped) else old(stopped) + {n})
        case Continue(n, _) =>
          inbox == old(inbox) + [ContinueAck(n)] && owed == old(owed) && stopped == old(stopped) - {n}
    {
      requests := requests + [r];
      match r {
        case Attach(n) => inbox := inbox + [AttachAck(n)];
        case Kill(n) =>
          if held {
            inbox, owed := inbox + [KillAck(n)], owed + [n];
          } else {
            inbox, stopped := inbox + [KillAck(n), SignalEncountered(n)], stopped + {n};
          }
        case Continue(n, _) => inbox, stopped := inbox + [ContinueAck(n)], stopped - {n};
      }
    }

    method ReadFromFd() returns (m: Option<Reply>)
      modifies this`inbox
      ensures old(inbox) == [] ==> m == None && inbox == []
      ensures old(inbox) != [] ==> m == Some(old(inbox)[0]) && inbox == old(inbox)[1..]
    {
      m := None;
      if inbox != [] { m, inbox := Some(inbox[0]), inbox[1..]; }
    }

    // The launcher is released: the stops take effect and are reported in some order.
    method Release(order: seq<int>)
      requires multiset(order) == multiset(owed)
      modifies this
      ensures requests == old(requests) && allStopped == old(allStopped) && !held && owed == []
      ensures inbox == old(inbox) + Notices(order) && stopped == old(stopped) + Ranks(order)
    {
      inbox, stopped, held, owed := inbox + Notices(order), stopped + Ranks(order), false, [];
    }

    method AttachOne(node: int) returns (rc: int)
      requires inbox == []
      modifies this
      ensures rc == LMON_OK && inbox == [] && requests == old(requests) + [Attach(node)]
      ensures owed == old(owed) && stopped == old(stopped) && allStopped == old(allStopped) && held == old(held)
    {
      WriteOnFd(Attach(node));
      var ack := ReadFromFd();
      if ack.None? || !ack.value.AttachAck? || ack.value.node != node { return LMON_EINVAL; }
      return LMON_OK;
    }

    // LMON_be_procctl_init_bg
    method InitBg(ptab: seq<int>, islaunch: bool) returns (rc: int)
      requires inbox == [] && owed == [] && held == islaunch
      modifies this
      ensures rc == LMON_OK && inbox == [] && held == islaunch &&
        requests == old(requests) + Attaches(ptab) + Kills(ptab)
      ensures islaunch ==> owed == ptab && stopped == old(stopped) && allStopped == old(allStopped)
      ensures !islaunch ==> owed == [] && stopped == old(stopped) + Ranks(ptab) && allStopped
    {
      assert ptab[..0] == [] && ptab[..|ptab|] == ptab;
      for i := 0 to |ptab|
        invariant inbox == [] && owed == [] && held == islaunch && stopped == old(stopped) &&
          allStopped == old(allStopped)
        invariant requests == old(requests) + Attaches(ptab[..i])
      {
        rc := AttachOne(ptab[i]);
        OneMore(ptab, i, 0);
        if rc != LMON_OK { return; }
      }
      if islaunch { rc := StopAllWoNotiReap(ptab); } else { rc := StopBg(ptab); }
    }

    // In launch mode: the stops are requested, the notices are left for later.
    method StopAllWoNotiReap(ptab: seq<int>) returns (rc: int)
      requires inbox == [] && held
      modifies this
      ensures rc == LMON_OK && inbox == [] && held && requests == old(requests) + Kills(ptab) &&
        owed == old(owed) + ptab
      ensures stopped == old(stopped) && allStopped == old(allStopped)
    {
      assert ptab[..0] == [] && ptab[..|ptab|] == ptab;
      for i := 0 to |ptab|
        invariant inbox == [] && held && stopped == old(stopped) && allStopped == old(allStopped)
        invariant requests == old(requests) + Kills(ptab[..i]) && owed == old(owed) + ptab[..i]
      {
        OneMore(ptab, i, 0);
        WriteOnFd(Kill(ptab[i]));
        var ack := ReadFromFd();
        if ack.None? || !ack.value.KillAck? { return LMON_EINVAL; }
        assert ptab[..i + 1] == ptab[..i] + [ptab[i]];
      }
      return LMON_OK;
    }

    // LMON_be_procctl_stop_bg: every stop is awaited.
    method StopBg(ptab: seq<int>) returns (rc: int)
      requires inbox == [] && !held
      modifies this
      ensures rc == LMON_OK && inbox == [] && !held && owed == old(owed) && requests == old(requests) + Kills(ptab)
      ensures stopped == old(stopped) + Ranks(ptab) && allStopped
    {
      assert ptab[..0] == [] && ptab[..|ptab|] == ptab;
      for i := 0 to |ptab|
        invariant inbox == [] && !held && owed == old(owed)
        invariant requests == old(requests) + Kills(ptab[..i]) && stopped == old(stopped) + Ranks(ptab[..i])
      {
        OneMore(ptab, i, 0);
        WriteOnFd(Kill(ptab[i]));
        var ack := ReadFromFd();
        if ack.None? || !ack.value.KillAck? { return LMON_EINVAL; }
        var notice := ReadFromFd();
        if notice.None? || !notice.value.SignalEncountered? { return LMON_EINVAL; }
      }
      allStopped := true;
      return LMON_OK;
    }

    // reap_stop_noti: as many notices as there are ranks, from whichever ranks they come. On any other reply, or
    // when there are fewer, the daemon does not take the ranks for stopped.
    method ReapStopNoti(ptab: seq<int>) returns (rc: int)
      modifies this`inbox, this`allStopped
      ensures rc == LMON_OK <==>
        |ptab| <= |old(inbox)| && forall i :: 0 <= i < |ptab| ==> old(inbox)[i].SignalEncountered?
      ensures rc == LMON_OK ==> inbox == old(inbox)[|ptab|..] && allStopped
      ensures rc != LMON_OK ==> allStopped == old(allStopped)
    {
      for i := 0 to |ptab|
        invariant i <= |old(inbox)| && inbox == old(inbox)[i..] && allStopped == old(allStopped)
        invariant forall k :: 0 <= k < i ==> old(inbox)[k].SignalEncountered?
      {
        var notice := ReadFromFd();
        if notice.None? || !notice.value.SignalEncountered? { return LMON_EINVAL; }
      }
      allStopped := true;
      return LMON_OK;
    }

    // LMON_be_procctl_initdone_bg
    method InitDoneBg(ptab: seq<int>, islaunch: bool, ghost order: seq<int>) returns (rc: int)
      requires islaunch ==> inbox == Notices(order) && |order| == |ptab|
      modifies this`inbox, this`allStopped
      ensures rc == LMON_OK
      ensures islaunch ==> inbox == [] && allStopped
      ensures !islaunch ==> inbox == old(inbox) && allStopped == old(allStopped)
    {
      rc := LMON_OK;
      if islaunch { rc := ReapStopNoti(ptab); }
    }

    // LMON_be_procctl_run_bg
    method RunBg(signum: int, ptab: seq<int>) returns (rc: int)
      requires inbox == [] && !held
      modifies this
      ensures rc == LMON_OK && inbox == [] && !held && owed == old(owed) && !allStopped
      ensures stopped == old(stopped) - Ranks(ptab)
      ensures requests == old(requests) + (if old(allStopped) then [] else Kills(ptab)) + Continues(ptab, signum)
    {
      if !allStopped {
        rc := StopBg(ptab);
        if rc != LMON_OK { return; }
      }
      ghost var before, sent := stopped, requests;
      assert ptab[..0] == [] && ptab[..|ptab|] == ptab;
      for i := 0 to |ptab|
        invariant inbox == [] && !held && owed == old(owed)
        invariant requests == sent + Continues(ptab[..i], signum) && stopped == before - Ranks(ptab[..i])
      {
        OneMore(ptab, i, signum);
        WriteOnFd(Continue(ptab[i], if signum == SIGCONT then 0 else signum));
        var ack := ReadFromFd();
        if ack.None? || !ack.value.ContinueAck? || ack.value.node != ptab[i] { return LMON_EINVAL; }
      }
      allStopped := false;
      return LMON_OK;
    }
  }

  // What a tool may ask for once the initialization is over.
  datatype Op = StopAll | RunAll(signal: int)

  // The requests for one such call, when the ranks are taken for stopped or not, and the ranks stopped after it.
  function AskedFor(ptab: seq<int>, stopped: bool, op: Op): (requests: seq<Request>) {
    match op
    case StopAll => Kills(ptab)
    case RunAll(signal) => (if stopped then [] else Kills(ptab)) + Continues(ptab, signal)
  }

  function StoppedBy(ptab: seq<int>, stopped: set<int>, op: Op): (after: set<int>) {
    if op.StopAll? then stopped + Ranks(ptab) else stopped - Ranks(ptab)
  }

  // ... and for a sequence of calls.
  function Asked(ptab: seq<int>, stopped: bool, ops: seq<Op>): (requests: seq<Request>)
    decreases |ops|
  {
    if ops == [] then [] else AskedFor(ptab, stopped, ops[0]) + Asked(ptab, ops[0].StopAll?, ops[1..])
  }

  function StoppedAfter(ptab: seq<int>, stopped: set<int>, ops: seq<Op>): (after: set<int>)
    decreases |ops|
  {
    if ops == [] then stopped else StoppedAfter(ptab, StoppedBy(ptab, stopped, ops[0]), ops[1..])
  }

  // The daemon takes its ranks for stopped only if all of them are, and if it has any, just then.
  ghost predicate Believes(c: Control, ptab: seq<int>)
    reads c
  {
    (c.allStopped ==> Ranks(ptab) <= c.stopped) && (ptab != [] && Ranks(ptab) <= c.stopped ==> c.allStopped)
  }

  method OperateOnce(c: Control, ptab: seq<int>, op: Op) returns (rc: int)
    requires c.inbox == [] && !c.held && Believes(c, ptab)
    modifies c
    ensures rc == LMON_OK && c.inbox == [] && !c.held && Believes(c, ptab) && c.owed == old(c.owed)
    ensures c.requests == old(c.requests) + AskedFor(ptab, old(c.allStopped), op)
    ensures c.stopped == StoppedBy(ptab, old(c.stopped), op) && c.allStopped == op.StopAll?
  {
    hide Kills, Continues;
    match op {
      case StopAll => rc := c.StopBg(ptab);
      case RunAll(signal) =>
        rc := c.RunBg(signal, ptab);
        if ptab != [] { assert ptab[0] in Ranks(ptab); }
    }
  }

  // Between any two calls, however many there have been, the daemon is right about its ranks.
  method Operate(c: Control, ptab: seq<int>, ops: seq<Op>) returns (rc: int)
    requires c.inbox == [] && !c.held && Believes(c, ptab)
    modifies c
    ensures rc == LMON_OK && c.inbox == [] && !c.held && Believes(c, ptab) && c.owed == old(c.owed)
    ensures c.requests == old(c.requests) + Asked(ptab, old(c.allStopped), ops)
    ensures c.stopped == StoppedAfter(ptab, old(c.stopped), ops)
  {
    hide AskedFor, StoppedBy, Believes;
    rc := LMON_OK;
    ghost var all, last := c.requests + Asked(ptab, c.allStopped, ops), StoppedAfter(ptab, c.stopped, ops);
    for i := 0 to |ops|
      invariant rc == LMON_OK && c.inbox == [] && !c.held && Believes(c, ptab) && c.owed == old(c.owed)
      invariant c.requests + Asked(ptab, c.allStopped, ops[i..]) == all
      invariant StoppedAfter(ptab, c.stopped, ops[i..]) == last
    {
      assert ops[i..][1..] == ops[i + 1..];
      ghost var asked, more := AskedFor(ptab, c.allStopped, ops[i]), Asked(ptab, ops[i].StopAll?, ops[i + 1..]);
      assert c.requests + (asked + more) == (c.requests + asked) + more;
      rc := OperateOnce(c, ptab, ops[i]);
    }
  }

  // From the initialization to its end and through any sequence of calls after it, in either mode, with the launcher
  // released in between and the notices coming in any order: every rank is attached and stopped by one request each,
  // every acknowledgement and every notice has been read, and the daemon is right about its ranks.
  method Synchronize(ptab: seq<int>, islaunch: bool, order: seq<int>, ops: seq<Op>)
    returns (c: Control, rc: int, early: bool)
    requires multiset(order) == multiset(ptab)
    ensures fresh(c) && rc == LMON_OK && c.inbox == [] && c.owed == [] && !c.held && early == !islaunch
    ensures c.requests == Attaches(ptab) + Kills(ptab) + Asked(ptab, true, ops) && Believes(c, ptab)
    ensures c.stopped == StoppedAfter(ptab, Ranks(ptab), ops)
  {
    hide Asked, StoppedAfter, Kills, Attaches, Notices;
    c := new Control(islaunch);
    rc := c.InitBg(ptab, islaunch);
    early := c.allStopped;
    SameRanks(order, ptab);
    if islaunch { c.Release(order); }
    rc := c.InitDoneBg(ptab, islaunch, order);
    assert c.allStopped && c.stopped == Ranks(ptab);
    rc := Operate(c, ptab, ops);
  }
}
