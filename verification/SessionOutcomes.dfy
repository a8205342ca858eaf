// What every party of a session returns, whatever fails, as a table over the configuration alone.
module SessionOutcomes {
  import opened Bytestream
  import opened CoboTree
  import opened Network
  import opened Collectives
  import opened TreeRuns
  import opened CollectiveRuns
  import opened BrokenRuns
  import opened Lmonp
  import opened Session
  import opened SessionRuns
  import HostTable
  import LocalRun
  import SessionSafety
  import SessionEnds

  // ----- the table

  // The daemons get all orders: the front end recognizes the master, holds a process table, and does not give up
  // before the last of its messages.
  ghost predicate Instructed(c: Config) { c.authorize(c.key) && c.febe != Refused && c.table.lmonLength > 0 }

  ghost predicate AllInit(c: Config) { forall q :: 0 <= q < c.n ==> c.init(q) == LMON_OK }
  ghost predicate AllSettle(c: Config) { forall q :: 0 <= q < c.n ==> c.settle(q) == LMON_OK }

  // A daemon returns the error of its own process control. Without one it exits if another daemon has failed
  // before; the master of daemons that get no orders reports a bad message.
  ghost function DaemonOutcome(c: Config, q: int): (o: Outcome) {
    if !Instructed(c) then Code(if q == 0 then LMON_EBDMSG else 1)
    else if c.init(q) != LMON_OK then Code(c.init(q))
    else if !AllInit(c) then Code(1)
    else if c.settle(q) != LMON_OK then Code(c.settle(q))
    else if !AllSettle(c) then Code(1)
    else Ending(c, q)
  }

  // The front end reports what it has found wrong itself, or else that its master is gone: as a system error while it
  // waits for the request to release the launcher, as a bad message when it waits for the daemons to be ready.
  ghost function FrontEndOutcome(c: Config): (o: Outcome) {
    if !c.authorize(c.key) then Code(LMON_ESYS)
    else if c.febe == Refused then Code(LMON_EINVAL)
    else if c.febe == NoCallback then Code(LMON_ENCLLB)
    else if c.table.lmonLength == 0 || !AllInit(c) then Code(LMON_ESYS)
    else if !AllSettle(c) then Code(LMON_EBDMSG)
    else FeEnding(c)
  }

  ghost predicate ReleaseDue(c: Config) { Instructed(c) && c.febe != NoCallback && AllInit(c) }

  ghost predicate AsTabled(f: State, c: Config) {
    |f.procs| == c.n + 1 && f.procs[c.n] == Done(FrontEndOutcome(c)) &&
    (forall q :: 0 <= q < c.n ==> f.procs[q] == Done(DaemonOutcome(c, q))) &&
    if ReleaseDue(c) then Stamp(c.n, LauncherReleased) in Stamps(f.log) else Unreleased(f.log)
  }

  // ----- steps of the master and the front end when one of them has returned

  // Whatever is under way between master and front end, nothing is among the daemons.
  ghost predicate Settled(r: State, s: State, n: nat) {
    Reaches(r, s) && Shape(s) && |s.procs| == n + 1 && UpQuiet(s, n) && DownQuiet(s, n)
  }

  lemma CalmIsSettled(r: State, s: State, n: nat)
    requires Calmly(r, s, n)
    ensures Settled(r, s, n) && forall e :: Chan(s, e) == []
  {
  }

  lemma SettledSize(r: State, s: State, n: nat)
    requires Settled(r, s, n)
    ensures |s.procs| == n + 1 && Shape(s) && UpQuiet(s, n) && DownQuiet(s, n)
  {
  }


  // The master writes to a front end that does not read.
  lemma MasterWrites(r: State, s: State, n: nat) returns (t: State)
    requires n >= 1 && Settled(r, s, n) && s.procs[0].Send? && s.procs[0].to == n
    ensures Settled(r, t, n) && t.procs == s.procs[0 := s.procs[0].next] && t.log == s.log
    ensures forall e :: e != Edge(0, n) ==> Chan(t, e) == Chan(s, e)
  {
    hide Reaches, Stamped;
    ParentsBefore(n);
    t := Step(s, 0);
    ReachesStep(s, 0);
    ReachesTransitive(r, s, t);
  }

  // Master or front end finds the other one gone.
  lemma FindsNobody(s: State, n: nat, p: int, from: int) returns (t: State)
    requires Shape(s) && n >= 1 && |s.procs| == n + 1 && ((p == 0 && from == n) || (p == n && from == 0))
    requires s.procs[p].Recv? && s.procs[p].from == from && s.procs[p].size > 0 && s.procs[from].Done?
    requires Chan(s, Edge(from, p)) == []
    ensures Reaches(s, t) && Shape(t) && t.procs == s.procs[p := s.procs[p].onEof] && t.log == s.log
    ensures SameChannels(s, t)
  {
    hide Reaches;
    t := Step(s, p);
    ReachesStep(s, p);
    assert t.chans == s.chans;
  }

  lemma MasterFindsNobody(r: State, s: State, n: nat) returns (t: State)
    requires n >= 1 && Settled(r, s, n) && s.procs[0].Recv? && s.procs[0].from == n && s.procs[0].size > 0
    requires s.procs[n].Done? && Chan(s, Edge(n, 0)) == []
    ensures Settled(r, t, n) && t.procs == s.procs[0 := s.procs[0].onEof] && t.log == s.log
  {
    hide Reaches, Parent, Chan;
    t := FindsNobody(s, n, 0, n);
    ReachesTransitive(r, s, t);
    StillQuiet(s, t, n);
  }

  // ----- slaves that wait for a master that is gone

  lemma SlaveIsWaiting(s: State, c: Config, q: int)
    requires 0 < q < c.n < |s.procs| && s.procs[q] == AtShare(c)(q)
    ensures Waits(s, c.n, q)
  {
    hide WalkParent, Start, EncodeInt, Kids, FanOut, Slice, ShareRm, TableMsg, TraceMode;
  }

  // The master has returned before it could share anything.
  lemma Deserted(r: State, s: State, c: Config, front: int) returns (f: State)
    requires c.n >= 1 && Settled(r, s, c.n) && s.procs[0] == Return(LMON_EBDMSG) && s.procs[c.n] == Return(front)
    requires forall q :: 0 < q < c.n ==> s.procs[q] == AtShare(c)(q)
    ensures Reaches(r, f) && f.log == s.log && Abandoned(f, c.n, front, LMON_EBDMSG)
  {
    hide Reaches, AtShare, Parent, UpQuiet, DownQuiet, Chan;
    forall q | 0 < q < c.n
      ensures Waits(s, c.n, q)
    {
      SlaveIsWaiting(s, c, q);
    }
    f := RootGone(s, c.n);
    ReachesTransitive(r, s, f);
    assert Gone(s, f, 0);
    forall q | 0 < q < c.n
      ensures f.procs[q] == EXIT
    {
      assert Gone(s, f, q) && Waits(s, c.n, q);
    }
  }

  lemma SlavesAtShare(s: State, c: Config)
    requires c.n < |s.procs| && forall q :: 0 < q < c.n ==> s.procs[q] == Gathered(c, q)([])
    ensures forall q :: 0 < q < c.n ==> s.procs[q] == AtShare(c)(q)
  {
    hide AtShare, Gathered;
    forall q | 0 < q < c.n
      ensures s.procs[q] == AtShare(c)(q)
    {
      SlaveGathered(c, q);
    }
  }

  // ----- the key is not recognized

  lemma MasterGathered(c: Config)
    ensures Gathered(c, 0)(Concat(c.hosts)) == Send(c.n, HostsMsg(c), BeTable(c))
  {
    hide HostTable.Message, HostTable.Names, Concat;
  }

  // The front end returns at once, the master's host names reach nobody, and its daemons are left alone.
  lemma UnknownRun(c: Config) returns (f: State)
    requires WellFormed(c) && !c.authorize(c.key)
    ensures Reaches(Init(c), f) && f.log == {} && Abandoned(f, c.n, LMON_ESYS, LMON_EBDMSG)
  {
    hide WellFormed, HostsMsg, Calm, Calmly, Gathered, Init, Concat, AtShare, Settled, Reaches, FeKeys, Abandoned,
         TableKont;
    Owed(c);
    var s, n := Init(c), c.n;
    var a := GreetingRun(c);
    Recognized(c);
    CalmAfter(s, a, n);
    CalmIsSettled(s, a, n);
    SlavesAtShare(a, c);
    MasterGathered(c);
    var b := MasterWrites(s, a, n);
    SettledSize(s, b, n);
    var d := MasterFindsNobody(s, b, n);
    SettledSize(s, d, n);
    f := Deserted(s, d, c, LMON_ESYS);
  }

  // ----- the front end cannot pack its user data

  // The master has the table, the mode and the resource manager, but no word on the user data.
  lemma RefusedRun(c: Config) returns (f: State)
    requires WellFormed(c) && c.authorize(c.key) && c.febe == Refused && c.table.lmonLength > 0
    ensures Reaches(Init(c), f) && f.log == {} && Abandoned(f, c.n, LMON_EINVAL, LMON_EBDMSG)
  {
    hide WellFormed, AwaitHosts, HostsMsg, TableMsg, OrdersNext, BeTable, Calm, Calmly, Gathered, Init, Concat, AtShare,
         Settled, Reaches, FeKeys, FeUsrData, Abandoned, UsrKont, ModeKont;
    Owed(c);
    var s, n := Init(c), c.n;
    var a := GreetingRun(c);
    Recognized(c);
    CalmAfter(s, a, n);
    SlavesAtShare(a, c);
    var b := HostsRun(a, c);
    CalmlyThen(s, a, b, n);
    CalmAfter(s, b, n);
    var d := TableRun(b, c);
    CalmlyThen(s, b, d, n);
    CalmAfter(s, d, n);
    var e := ModeRun(d, c);
    CalmlyThen(s, d, e, n);
    CalmAfter(s, e, n);
    CalmIsSettled(s, e, n);
    RefusedNext(c);
    var g := MasterFindsNobody(s, e, n);
    SettledSize(s, g, n);
    f := Deserted(s, g, c, LMON_EINVAL);
  }

  // ----- some daemon cannot initialize process control

  // The daemons before m that can have announced that they have.
  ghost predicate SomeReady(r: State, s: State, t: State, c: Config, m: int) {
    Settled(r, t, c.n) && |s.procs| == c.n + 1 && t.procs[c.n] == s.procs[c.n] && Unreleased(t.log) &&
    (forall e :: Chan(t, e) == Chan(s, e)) &&
    (forall q :: 0 <= q < m && q < c.n ==> t.procs[q] == AtBarrier(c)(q)) &&
    forall q :: 0 <= m <= q < c.n ==> t.procs[q] == s.procs[q]
  }

  function AtBarrier(c: Config): (f: int -> Proc) {
    q => if c.init(q) == LMON_OK then Barrier(c.n, q, AskForLauncher(c, q, Learned(c, q))) else Return(c.init(q))
  }

  lemma AnnouncesAlone(r: State, t: State, n: nat, m: int) returns (u: State)
    requires Settled(r, t, n) && 0 <= m < n && t.procs[m].Mark? && t.procs[m].event == ControlReady
    ensures Settled(r, u, n) && u.procs == t.procs[m := t.procs[m].after] && (Unreleased(t.log) ==> Unreleased(u.log))
    ensures forall e :: Chan(u, e) == Chan(t, e)
  {
    hide Reaches, Parent;
    u := Step(t, m);
    ReachesStep(t, m);
    ReachesTransitive(r, t, u);
    MarkWritesNothing(t, m);
  }

  lemma ReadyOne(r: State, s: State, t: State, c: Config, m: nat) returns (u: State)
    requires SomeReady(r, s, t, c, m) && m < c.n && s.procs[m] == AtInit(c)(m)
    ensures SomeReady(r, s, u, c, m + 1)
  {
    hide Reaches, Barrier, AtInit, Settled, Unreleased, Learned, Chan, AskForLauncher;
    ControlAt(c, m);
    SettledSize(r, t, c.n);
    assert t.procs[m] == AtInit(c)(m);
    u := t;
    if c.init(m) == LMON_OK {
      u := AnnouncesAlone(r, t, c.n, m);
      assert u.procs[m] == AtBarrier(c)(m);
    } else {
      assert u.procs[m] == AtBarrier(c)(m);
    }
    SettledSize(r, u, c.n);
  }

  lemma {:induction false} ReadyRun(r: State, s: State, c: Config, m: nat) returns (t: State)
    requires Settled(r, s, c.n) && Unreleased(s.log) && m <= c.n &&
      forall q :: 0 <= q < c.n ==> s.procs[q] == AtInit(c)(q)
    ensures SomeReady(r, s, t, c, m)
    decreases m
  {
    hide AtInit, AtBarrier;
    if m == 0 {
      t := s;
    } else {
      var u := ReadyRun(r, s, c, m - 1);
      t := ReadyOne(r, s, u, c, m - 1);
    }
  }

  // ----- a barrier breaks

  // All daemons have returned, and the front end has not moved.
  ghost predicate Broken(s: State, t: State, n: nat, ks: seq<Kont>) {
    Reaches(s, t) && Shape(t) && |s.procs| == |t.procs| == n + 1 && t.log == s.log && t.procs[n] == s.procs[n] &&
    Chan(t, Edge(0, n)) == Chan(s, Edge(0, n)) &&
    forall q :: 0 <= q < n ==> t.procs[q] == if s.procs[q].Done? then s.procs[q] else Done(Code(1))
  }

  lemma Breaks(r: State, s: State, n: nat, ks: seq<Kont>, z: int) returns (t: State)
    requires Settled(r, s, n) && |ks| == n && 0 <= z < n && s.procs[z].Done?
    requires forall q :: 0 <= q < n ==> s.procs[q].Done? || s.procs[q] == Barrier(n, q, ks[q])
    ensures Broken(s, t, n, ks)
  {
    hide Reaches, Parent, Chan, Barrier, UpQuiet, DownQuiet;
    SettledSize(r, s, n);
    t := BarrierBreaks(s, n, ks, z);
  }

  // A front end that awaits word from the daemons finds them gone.
  lemma HearsOfIt(s: State, n: nat, front: int) returns (t: State)
    requires Shape(s) && n >= 1 && |s.procs| == n + 1 && (forall q :: 0 <= q < n ==> s.procs[q].Done?)
    requires s.procs[n] == Return(front) ||
      (s.procs[n].Recv? && s.procs[n].from == 0 && s.procs[n].size > 0 && s.procs[n].onEof == Return(front) &&
       Chan(s, Edge(0, n)) == [])
    ensures Reaches(s, t) && t.procs == s.procs[n := Return(front)] && t.log == s.log
  {
    hide Reaches, Chan;
    if s.procs[n].Recv? {
      t := FindsNobody(s, n, n, 0);
    } else {
      ReachesSelf(s);
      t := s;
    }
  }

  // All daemons have the orders.
  lemma InstructedRun(c: Config) returns (t: State)
    requires WellFormed(c) && Instructed(c)
    ensures Calmly(Init(c), t, c.n) && Daemons(t, c.n, AtInit(c)) && t.procs[c.n] == Ordered(c) && t.log == {}
  {
    hide WellFormed, Init, Ordered, Calm, Calmly, AtShare, AtInit;
    var s, n := Init(c), c.n;
    var a := OpeningRun(c);
    CalmAfter(s, a, n);
    t := ShareRun(a, c);
    CalmlyThen(s, a, t, n);
  }

  // Those that can have entered the barrier before the release.
  lemma EnterRun(c: Config) returns (t: State)
    requires WellFormed(c) && Instructed(c)
    ensures Settled(Init(c), t, c.n) && t.procs[c.n] == Ordered(c) && Chan(t, Edge(0, c.n)) == [] && Unreleased(t.log)
    ensures forall q :: 0 <= q < c.n ==> t.procs[q] == AtBarrier(c)(q)
  {
    hide WellFormed, Init, Ordered, Calm, Calmly, Settled, AtInit, Chan, AtBarrier;
    var s := InstructedRun(c);
    CalmIsSettled(Init(c), s, c.n);
    SettledSize(Init(c), s, c.n);
    t := ReadyRun(Init(c), s, c, c.n);
    SettledSize(Init(c), t, c.n);
  }

  // Nobody leaves that barrier.
  lemma EntryBreaks(c: Config, d: State, z: int) returns (e: State)
    requires Settled(Init(c), d, c.n) && 0 <= z < c.n && c.init(z) != LMON_OK
    requires forall q :: 0 <= q < c.n ==> d.procs[q] == AtBarrier(c)(q)
    ensures Reaches(d, e) && Shape(e) && |e.procs| == c.n + 1 == |d.procs| && e.log == d.log
    ensures e.procs[c.n] == d.procs[c.n] && Chan(e, Edge(0, c.n)) == Chan(d, Edge(0, c.n))
    ensures forall q :: 0 <= q < c.n ==> e.procs[q] == Return(if c.init(q) != LMON_OK then c.init(q) else 1)
  {
    hide Init, Settled, Chan, Reaches, Barrier, AtBarrier, Learned, AskForLauncher;
    var n := c.n;
    SettledSize(Init(c), d, n);
    var ks := seq(n, q requires 0 <= q < n => AskForLauncher(c, q, Learned(c, q)));
    forall q | 0 <= q < n
      ensures d.procs[q] == if c.init(q) == LMON_OK then Barrier(n, q, ks[q]) else Return(c.init(q))
      ensures c.init(q) == LMON_OK ==> !d.procs[q].Done?
    {
      BarrierAt(c, q);
      if c.init(q) == LMON_OK { BarrierIsNotDone(n, q, ks[q]); }
    }
    e := Breaks(Init(c), d, n, ks, z);
  }

  lemma InitFails(c: Config, z: int) returns (f: State)
    requires WellFormed(c) && Instructed(c) && 0 <= z < c.n && c.init(z) != LMON_OK
    ensures Reaches(Init(c), f) && AsTabled(f, c)
  {
    hide WellFormed, Init, Ordered, Settled, Chan, Reaches, Unreleased, AtBarrier, Instructed, HostsMsg, ContKont,
         AsTabled;
    var n := c.n;
    var d := EnterRun(c);
    SettledReaches(Init(c), d, n);
    var e := EntryBreaks(c, d, z);
    OrderedIs(c);
    f := HearsOfIt(e, n, if c.febe == NoCallback then LMON_ENCLLB else LMON_ESYS);
    ReachesTransitive(Init(c), d, e);
    ReachesTransitive(Init(c), e, f);
    InitTabled(c, e, f, z);
  }

  lemma InitTabled(c: Config, e: State, f: State, z: int)
    requires Instructed(c) && 0 <= z < c.n && c.init(z) != LMON_OK && |e.procs| == c.n + 1 && Unreleased(f.log)
    requires f.procs == e.procs[c.n := Return(if c.febe == NoCallback then LMON_ENCLLB else LMON_ESYS)]
    requires forall q :: 0 <= q < c.n ==> e.procs[q] == Return(if c.init(q) != LMON_OK then c.init(q) else 1)
    ensures AsTabled(f, c)
  {
    assert !AllInit(c);
  }

  lemma SettledReaches(r: State, s: State, n: nat)
    requires Settled(r, s, n)
    ensures Reaches(r, s)
  {
  }

  lemma BarrierAt(c: Config, q: int)
    ensures AtBarrier(c)(q) ==
      if c.init(q) == LMON_OK then Barrier(c.n, q, AskForLauncher(c, q, Learned(c, q))) else Return(c.init(q))
  {
    hide Barrier, Learned, AskForLauncher;
  }

  lemma BarrierIsNotDone(n: nat, q: int, k: Kont)
    requires 0 <= q < n && n >= 2
    ensures !Barrier(n, q, k).Done?
  {
    hide Bcast, Mid;
    assert q == 0 ==> |Kids(n, q)| > 0;
  }

  // ----- all daemons have initialized process control

  // Where the front end stands after the release of the launcher, if it is still there.
  ghost predicate FrontEndOn(c: Config, t: State) {
    |t.procs| == c.n + 1 &&
    if c.febe == NoCallback then t.procs[c.n] == Return(LMON_ENCLLB) && Unreleased(t.log)
    else
      t.procs[c.n] == AwaitReady(c, HostsMsg(c)) && Chan(t, Edge(0, c.n)) == [] &&
      Stamp(c.n, LauncherReleased) in Stamps(t.log)
  }

  lemma NothingReleased()
    ensures Unreleased({})
  {
  }

  // The master has asked for the launcher.
  lemma SettlingRun(c: Config) returns (t: State)
    requires WellFormed(c) && Instructed(c) && AllInit(c)
    ensures Settled(Init(c), t, c.n) && Daemons(t, c.n, AtSettle(c)) && FrontEndOn(c, t)
  {
    hide WellFormed, Init, Ordered, Calm, Calmly, Settled, AtInit, AtControl, AtRelease, AtSettle, Chan, HostsMsg,
         ContKont, AwaitReady, Stamps, Unreleased, Daemons, ContMsg, AllReady;
    Owed(c);
    var s, n := Init(c), c.n;
    var a := InstructedRun(c);
    CalmAfter(s, a, n);
    Controls(a, c);
    NothingReleased();
    var b := ControlRun(a, c);
    CalmlyThen(s, a, b, n);
    CalmAfter(s, b, n);
    OrderedIs(c);
    if c.febe == NoCallback {
      CalmIsSettled(s, b, n);
      t := AsksNobody(c, s, b);
    } else {
      t := ReleaseRun(b, c);
      CalmlyThen(s, b, t, n);
      CalmIsSettled(s, t, n);
      CalmAfter(s, t, n);
    }
  }

  // The front end has returned: the master's request reaches nobody.
  lemma AsksNobody(c: Config, r: State, s: State) returns (t: State)
    requires c.n >= 1 && Settled(r, s, c.n) && Daemons(s, c.n, AtRelease(c))
    ensures Settled(r, t, c.n) && Daemons(t, c.n, AtSettle(c)) && t.log == s.log
    ensures |t.procs| == |s.procs| == c.n + 1 && t.procs[c.n] == s.procs[c.n]
  {
    hide Settled, AtRelease, AtSettle, ContMsg, Chan;
    MasterAsks(c);
    SettledSize(r, s, c.n);
    assert s.procs[0] == AtRelease(c)(0);
    t := MasterWrites(r, s, c.n);
    SettledSize(r, t, c.n);
  }

  // ----- some daemon fails in its closing process-control calls

  lemma SettleAt(c: Config, q: int)
    ensures AtSettle(c)(q) == if c.settle(q) == LMON_OK then AtSynced(c)(q) else Return(c.settle(q))
    ensures AtSynced(c)(q) == Barrier(c.n, q, BeReady(c, q, Learned(c, q)))
  {
    hide Barrier, Learned, BeReady;
  }

  // Nobody leaves the barrier before the ready message.
  lemma SettlingBreaks(c: Config, d: State, z: int) returns (e: State)
    requires Settled(Init(c), d, c.n) && 0 <= z < c.n && c.settle(z) != LMON_OK && Daemons(d, c.n, AtSettle(c))
    ensures Reaches(d, e) && Shape(e) && |e.procs| == c.n + 1 == |d.procs| && e.log == d.log
    ensures e.procs[c.n] == d.procs[c.n] && Chan(e, Edge(0, c.n)) == Chan(d, Edge(0, c.n))
    ensures forall q :: 0 <= q < c.n ==> e.procs[q] == Return(if c.settle(q) != LMON_OK then c.settle(q) else 1)
  {
    hide Init, Settled, Chan, Reaches, Barrier, AtSettle, AtSynced, Learned, BeReady;
    var n := c.n;
    SettledSize(Init(c), d, n);
    var ks := seq(n, q requires 0 <= q < n => BeReady(c, q, Learned(c, q)));
    forall q | 0 <= q < n
      ensures d.procs[q] == if c.settle(q) == LMON_OK then Barrier(n, q, ks[q]) else Return(c.settle(q))
      ensures c.settle(q) == LMON_OK ==> !d.procs[q].Done?
    {
      SettleAt(c, q);
      if c.settle(q) == LMON_OK { BarrierIsNotDone(n, q, ks[q]); }
    }
    e := Breaks(Init(c), d, n, ks, z);
  }

  lemma SettleFails(c: Config, z: int) returns (f: State)
    requires WellFormed(c) && Instructed(c) && AllInit(c) && 0 <= z < c.n && c.settle(z) != LMON_OK
    ensures Reaches(Init(c), f) && AsTabled(f, c)
  {
    hide WellFormed, Init, Settled, Chan, Reaches, Unreleased, AtSettle, Instructed, HostsMsg, ReadyKont, AsTabled,
         Stamps, Daemons, AllInit;
    var n := c.n;
    var d := SettlingRun(c);
    SettledReaches(Init(c), d, n);
    var e := SettlingBreaks(c, d, z);
    f := HearsOfIt(e, n, if c.febe == NoCallback then LMON_ENCLLB else LMON_EBDMSG);
    ReachesTransitive(Init(c), d, e);
    ReachesTransitive(Init(c), e, f);
    SettleTabled(c, e, f, z);
  }

  lemma SettleTabled(c: Config, e: State, f: State, z: int)
    requires Instructed(c) && AllInit(c) && 0 <= z < c.n && c.settle(z) != LMON_OK && |e.procs| == c.n + 1
    requires if c.febe == NoCallback then Unreleased(f.log) else Stamp(c.n, LauncherReleased) in Stamps(f.log)
    requires f.procs == e.procs[c.n := Return(if c.febe == NoCallback then LMON_ENCLLB else LMON_EBDMSG)]
    requires forall q :: 0 <= q < c.n ==> e.procs[q] == Return(if c.settle(q) != LMON_OK then c.settle(q) else 1)
    ensures AsTabled(f, c)
  {
    hide Stamps;
    assert !AllSettle(c);
  }

  // ----- nothing fails

  lemma CompleteIsTabled(c: Config, f: State)
    requires Complete(f, c) && Instructed(c) && AllInit(c) && AllSettle(c) && c.febe != NoCallback
    ensures AsTabled(f, c)
  {
    hide Stamps, Ending, FeEnding;
  }

  // The daemons pass a barrier beside a front end that has returned.
  lemma PassesBarrier(r: State, s: State, n: nat, ks: seq<Kont>) returns (t: State)
    requires n >= 1 && Settled(r, s, n) && |ks| == n && forall q :: 0 <= q < n ==> s.procs[q] == Barrier(n, q, ks[q])
    ensures Settled(r, t, n) && t.log == s.log && |t.procs| == |s.procs| == n + 1 && t.procs[n] == s.procs[n]
    ensures forall q :: 0 <= q < n ==> t.procs[q] == ks[q]([])
  {
    hide Reaches, Barrier, Parent, Chan;
    t := BarrierRuns(s, n, ks);
    ReachesTransitive(r, s, t);
    StillQuiet(s, t, n);
  }

  lemma SyncedAlone(c: Config, r: State, s: State) returns (t: State)
    requires c.n >= 1 && Settled(r, s, c.n) && Daemons(s, c.n, AtSynced(c))
    ensures Settled(r, t, c.n) && Daemons(t, c.n, AtEnd(c)) && t.log == s.log
    ensures |t.procs| == |s.procs| == c.n + 1 && t.procs[c.n] == s.procs[c.n]
  {
    hide Settled, Barrier, BeReady, AtEnd, Learned, Chan, ReadyMsg;
    var n := c.n;
    var a := PassesBarrier(r, s, n, seq(n, q requires 0 <= q < n => BeReady(c, q, Learned(c, q))));
    MasterReports(c);
    assert a.procs[0] == AtReady(c)(0);
    t := MasterWrites(r, a, n);
    SettledSize(r, t, n);
    forall q | 0 <= q < n
      ensures t.procs[q] == AtEnd(c)(q)
    {
      if q > 0 { assert a.procs[q] == AtReady(c)(q); }
    }
  }

  lemma EndAlone(c: Config, r: State, s: State) returns (t: State)
    requires c.n >= 1 && Settled(r, s, c.n) && Daemons(s, c.n, AtEnd(c))
    ensures Settled(r, t, c.n) && Daemons(t, c.n, AtDone(c)) && t.log == s.log
    ensures |t.procs| == |s.procs| == c.n + 1 && t.procs[c.n] == s.procs[c.n]
  {
    hide Settled, Barrier, TraceMode, TableMsg, Usr, EncodeInt;
    var n := c.n;
    t := PassesBarrier(r, s, n, seq(n, q requires 0 <= q < n => BeFinish(Learned(c, q))));
  }

  // The daemons succeed without the front end, whose caller has given user data but no function to pack it.
  lemma AloneRun(c: Config) returns (f: State)
    requires WellFormed(c) && Instructed(c) && AllInit(c) && AllSettle(c) && c.febe == NoCallback
    ensures Reaches(Init(c), f) && AsTabled(f, c)
  {
    hide WellFormed, Init, Settled, Chan, Reaches, Unreleased, AtSettle, AtSynced, AtEnd, AtDone, Instructed, HostsMsg,
         AsTabled, Stamps, Daemons, AwaitReady;
    Owed(c);
    var s := Init(c);
    var a := SettlingRun(c);
    Settles(a, c);
    var b := SyncedAlone(c, s, a);
    f := EndAlone(c, s, b);
    SettledReaches(s, f, c.n);
    AloneTabled(c, f);
  }

  lemma AloneTabled(c: Config, f: State)
    requires Instructed(c) && AllInit(c) && AllSettle(c) && c.febe == NoCallback && |f.procs| == c.n + 1
    requires Daemons(f, c.n, AtDone(c)) && f.procs[c.n] == Return(LMON_ENCLLB) && Unreleased(f.log)
    ensures AsTabled(f, c)
  {
    hide Ending;
  }

  lemma AbandonedTabled(c: Config, f: State)
    requires WellFormed(c) && !Instructed(c) && f.log == {}
    requires Abandoned(f, c.n, if !c.authorize(c.key) then LMON_ESYS else if c.febe == Refused then LMON_EINVAL
                               else AwayCode(c), LMON_EBDMSG)
    ensures AsTabled(f, c)
  {
    hide WellFormed;
    TableLength(c);
  }

  // One schedule of any session.
  lemma TabledRun(c: Config) returns (f: State)
    requires WellFormed(c)
    ensures Reaches(Init(c), f) && AsTabled(f, c)
  {
    hide WellFormed, Init, Reaches, AsTabled, Abandoned, Complete, Safe, Stuck, AwayCode;
    TableLength(c);
    if !c.authorize(c.key) {
      f := UnknownRun(c);
      AbandonedTabled(c, f);
    } else if c.table.lmonLength == 0 {
      f := TurnedAwayRun(c);
      AwayIs(c);
      AbandonedTabled(c, f);
    } else if c.febe == Refused {
      f := RefusedRun(c);
      AbandonedTabled(c, f);
    } else if !AllInit(c) {
      var z :| 0 <= z < c.n && c.init(z) != LMON_OK;
      f := InitFails(c, z);
    } else if !AllSettle(c) {
      var z :| 0 <= z < c.n && c.settle(z) != LMON_OK;
      f := SettleFails(c, z);
    } else if c.febe == NoCallback {
      f := AloneRun(c);
    } else {
      f := FortunateRun(c);
      CompleteIsTabled(c, f);
    }
  }

  lemma AwayIs(c: Config)
    ensures c.febe == Refused ==> AwayCode(c) == LMON_EINVAL
  {
  }

  // ----- every run

  lemma TabledIsStuck(f: State, c: Config)
    requires AsTabled(f, c)
    ensures Stuck(f)
  {
    hide DaemonOutcome, FrontEndOutcome, Stamps;
  }

  // Whatever fails and however the parties interleave, every run of a session is on its way to the one end in which
  // each party has returned what the table says, and the launcher has been released just if that is due.
  lemma EveryOutcome(c: Config) returns (total: nat, f: State)
    requires WellFormed(c)
    ensures AsTabled(f, c)
    ensures forall sched, t :: Run(Init(c), sched) == Some(t) ==> SessionEnds.OnItsWay(t, |sched|, c, total, f)
  {
    hide WellFormed, Init, AsTabled, Stuck, SessionSafety.ReleasedSafely, Run, AllReturned;
    total, f := SessionEnds.EveryEnding(c);
    var g := TabledRun(c);
    TabledIsStuck(g, c);
    var good :| Run(Init(c), good) == Some(g);
    assert SessionEnds.OnItsWay(g, |good|, c, total, f);
  }

  // ----- what that means for each way to fail

  // Every run that can go no further has come to f.
  ghost predicate TheEnd(c: Config, f: State) {
    |f.procs| == c.n + 1 && forall sched, t :: Run(Init(c), sched) == Some(t) && Stuck(t) ==> t == f
  }

  lemma OneEnd(c: Config) returns (f: State)
    requires WellFormed(c)
    ensures TheEnd(c, f) && AsTabled(f, c)
  {
    hide WellFormed, Init, AsTabled, Stuck, SessionSafety.ReleasedSafely, Run;
    var total;
    total, f := EveryOutcome(c);
    TabledSize(f, c);
    forall sched, t | Run(Init(c), sched) == Some(t) && Stuck(t)
      ensures t == f
    {
      assert SessionEnds.OnItsWay(t, |sched|, c, total, f);
    }
  }

  lemma TabledSize(f: State, c: Config)
    requires AsTabled(f, c)
    ensures |f.procs| == c.n + 1
  {
  }

  // A front end that gives up over its callbacks says why, whatever its daemons do.
  lemma FrontEndFails(c: Config) returns (f: State)
    requires WellFormed(c) && c.authorize(c.key) && (c.febe == Refused || c.febe == NoCallback)
    ensures TheEnd(c, f) && Unreleased(f.log)
    ensures f.procs[c.n] == Done(Code(if c.febe == Refused then LMON_EINVAL else LMON_ENCLLB))
  {
    hide WellFormed, TheEnd, DaemonOutcome;
    f := OneEnd(c);
    TabledSize(f, c);
  }

  // Without a process table, or without user data that can be packed, the daemons get no further than the orders.
  lemma NoOrders(c: Config) returns (f: State)
    requires WellFormed(c) && (!c.authorize(c.key) || c.febe == Refused || c.table.lmonLength == 0)
    ensures TheEnd(c, f) && Unreleased(f.log) && f.procs[0] == Done(Code(LMON_EBDMSG))
    ensures forall q :: 0 < q < c.n ==> f.procs[q] == Done(Code(1))
    ensures c.authorize(c.key) && (c.febe == NoData || c.febe.Packed?) ==> f.procs[c.n] == Done(Code(LMON_ESYS))
  {
    hide WellFormed, TheEnd;
    Owed(c);
    f := OneEnd(c);
    TabledSize(f, c);
    assert f.procs[0] == Done(DaemonOutcome(c, 0));
  }

  // Some daemon cannot initialize process control.
  lemma InitFailure(c: Config, z: int) returns (f: State)
    requires WellFormed(c) && Instructed(c) && 0 <= z < c.n && c.init(z) != LMON_OK
    ensures TheEnd(c, f) && Unreleased(f.log)
    ensures forall q :: 0 <= q < c.n ==> f.procs[q] == Done(Code(if c.init(q) != LMON_OK then c.init(q) else 1))
    ensures f.procs[c.n] == Done(Code(if c.febe == NoCallback then LMON_ENCLLB else LMON_ESYS))
  {
    hide WellFormed, TheEnd;
    f := OneEnd(c);
    TabledSize(f, c);
    assert !AllInit(c);
  }

  // All can, and some daemon fails after the request to release the launcher.
  lemma SettleFailure(c: Config, z: int) returns (f: State)
    requires WellFormed(c) && Instructed(c) && AllInit(c) && 0 <= z < c.n && c.settle(z) != LMON_OK
    ensures TheEnd(c, f)
    ensures forall q :: 0 <= q < c.n ==> f.procs[q] == Done(Code(if c.settle(q) != LMON_OK then c.settle(q) else 1))
    ensures f.procs[c.n] == Done(Code(if c.febe == NoCallback then LMON_ENCLLB else LMON_EBDMSG))
    ensures Stamp(c.n, LauncherReleased) in Stamps(f.log) <==> c.febe != NoCallback
  {
    hide WellFormed, TheEnd, Stamps;
    f := OneEnd(c);
    TabledSize(f, c);
    assert !AllSettle(c);
    NotInStamps(f.log, c.n);
  }

  lemma NotInStamps(log: set<Entry>, q: int)
    ensures Unreleased(log) ==> Stamp(q, LauncherReleased) !in Stamps(log)
  {
  }

  // The front end has user data and no function to pack them: all its daemons succeed, without it.
  lemma DaemonsAlone(c: Config) returns (f: State)
    requires WellFormed(c) && Instructed(c) && AllInit(c) && AllSettle(c) && c.febe == NoCallback
    ensures TheEnd(c, f) && Unreleased(f.log) && f.procs[c.n] == Done(Code(LMON_ENCLLB))
    ensures forall q :: 0 <= q < c.n ==> f.procs[q] == Done(Ending(c, q))
  {
    hide WellFormed, TheEnd, Ending;
    f := OneEnd(c);
    TabledSize(f, c);
  }

  // ----- a master that is not recognized is told nothing

  // The words i .. j-1 of the key, as they travel.
  function KeyBytes(c: Config, i: nat, j: nat): (b: Bytes)
    requires j <= |c.key|
    decreases j - i
  {
    if i < j then KeyMsg(c.key[i]) + KeyBytes(c, i + 1, j) else []
  }

  lemma {:induction false} KeyBytesAppend(c: Config, i: nat, j: nat)
    requires i <= j < |c.key|
    ensures KeyBytes(c, i, j) + KeyMsg(c.key[j]) == KeyBytes(c, i, j + 1)
    decreases j - i
  {
    hide KeyMsg;
    if i < j {
      KeyBytesAppend(c, i + 1, j);
      assert KeyMsg(c.key[i]) + KeyBytes(c, i + 1, j) + KeyMsg(c.key[j]) ==
        KeyMsg(c.key[i]) + (KeyBytes(c, i + 1, j) + KeyMsg(c.key[j]));
    } else {
      assert KeyBytes(c, j + 1, j + 1) == [];
    }
  }

  // The front end has read i words of the key and the master has written j.
  ghost predicate Checking(c: Config, s: State, i: nat, j: nat) {
    Shape(s) && 1 <= c.n && |s.procs| == c.n + 1 && i <= j <= KEY_WORDS == |c.key| &&
    s.procs[c.n] == FeKeys(c, i, c.key[..i]) &&
    var way := Payload(Chan(s, Edge(0, c.n)));
    KeyBytes(c, i, j) <= way && (j < KEY_WORDS ==> s.procs[0] == BeKeys(c, j) && way == KeyBytes(c, i, j))
  }

  lemma FrontEndReads(c: Config, s: State, i: nat, j: nat)
    requires WellFormed(c) && !c.authorize(c.key) && Checking(c, s, i, j) && Ready(s, c.n)
    ensures i < j && Checking(c, Step(s, c.n), i + 1, j) && !s.procs[c.n].Send?
  {
    hide WellFormed, KeyKont, HostKont, KeyMsg, BeInit, Step, Payload, Chan;
    Recognized(c);
    assert c.key[..KEY_WORDS] == c.key;
    KeyRead(c, i);
    var e := Edge(0, c.n);
    CellsOfPayload(s, e);
    ReadChannel(s, c.n);
    FrontOf(KeyMsg(c.key[i]), KeyBytes(c, i + 1, j), Payload(Chan(s, e)), Reading(s, c.n),
            Payload(Chan(Step(s, c.n), e)));
    ServedStep(s, c.n);
  }

  lemma CellsOfPayload(s: State, e: Edge)
    ensures |Payload(Chan(s, e))| == |Chan(s, e)|
  {
  }

  lemma ServedStep(s: State, p: int)
    requires Network.Served(s, p) && s.procs[p].Recv?
    ensures Shape(Step(s, p)) && Step(s, p).procs == s.procs[p := s.procs[p].onData(Reading(s, p))]
  {
  }

  lemma FrontOf(a: Bytes, b: Bytes, way: Bytes, x: Bytes, y: Bytes)
    requires a + b <= way && way == x + y && |x| == |a|
    ensures x == a && b <= y && (way == a + b ==> y == b)
  {
    assert way[..|a|] == a && way[|a|..] == y;
    assert way[..|a + b|][|a|..] == b;
  }

  lemma MasterWritesWord(c: Config, s: State, i: nat, j: nat)
    requires WellFormed(c) && Checking(c, s, i, j) && Ready(s, 0) && j < KEY_WORDS
    ensures Checking(c, Step(s, 0), i, j + 1)
  {
    hide WellFormed, FeKeys, KeyMsg, BeInit, Payload, Chan, KeyBytes;
    WroteChannel(s, 0);
    KeyBytesAppend(c, i, j);
  }

  // Whoever else moves can at most add to what is under way from the master.
  lemma OthersMove(c: Config, s: State, i: nat, j: nat, p: int)
    requires WellFormed(c) && Checking(c, s, i, j) && Ready(s, p) && p != c.n && (p == 0 ==> j >= KEY_WORDS)
    ensures Checking(c, Step(s, p), i, j)
  {
    hide WellFormed, FeKeys, BeKeys, Payload, Chan, KeyBytes, Step;
    StepMovesOne(s, p, c.n);
    if p != 0 { StepMovesOne(s, p, 0); }
    if s.procs[p].Send? && p == 0 && s.procs[p].to == c.n {
      WroteChannel(s, p);
    } else {
      OtherChannel(s, p, Edge(0, c.n));
    }
  }

  lemma OneCheck(c: Config, s: State, i: nat, j: nat, p: int) returns (k: nat, l: nat)
    requires WellFormed(c) && !c.authorize(c.key) && Checking(c, s, i, j) && Ready(s, p)
    ensures Checking(c, Step(s, p), k, l) && (p == c.n ==> !s.procs[p].Send?)
  {
    hide WellFormed, Checking, Step, Ready;
    k, l := i, j;
    if p == c.n {
      FrontEndReads(c, s, i, j);
      k := i + 1;
    } else if p == 0 && j < KEY_WORDS {
      MasterWritesWord(c, s, i, j);
      l := j + 1;
    } else {
      OthersMove(c, s, i, j, p);
    }
  }

  // A front end that does not recognize the key writes nothing to anybody.
  lemma {:induction false} NothingSaid(c: Config, s: State, i: nat, j: nat, sched: seq<int>, q: int)
    requires WellFormed(c) && !c.authorize(c.key) && Checking(c, s, i, j) && Run(s, sched).Some?
    ensures LocalRun.Traffic(s, sched, Edge(c.n, q)) == []
    decreases |sched|
  {
    hide WellFormed, Checking, Step, Ready;
    if sched != [] {
      var k, l := OneCheck(c, s, i, j, sched[0]);
      NothingSaid(c, Step(s, sched[0]), k, l, sched[1..], q);
    }
  }

  lemma StartsChecking(c: Config)
    requires WellFormed(c)
    ensures Checking(c, Init(c), 0, 0)
  {
    hide WellFormed, FeKeys, BeKeys, BeInit;
    Owed(c);
    assert c.key[..0] == [];
  }

  // Everything the front end has said and done by then to a master whose key it does not recognize.
  ghost predicate Silent(c: Config, sched: seq<int>, t: State)
    requires Run(Init(c), sched).Some?
  {
    |t.procs| == c.n + 1 && (forall q :: LocalRun.Traffic(Init(c), sched, Edge(c.n, q)) == []) &&
    (forall q :: Stamp(q, LauncherReleased) !in Stamps(t.log)) && (Stuck(t) ==> t.procs[c.n] == Done(Code(LMON_ESYS)))
  }

  // However the parties interleave: a front end that does not recognize the key of its master writes it not a single
  // byte, does not have the launcher released, and returns a system error.
  lemma Unrecognized(c: Config)
    requires WellFormed(c) && !c.authorize(c.key)
    ensures forall sched, t :: Run(Init(c), sched) == Some(t) ==> Silent(c, sched, t)
  {
    hide WellFormed, Init, Stuck, SessionSafety.ReleasedSafely, Run, Stamps, Checking;
    var total, f := EveryOutcome(c);
    StartsChecking(c);
    SessionEnds.InitIsTruthful(c);
    forall sched, t | Run(Init(c), sched) == Some(t)
      ensures Silent(c, sched, t)
    {
      forall q
        ensures LocalRun.Traffic(Init(c), sched, Edge(c.n, q)) == []
      {
        NothingSaid(c, Init(c), 0, 0, sched, q);
      }
      assert SessionEnds.OnItsWay(t, |sched|, c, total, f);
      NoneReleased(c, Init(c), sched, t, f);
    }
  }

  lemma NoneReleased(c: Config, s: State, sched: seq<int>, t: State, f: State)
    requires Shape(s) && Run(s, sched) == Some(t) && Reaches(t, f) && Unreleased(f.log)
    ensures |t.procs| == |s.procs| && forall q :: Stamp(q, LauncherReleased) !in Stamps(t.log)
  {
    hide Run, Reaches;
    RunGrows(s, sched, t);
    ReachesGrows(t, f);
  }
}
