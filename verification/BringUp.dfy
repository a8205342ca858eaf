// Opening the tree: the server contacts the first host, every contacted task reads its rank, the number of
// ranks and the host list from its parent, computes its children, and contacts them in turn, each by the
// host name it finds in its own copy of the list. Tasks move in any order; a contact reaches any one task
// that still listens on the named host.
module BringUp {
  import opened Bytestream
  import opened CoboTree
  import opened Network
  import HostList

  // The hosts as the server lists them, and the host each task runs on.
  datatype Config = Config(hosts: seq<Bytes>, home: seq<Bytes>)

  // Where a party is in contacting its children: the next one, the task on its socket, the messages written to it.
  datatype Talk = Talk(next: nat, to: Option<int>, written: nat)

  datatype Stage =
    | Listening
    | Reading(read: nat, me: int, nprocs: int, size: int)
    | Running(me: int, nprocs: int, table: Bytes, talk: Talk)

  // Bookkeeping no task can look at: the rank a task was contacted for, by whom (-1 is the server), and the
  // messages written to it.
  datatype Contact = Contact(rank: int, parent: int, written: nat)

  datatype TreeState = TreeState(server: Talk, tasks: seq<Stage>, sockets: seq<Bytes>,
                         contacts: seq<Option<Contact>>, holders: seq<Option<int>>)

  const SERVER: int := -1
  const MESSAGES: nat := 4

  // What a party contacts others with.
  datatype View = View(ranks: seq<int>, nprocs: int, table: Bytes, talk: Talk)

  function RanksOf(kids: seq<Kid>): (list: seq<int>) { seq(|kids|, i requires 0 <= i < |kids| => kids[i].rank) }

  function ViewOf(c: Config, s: TreeState, p: int): (o: Option<View>) {
    if p == SERVER then Some(View([0], |c.hosts|, HostList.Table(c.hosts), s.server))
    else if 0 <= p < |s.tasks| && s.tasks[p].Running? && s.tasks[p].nprocs >= 0 then
      var t := s.tasks[p];
      Some(View(RanksOf(Kids(t.nprocs, t.me)), t.nprocs, t.table, t.talk))
    else None
  }

  // What cobo_send_hostlist writes to the next child.
  function Message(v: View, i: nat): (b: Bytes)
    requires v.talk.next < |v.ranks|
  {
    if i == 0 then EncodeInt(v.ranks[v.talk.next])
    else if i == 1 then EncodeInt(v.nprocs)
    else if i == 2 then EncodeInt(|v.table|)
    else v.table
  }

  datatype Move = Meet(p: int, t: int) | Write(p: int) | Read(t: int)

  // p connects to a task that listens on the host of p's next child.
  ghost predicate CanMeet(c: Config, s: TreeState, p: int, t: int) {
    match ViewOf(c, s, p)
    case None => false
    case Some(v) =>
      v.talk.to == None && v.talk.next < |v.ranks| && v.ranks[v.talk.next] >= 0 &&
      0 <= t < |s.tasks| && t < |c.home| && s.tasks[t].Listening? &&
        c.home[t] == HostList.Expand(v.table, v.ranks[v.talk.next])
  }

  ghost predicate CanWrite(c: Config, s: TreeState, p: int) {
    match ViewOf(c, s, p)
    case None => false
    case Some(v) => v.talk.to.Some? && v.talk.next < |v.ranks| && v.talk.written < MESSAGES
  }

  function Wanted(stage: Stage): (v: int)
    requires stage.Reading?
  {
    if stage.read < 3 then INT_SIZE else stage.size
  }

  ghost predicate CanRead(s: TreeState, t: int) {
    0 <= t < |s.tasks| && t < |s.sockets| && s.tasks[t].Reading? && 0 <= Wanted(s.tasks[t]) <= |s.sockets[t]|
  }

  ghost predicate Enabled(c: Config, s: TreeState, m: Move) {
    match m
    case Meet(p, t) => CanMeet(c, s, p, t)
    case Write(p) => CanWrite(c, s, p)
    case Read(t) => CanRead(s, t)
  }

  function SetTalk(s: TreeState, p: int, talk: Talk): (treeState: TreeState) {
    if p == SERVER then s.(server := talk)
    else if 0 <= p < |s.tasks| && s.tasks[p].Running? then s.(tasks := s.tasks[p := s.tasks[p].(talk := talk)])
    else s
  }

  function AfterRead(stage: Stage, d: Bytes): (r: Stage)
    requires stage.Reading?
  {
    if stage.read == 0 then Reading(1, DecodeInt(d), 0, 0)
    else if stage.read == 1 then Reading(2, stage.me, DecodeInt(d), 0)
    else if stage.read == 2 then Reading(3, stage.me, stage.nprocs, DecodeInt(d))
    else Running(stage.me, stage.nprocs, d, Talk(0, None, 0))
  }

  ghost predicate Sized(c: Config, s: TreeState) {
    |c.home| == |s.tasks| == |s.sockets| == |s.contacts| == |s.holders| == |c.hosts|
  }

  ghost function Next(c: Config, s: TreeState, m: Move): (treeState: TreeState)
    requires Sized(c, s) && Enabled(c, s, m)
  {
    match m
    case Meet(p, t) =>
      var v := ViewOf(c, s, p).value;
      var rank := v.ranks[v.talk.next];
      var u := SetTalk(s, p, Talk(v.talk.next, Some(t), 0));
      u.(tasks := u.tasks[t := Reading(0, 0, 0, 0)], contacts := u.contacts[t := Some(Contact(rank, p, 0))],
         holders := if rank < |u.holders| then u.holders[rank := Some(t)] else u.holders)
    case Write(p) =>
      var v := ViewOf(c, s, p).value;
      var t, w := v.talk.to.value, v.talk.written;
      var u := SetTalk(s, p, if w + 1 == MESSAGES then Talk(v.talk.next + 1, None, 0) else v.talk.(written := w + 1));
      if 0 <= t < |s.sockets| && s.contacts[t].Some? then
        u.(sockets := u.sockets[t := u.sockets[t] + Message(v, w)],
           contacts := u.contacts[t := Some(u.contacts[t].value.(written := w + 1))])
      else u
    case Read(t) =>
      var size := Wanted(s.tasks[t]);
      s.(tasks := s.tasks[t := AfterRead(s.tasks[t], s.sockets[t][..size])],
        sockets := s.sockets[t := s.sockets[t][size..]])
  }

  ghost function Init(c: Config): (treeState: TreeState) {
    TreeState(Talk(0, None, 0), seq(|c.home|, _ => Listening), seq(|c.home|, _ => []), seq(|c.home|, _ => None),
      seq(|c.hosts|, _ => None))
  }

  ghost function After(c: Config, s: TreeState, moves: seq<Move>): (o: Option<TreeState>)
    decreases |moves|
  {
    if moves == [] then Some(s)
    else if Sized(c, s) && Enabled(c, s, moves[0]) then After(c, Next(c, s, moves[0]), moves[1..])
    else None
  }

  // The tasks run where the server thinks they do, and the list of hosts is one.
  ghost predicate Deployed(c: Config) {
    |c.hosts| >= 1 && multiset(c.home) == multiset(c.hosts) && |HostList.Table(c.hosts)| < 0x8000_0000 &&
    forall i :: 0 <= i < |c.hosts| ==> NoNul(c.hosts[i])
  }

  // ----- what every move keeps

  // The messages for a rank from number i up to number j.
  function Expected(c: Config, rank: int, i: nat): (b: Bytes) {
    if i == 0 then EncodeInt(rank)
    else if i == 1 then EncodeInt(|c.hosts|)
    else if i == 2 then EncodeInt(|HostList.Table(c.hosts)|)
    else HostList.Table(c.hosts)
  }

  function Underway(c: Config, rank: int, i: nat, j: nat): (b: Bytes)
    decreases j
  {
    if i >= j then [] else Underway(c, rank, i, j - 1) + Expected(c, rank, j - 1)
  }

  function ReadBy(stage: Stage): (v: nat) {
    match stage
    case Listening => 0
    case Reading(read, _, _, _) => read
    case Running(_, _, _, _) => MESSAGES
  }

  // What a task that was contacted for a rank has made of what it has read.
  ghost predicate Understood(c: Config, stage: Stage, rank: int) {
    match stage
    case Listening => false
    case Reading(read, me, nprocs, size) =>
      read < MESSAGES && (read >= 1 ==> me == rank) && (read >= 2 ==> nprocs == |c.hosts|) &&
        (read >= 3 ==> size == |HostList.Table(c.hosts)|)
    case Running(me, nprocs, table, _) => me == rank && nprocs == |c.hosts| && table == HostList.Table(c.hosts)
  }

  // The contact came from the parent of the rank.
  ghost predicate FromParent(c: Config, s: TreeState, x: Contact) {
    if x.rank == 0 then x.parent == SERVER
    else 0 <= x.parent < |s.tasks| && s.tasks[x.parent].Running? && s.tasks[x.parent].me == Parent(|c.hosts|, x.rank)
  }

  ghost predicate TaskOk(c: Config, s: TreeState, t: int)
    requires Sized(c, s) && 0 <= t < |s.tasks|
  {
    match s.contacts[t]
    case None => s.tasks[t].Listening? && s.sockets[t] == []
    case Some(x) =>
      0 <= x.rank < |c.hosts| && s.holders[x.rank] == Some(t) && c.hosts[x.rank] == c.home[t] &&
      ReadBy(s.tasks[t]) <= x.written <= MESSAGES &&
        s.sockets[t] == Underway(c, x.rank, ReadBy(s.tasks[t]), x.written) &&
      Understood(c, s.tasks[t], x.rank) && FromParent(c, s, x) &&
      (x.written < MESSAGES ==> ViewOf(c, s, x.parent).Some? && ViewOf(c, s, x.parent).value.talk.to == Some(t))
  }

  ghost predicate RankOk(c: Config, s: TreeState, r: int)
    requires Sized(c, s) && 0 <= r < |s.holders|
  {
    s.holders[r].Some? ==>
      var t := s.holders[r].value;
      0 <= t < |s.tasks| && s.contacts[t].Some? && s.contacts[t].value.rank == r
  }

  ghost predicate PartyOk(c: Config, s: TreeState, p: int)
    requires Sized(c, s)
  {
    ViewOf(c, s, p).Some? ==>
      var v := ViewOf(c, s, p).value;
      v.nprocs == |c.hosts| && v.table == HostList.Table(c.hosts) && v.talk.next <= |v.ranks| &&
      (forall j :: 0 <= j < |v.ranks| ==> 0 <= v.ranks[j] < |c.hosts|) &&
      (v.talk.to.None? ==> v.talk.written == 0) &&
      (v.talk.to.Some? ==>
        v.talk.next < |v.ranks| && 0 <= v.talk.to.value < |s.tasks| && v.talk.written < MESSAGES &&
        s.contacts[v.talk.to.value] == Some(Contact(v.ranks[v.talk.next], p, v.talk.written))) &&
      forall j :: 0 <= j < |v.ranks| ==>
          (s.holders[v.ranks[j]].Some? <==> j < v.talk.next || (j == v.talk.next && v.talk.to.Some?))
  }

  // The names that are left when some are gone.
  function Left<T>(names: seq<Bytes>, gone: seq<Option<T>>): (all: multiset<Bytes>)
    requires |names| == |gone|
  {
    if names == [] then multiset{}
    else Left(names[..|names| - 1], gone[..|gone| - 1]) +
         if gone[|gone| - 1].None? then multiset{names[|names| - 1]} else multiset{}
  }

  ghost predicate Inv(c: Config, s: TreeState) {
    |c.hosts| >= 1 && Sized(c, s) && (forall t :: 0 <= t < |s.tasks| ==> TaskOk(c, s, t)) &&
      (forall r :: 0 <= r < |s.holders| ==> RankOk(c, s, r)) &&
    (forall p :: SERVER <= p < |s.tasks| ==> PartyOk(c, s, p)) && Left(c.home, s.contacts) == Left(c.hosts, s.holders)
  }

  // ----- names that are left

  lemma {:induction false} NoneGone<T>(names: seq<Bytes>, gone: seq<Option<T>>)
    requires |names| == |gone| && forall i :: 0 <= i < |gone| ==> gone[i].None?
    ensures Left(names, gone) == multiset(names)
  {
    if names != [] {
      NoneGone(names[..|names| - 1], gone[..|gone| - 1]);
      assert names == names[..|names| - 1] + [names[|names| - 1]];
    }
  }

  lemma AddOne(a: multiset<Bytes>, b: multiset<Bytes>, x: Bytes, rest: multiset<Bytes>)
    requires a == b + multiset{x}
    ensures a + rest == b + rest + multiset{x}
  {
  }

  lemma SameLess(a: multiset<Bytes>, b: multiset<Bytes>, x: Bytes)
    requires a + multiset{x} == b + multiset{x}
    ensures a == b
  {
    assert a == (a + multiset{x}) - multiset{x} && b == (b + multiset{x}) - multiset{x};
  }

  lemma {:induction false} OneGoes<T>(names: seq<Bytes>, gone: seq<Option<T>>, i: nat, x: T)
    requires |names| == |gone| && i < |names| && gone[i].None?
    ensures Left(names, gone) == Left(names, gone[i := Some(x)]) + multiset{names[i]}
    decreases |names|
  {
    var after, last := gone[i := Some(x)], |names| - 1;
    if i < last {
      OneGoes(names[..last], gone[..last], i, x);
      assert after[..last] == gone[..last][i := Some(x)] && after[last] == gone[last];
      AddOne(Left(names[..last], gone[..last]), Left(names[..last], after[..last]), names[i],
             if gone[last].None? then multiset{names[last]} else multiset{});
    } else {
      assert after[..last] == gone[..last] && after[last] == Some(x);
    }
  }

  lemma {:induction false} ChangedWhileGone<T>(names: seq<Bytes>, gone: seq<Option<T>>, i: nat, x: T)
    requires |names| == |gone| && i < |names| && gone[i].Some?
    ensures Left(names, gone[i := Some(x)]) == Left(names, gone)
    decreases |names|
  {
    var after := gone[i := Some(x)];
    if i < |names| - 1 {
      ChangedWhileGone(names[..|names| - 1], gone[..|gone| - 1], i, x);
      assert after[..|gone| - 1] == gone[..|gone| - 1][i := Some(x)];
    } else {
      assert after[..|gone| - 1] == gone[..|gone| - 1];
    }
  }

  lemma {:induction false} SomeoneLeft<T>(names: seq<Bytes>, gone: seq<Option<T>>, name: Bytes) returns (i: nat)
    requires |names| == |gone| && Left(names, gone)[name] >= 1
    ensures i < |names| && gone[i].None? && names[i] == name
  {
    var last := |names| - 1;
    if gone[last].None? && names[last] == name {
      i := last;
    } else {
      i := SomeoneLeft(names[..last], gone[..last], name);
    }
  }

  // ----- one move at a time

  // Two stages that differ at most in the talk with the children.
  ghost predicate SameStage(a: Stage, b: Stage) { a == b || (a.Running? && b.Running? && a.(talk := b.talk) == b) }

  // Only party p's talk has changed, and task t's stage.
  ghost predicate Others(c: Config, s: TreeState, u: TreeState, p: int, t: int, talk: Talk) {
    |u.tasks| == |s.tasks| && (forall q :: 0 <= q < |s.tasks| && q != t ==> SameStage(u.tasks[q], s.tasks[q])) &&
    forall q :: ViewOf(c, u, q) ==
      if q == p && ViewOf(c, s, q).Some? then Some(ViewOf(c, s, q).value.(talk := talk)) else ViewOf(c, s, q)
  }

  ghost predicate Meets(c: Config, s: TreeState, u: TreeState, p: int, t: int, v: View, rank: int) {
    Sized(c, s) && Sized(c, u) && 0 <= t < |s.tasks| && 0 <= rank < |s.holders| && ViewOf(c, s, p) == Some(v) &&
    v.talk.to == None && v.talk.next < |v.ranks| && v.ranks[v.talk.next] == rank &&
    s.tasks[t].Listening? && c.home[t] == c.hosts[rank] && s.holders[rank] == None && s.contacts[t] == None &&
      s.sockets[t] == [] &&
    (if rank == 0 then p == SERVER
      else 0 <= p < |s.tasks| && s.tasks[p].Running? && s.tasks[p].me == Parent(|c.hosts|, rank)) &&
    u.contacts == s.contacts[t := Some(Contact(rank, p, 0))] && u.holders == s.holders[rank := Some(t)] &&
    u.sockets == s.sockets && u.tasks[t] == Reading(0, 0, 0, 0) && Others(c, s, u, p, t, Talk(v.talk.next, Some(t), 0))
  }

  lemma ViewOfTask(c: Config, s: TreeState, p: int)
    requires Inv(c, s) && 0 <= p < |s.tasks| && s.tasks[p].Running?
    ensures var n, me := |c.hosts|, s.tasks[p].me;
      Rank(n, me) && s.tasks[p].nprocs == n && s.holders[me] == Some(p) &&
      ViewOf(c, s, p) == Some(View(RanksOf(Kids(n, me)), n, HostList.Table(c.hosts), s.tasks[p].talk))
  {
    hide Kids, Parent, HostList.Table, Underway, RankOk, PartyOk, Left;
    assert TaskOk(c, s, p);
  }

  lemma RankFromParent(c: Config, s: TreeState, p: int, v: View, j: nat)
    requires Inv(c, s) && ViewOf(c, s, p) == Some(v) && j < |v.ranks|
    ensures var rank := v.ranks[j];
      0 <= rank < |c.hosts| &&
      if rank == 0 then p == SERVER
      else 0 <= p < |s.tasks| && s.tasks[p].Running? && s.tasks[p].me == Parent(|c.hosts|, rank)
  {
    hide Kids, Parent, HostList.Table, Underway, RankOk, PartyOk, TaskOk, Left;
    if p != SERVER {
      ViewOfTask(c, s, p);
      KidIs(|c.hosts|, s.tasks[p].me, j);
    }
  }

  lemma TalkMoves(c: Config, s: TreeState, u: TreeState, p: int, t: int, talk: Talk)
    requires ViewOf(c, s, p).Some? && (0 <= t < |s.tasks| ==> t != p && !s.tasks[t].Running?)
    requires var w := SetTalk(s, p, talk);
      u.server == w.server && |u.tasks| == |w.tasks| &&
        (forall q :: 0 <= q < |w.tasks| && q != t ==> u.tasks[q] == w.tasks[q]) &&
      (0 <= t < |u.tasks| ==> !u.tasks[t].Running?)
    ensures Others(c, s, u, p, t, talk)
  {
    hide Kids, HostList.Table;
  }

  lemma MeetIs(c: Config, s: TreeState, p: int, t: int)
    requires Deployed(c) && Inv(c, s) && CanMeet(c, s, p, t)
    ensures var v := ViewOf(c, s, p).value; Meets(c, s, Next(c, s, Meet(p, t)), p, t, v, v.ranks[v.talk.next])
  {
    hide HostList.Table, HostList.Expand, Kids, Parent, Underway, Left, Others;
    var v := ViewOf(c, s, p).value;
    var rank := v.ranks[v.talk.next];
    assert PartyOk(c, s, p);
    assert TaskOk(c, s, t);
    RankFromParent(c, s, p, v, v.talk.next);
    HostList.ExpandRoundTrip(c.hosts, rank);
    TalkMoves(c, s, Next(c, s, Meet(p, t)), p, t, Talk(v.talk.next, Some(t), 0));
  }

  lemma MeetTask(c: Config, s: TreeState, u: TreeState, p: int, t: int, v: View, rank: int, q: int)
    requires Inv(c, s) && Meets(c, s, u, p, t, v, rank) && 0 <= q < |s.tasks|
    ensures TaskOk(c, u, q)
  {
    hide HostList.Table, Kids, Parent, RankOk, PartyOk, Left, ViewOf;
    assert TaskOk(c, s, q);
    if q == t {
      assert Underway(c, rank, 0, 0) == [];
    } else {
      assert SameStage(u.tasks[q], s.tasks[q]);
      if s.contacts[q].Some? { FromParentStays(c, s, u, s.contacts[q].value, t); }
    }
  }

  lemma FromParentStays(c: Config, s: TreeState, u: TreeState, x: Contact, t: int)
    requires FromParent(c, s, x) && |u.tasks| == |s.tasks| && 0 <= t < |s.tasks| &&
      (s.tasks[t].Running? ==> SameStage(u.tasks[t], s.tasks[t]))
    requires forall q :: 0 <= q < |s.tasks| && q != t ==> SameStage(u.tasks[q], s.tasks[q])
    ensures FromParent(c, u, x)
  {
  }

  // A rank is a child of at most one party.
  lemma OneParent(c: Config, s: TreeState, p: int, v: View, i: nat, q: int, w: View, j: nat)
    requires Inv(c, s) && ViewOf(c, s, p) == Some(v) && ViewOf(c, s, q) == Some(w) && i < |v.ranks| && j < |w.ranks|
    requires v.ranks[i] == w.ranks[j]
    ensures p == q && i == j
  {
    hide HostList.Table, Kids, Parent, RankOk, PartyOk, TaskOk, Left;
    RankFromParent(c, s, p, v, i);
    RankFromParent(c, s, q, w, j);
    if p != SERVER && q != SERVER {
      ViewOfTask(c, s, p);
      ViewOfTask(c, s, q);
      var n, me := |c.hosts|, s.tasks[p].me;
      if i < j { KidsDiffer(n, me, i, j); }
      if j < i { KidsDiffer(n, me, j, i); }
    }
  }

  lemma MeetParty(c: Config, s: TreeState, u: TreeState, p: int, t: int, v: View, rank: int, q: int)
    requires Inv(c, s) && Meets(c, s, u, p, t, v, rank) && SERVER <= q < |s.tasks|
    ensures PartyOk(c, u, q)
  {
    hide HostList.Table, Kids, Parent, RankOk, TaskOk, Left, ViewOf, SameStage;
    assert PartyOk(c, s, q);
    if ViewOf(c, s, q).Some? {
      var w := ViewOf(c, s, q).value;
      forall j | 0 <= j < |w.ranks| && w.ranks[j] == rank
        ensures p == q && j == v.talk.next
      {
        OneParent(c, s, p, v, v.talk.next, q, w, j);
      }
    }
  }

  lemma MeetRank(c: Config, s: TreeState, u: TreeState, p: int, t: int, v: View, rank: int, r: int)
    requires Inv(c, s) && Meets(c, s, u, p, t, v, rank) && 0 <= r < |s.holders|
    ensures RankOk(c, u, r)
  {
    hide HostList.Table, Kids, Parent, PartyOk, TaskOk, Left, ViewOf, SameStage, Others;
    assert RankOk(c, s, r);
  }

  lemma MeetKeeps(c: Config, s: TreeState, p: int, t: int)
    requires Deployed(c) && Inv(c, s) && CanMeet(c, s, p, t)
    ensures Inv(c, Next(c, s, Meet(p, t)))
  {
    hide HostList.Table, Kids, Parent, PartyOk, TaskOk, ViewOf, SameStage, Others, CanMeet, Next;
    MeetIs(c, s, p, t);
    var u, v := Next(c, s, Meet(p, t)), ViewOf(c, s, p).value;
    var rank := v.ranks[v.talk.next];
    forall q | 0 <= q < |s.tasks|
      ensures TaskOk(c, u, q)
    {
      MeetTask(c, s, u, p, t, v, rank, q);
    }
    forall q | SERVER <= q < |s.tasks|
      ensures PartyOk(c, u, q)
    {
      MeetParty(c, s, u, p, t, v, rank, q);
    }
    forall r | 0 <= r < |s.holders|
      ensures RankOk(c, u, r)
    {
      MeetRank(c, s, u, p, t, v, rank, r);
    }
    OneGoes(c.home, s.contacts, t, Contact(rank, p, 0));
    OneGoes(c.hosts, s.holders, rank, t);
    SameLess(Left(c.home, u.contacts), Left(c.hosts, u.holders), c.home[t]);
  }

  // ----- writing

  function TalkOn(talk: Talk): (r: Talk) {
    if talk.written + 1 == MESSAGES then Talk(talk.next + 1, None, 0) else talk.(written := talk.written + 1)
  }

  ghost predicate Writes(c: Config, s: TreeState, u: TreeState, p: int, t: int, v: View, rank: int) {
    Sized(c, s) && Sized(c, u) && 0 <= t < |s.tasks| && ViewOf(c, s, p) == Some(v) &&
    v.talk.to == Some(t) && v.talk.next < |v.ranks| && v.ranks[v.talk.next] == rank && v.talk.written < MESSAGES &&
    s.contacts[t] == Some(Contact(rank, p, v.talk.written)) && !s.tasks[t].Running? &&
    u.contacts == s.contacts[t := Some(Contact(rank, p, v.talk.written + 1))] && u.holders == s.holders &&
    u.sockets == s.sockets[t := s.sockets[t] + Expected(c, rank, v.talk.written)] &&
      Others(c, s, u, p, -2, TalkOn(v.talk))
  }

  lemma WriteIs(c: Config, s: TreeState, p: int)
    requires Inv(c, s) && CanWrite(c, s, p)
    ensures var v := ViewOf(c, s, p).value;
      Writes(c, s, Next(c, s, Write(p)), p, v.talk.to.value, v, v.ranks[v.talk.next])
  {
    hide HostList.Table, Kids, Parent, Underway, Left, Others, EncodeInt, RankOk;
    var v := ViewOf(c, s, p).value;
    assert PartyOk(c, s, p);
    var t := v.talk.to.value;
    assert TaskOk(c, s, t);
    assert Message(v, v.talk.written) == Expected(c, v.ranks[v.talk.next], v.talk.written);
    TalkMoves(c, s, Next(c, s, Write(p)), p, -2, TalkOn(v.talk));
  }

  lemma WriteTask(c: Config, s: TreeState, u: TreeState, p: int, t: int, v: View, rank: int, q: int)
    requires Inv(c, s) && Writes(c, s, u, p, t, v, rank) && 0 <= q < |s.tasks|
    ensures TaskOk(c, u, q)
  {
    hide HostList.Table, Kids, Parent, RankOk, PartyOk, Left, ViewOf, Expected;
    assert TaskOk(c, s, q);
    assert SameStage(u.tasks[q], s.tasks[q]);
    if s.contacts[q].Some? { FromParentStays(c, s, u, s.contacts[q].value, q); }
  }

  lemma WriteParty(c: Config, s: TreeState, u: TreeState, p: int, t: int, v: View, rank: int, q: int)
    requires Inv(c, s) && Writes(c, s, u, p, t, v, rank) && SERVER <= q < |s.tasks|
    ensures PartyOk(c, u, q)
  {
    hide HostList.Table, Kids, Parent, RankOk, TaskOk, Left, ViewOf, SameStage, Expected;
    assert PartyOk(c, s, q);
  }

  lemma WriteKeeps(c: Config, s: TreeState, p: int)
    requires Inv(c, s) && CanWrite(c, s, p)
    ensures Inv(c, Next(c, s, Write(p)))
  {
    hide HostList.Table, Kids, Parent, PartyOk, TaskOk, ViewOf, SameStage, Others, CanWrite, Next, Expected;
    WriteIs(c, s, p);
    var u, v := Next(c, s, Write(p)), ViewOf(c, s, p).value;
    var t, rank := v.talk.to.value, v.ranks[v.talk.next];
    forall q | 0 <= q < |s.tasks|
      ensures TaskOk(c, u, q)
    {
      WriteTask(c, s, u, p, t, v, rank, q);
    }
    forall q | SERVER <= q < |s.tasks|
      ensures PartyOk(c, u, q)
    {
      WriteParty(c, s, u, p, t, v, rank, q);
    }
    forall r | 0 <= r < |s.holders|
      ensures RankOk(c, u, r)
    {
      assert RankOk(c, s, r);
    }
    ChangedWhileGone(c.home, s.contacts, t, Contact(rank, p, v.talk.written + 1));
  }

  // ----- reading

  lemma {:induction false} UnderwaySplit(c: Config, rank: int, i: nat, j: nat)
    requires i < j
    ensures Underway(c, rank, i, j) == Expected(c, rank, i) + Underway(c, rank, i + 1, j)
    decreases j
  {
    hide Expected;
    if i + 1 < j { UnderwaySplit(c, rank, i, j - 1); }
  }

  lemma UnderwayNone(c: Config, rank: int, i: nat, j: nat)
    ensures i >= j ==> Underway(c, rank, i, j) == []
  {
  }

  lemma TableSize(c: Config)
    ensures |HostList.Table(c.hosts)| >= 4 * |c.hosts|
  {
    WordsConcat(HostList.Offsets(c.hosts), []);
  }

  // A message is as long as its reader expects, and tells it what it should.
  lemma MessageUnderstood(c: Config, stage: Stage, rank: int)
    requires Deployed(c) && 0 <= rank < |c.hosts| && stage.Reading? && Understood(c, stage, rank)
    ensures var d := Expected(c, rank, stage.read);
      |d| == Wanted(stage) > 0 && Understood(c, AfterRead(stage, d), rank) &&
        ReadBy(AfterRead(stage, d)) == stage.read + 1
    ensures var next := AfterRead(stage, Expected(c, rank, stage.read));
      next.Running? ==> next.talk == Talk(0, None, 0)
  {
    hide HostList.Table, EncodeInt, DecodeInt;
    TableSize(c);
    IntRoundTrip(rank);
    IntRoundTrip(|c.hosts|);
    IntRoundTrip(|HostList.Table(c.hosts)|);
  }

  ghost predicate Reads(c: Config, s: TreeState, u: TreeState, t: int, x: Contact) {
    Sized(c, s) && Sized(c, u) && 0 <= t < |s.tasks| && s.contacts[t] == Some(x) && s.tasks[t].Reading? &&
    u.server == s.server && u.contacts == s.contacts && u.holders == s.holders && ReadBy(s.tasks[t]) < x.written &&
    (forall q :: 0 <= q < |s.tasks| && q != t ==> u.tasks[q] == s.tasks[q] && u.sockets[q] == s.sockets[q]) &&
    Understood(c, u.tasks[t], x.rank) && ReadBy(u.tasks[t]) == ReadBy(s.tasks[t]) + 1 &&
      (u.tasks[t].Running? ==> u.tasks[t].talk == Talk(0, None, 0)) &&
    u.sockets[t] == Underway(c, x.rank, ReadBy(u.tasks[t]), x.written)
  }

  lemma ReadIs(c: Config, s: TreeState, t: int)
    requires Deployed(c) && Inv(c, s) && CanRead(s, t)
    ensures s.contacts[t].Some? && Reads(c, s, Next(c, s, Read(t)), t, s.contacts[t].value)
  {
    hide HostList.Table, Kids, Parent, Left, EncodeInt, RankOk, PartyOk, Expected, Understood, ViewOf, FromParent;
    assert TaskOk(c, s, t);
    assert s.contacts[t].Some?;
    var x, stage := s.contacts[t].value, s.tasks[t];
    MessageUnderstood(c, stage, x.rank);
    UnderwayNone(c, x.rank, stage.read, x.written);
    UnderwaySplit(c, x.rank, stage.read, x.written);
    var d, rest := Expected(c, x.rank, stage.read), Underway(c, x.rank, stage.read + 1, x.written);
    assert (d + rest)[..|d|] == d && (d + rest)[|d|..] == rest;
  }

  lemma ReadTask(c: Config, s: TreeState, u: TreeState, t: int, x: Contact, q: int)
    requires Inv(c, s) && Reads(c, s, u, t, x) && 0 <= q < |s.tasks|
    ensures TaskOk(c, u, q)
  {
    hide HostList.Table, Kids, Parent, RankOk, PartyOk, Left, Expected, Underway;
    assert TaskOk(c, s, q);
    assert TaskOk(c, s, t);
    if s.contacts[q].Some? { FromParentStays(c, s, u, s.contacts[q].value, t); }
  }

  // Nobody has been contacted for a child of a task that is not running yet.
  lemma ChildrenUntouched(c: Config, s: TreeState, t: int, x: Contact, j: nat)
    requires Inv(c, s) && 0 <= t < |s.tasks| && s.contacts[t] == Some(x) && !s.tasks[t].Running? &&
      Rank(|c.hosts|, x.rank)
    requires j < |Kids(|c.hosts|, x.rank)|
    ensures var r := Kids(|c.hosts|, x.rank)[j].rank; 0 <= r < |s.holders| && s.holders[r].None?
  {
    hide HostList.Table, Kids, Parent, PartyOk, Left, Underway, Understood, ViewOf;
    var n := |c.hosts|;
    var r := Kids(n, x.rank)[j].rank;
    KidIs(n, x.rank, j);
    assert RankOk(c, s, r);
    assert TaskOk(c, s, t);
    if s.holders[r].Some? {
      var q := s.holders[r].value;
      assert TaskOk(c, s, q);
      ViewOfTask(c, s, s.contacts[q].value.parent);
      assert false;
    }
  }

  lemma ReadParty(c: Config, s: TreeState, u: TreeState, t: int, x: Contact, q: int)
    requires Inv(c, s) && Reads(c, s, u, t, x) && SERVER <= q < |s.tasks|
    ensures PartyOk(c, u, q)
  {
    hide HostList.Table, Kids, Parent, RankOk, Left, Expected, Underway, FromParent;
    assert PartyOk(c, s, q);
    assert TaskOk(c, s, t);
    if q == t {
      if u.tasks[t].Running? {
        var n := |c.hosts|;
        forall j: nat | j < |Kids(n, x.rank)|
          ensures var r := Kids(n, x.rank)[j].rank; 0 <= r < |s.holders| && s.holders[r].None?
        {
          ChildrenUntouched(c, s, t, x, j);
        }
      }
    } else {
      assert ViewOf(c, u, q) == ViewOf(c, s, q);
    }
  }

  lemma ReadKeeps(c: Config, s: TreeState, t: int)
    requires Deployed(c) && Inv(c, s) && CanRead(s, t)
    ensures Inv(c, Next(c, s, Read(t)))
  {
    hide HostList.Table, Kids, Parent, PartyOk, TaskOk, ViewOf, CanRead, Next, Expected, Underway, Understood;
    ReadIs(c, s, t);
    var u, x := Next(c, s, Read(t)), s.contacts[t].value;
    forall q | 0 <= q < |s.tasks|
      ensures TaskOk(c, u, q)
    {
      ReadTask(c, s, u, t, x, q);
    }
    forall q | SERVER <= q < |s.tasks|
      ensures PartyOk(c, u, q)
    {
      ReadParty(c, s, u, t, x, q);
    }
    forall r | 0 <= r < |s.holders|
      ensures RankOk(c, u, r)
    {
      assert RankOk(c, s, r);
    }
  }

  lemma InitHolds(c: Config)
    requires Deployed(c)
    ensures Inv(c, Init(c))
  {
    hide HostList.Table, Kids, Parent;
    var s := Init(c);
    assert |c.home| == |c.hosts| by { assert |multiset(c.home)| == |c.home| && |multiset(c.hosts)| == |c.hosts|; }
    NoneGone(c.home, s.contacts);
    NoneGone(c.hosts, s.holders);
  }

  // ----- every move is one of 9 n

  // One meeting, and the messages still to be written and to be read.
  function CostOf(contact: Option<Contact>, stage: Stage): (v: int) {
    match contact
    case None => 9
    case Some(x) => 4 - x.written + 4 - ReadBy(stage)
  }

  function Costs(s: TreeState): (list: seq<int>) {
    seq(|s.tasks|, t requires 0 <= t < |s.tasks| => if t < |s.contacts| then CostOf(s.contacts[t], s.tasks[t]) else 0)
  }

  function Sum(a: seq<int>): (v: int) { if a == [] then 0 else Sum(a[..|a| - 1]) + a[|a| - 1] }

  lemma {:induction false} SumUpdate(a: seq<int>, i: nat, v: int)
    requires i < |a|
    ensures Sum(a[i := v]) == Sum(a) - a[i] + v
    decreases |a|
  {
    var b := a[i := v];
    if i < |a| - 1 {
      SumUpdate(a[..|a| - 1], i, v);
      assert b[..|a| - 1] == a[..|a| - 1][i := v];
    } else {
      assert b[..|a| - 1] == a[..|a| - 1];
    }
  }

  lemma {:induction false} SumAll(a: seq<int>, v: nat)
    requires forall i :: 0 <= i < |a| ==> a[i] == v
    ensures Sum(a) == v * |a|
  {
    if a != [] { SumAll(a[..|a| - 1], v); }
  }

  lemma {:induction false} SumZero(a: seq<int>)
    requires forall i :: 0 <= i < |a| ==> a[i] >= 0
    ensures Sum(a) >= 0 && (Sum(a) == 0 <==> forall i :: 0 <= i < |a| ==> a[i] == 0)
  {
    if a != [] { SumZero(a[..|a| - 1]); }
  }

  lemma CostDrops(s: TreeState, u: TreeState, t: int)
    requires |s.tasks| == |u.tasks| == |s.contacts| == |u.contacts| && 0 <= t < |s.tasks|
    requires forall q :: 0 <= q < |s.tasks| && q != t ==>
      CostOf(u.contacts[q], u.tasks[q]) == CostOf(s.contacts[q], s.tasks[q])
    requires CostOf(u.contacts[t], u.tasks[t]) == CostOf(s.contacts[t], s.tasks[t]) - 1
    ensures Sum(Costs(u)) == Sum(Costs(s)) - 1
  {
    SumUpdate(Costs(s), t, Costs(u)[t]);
    assert Costs(s)[t := Costs(u)[t]] == Costs(u);
  }

  lemma MoveCosts(c: Config, s: TreeState, m: Move)
    requires Deployed(c) && Inv(c, s) && Enabled(c, s, m)
    ensures Inv(c, Next(c, s, m)) && Sum(Costs(Next(c, s, m))) == Sum(Costs(s)) - 1
  {
    hide HostList.Table, Kids, Parent, PartyOk, TaskOk, RankOk, ViewOf, CanMeet, CanRead, CanWrite, Next, Expected,
         Underway, Understood, Costs;
    var u := Next(c, s, m);
    match m {
      case Meet(p, t) =>
        MeetKeeps(c, s, p, t);
        MeetIs(c, s, p, t);
        CostDrops(s, u, t);
      case Write(p) =>
        WriteKeeps(c, s, p);
        WriteIs(c, s, p);
        CostDrops(s, u, ViewOf(c, s, p).value.talk.to.value);
      case Read(t) =>
        ReadKeeps(c, s, t);
        ReadIs(c, s, t);
        CostDrops(s, u, t);
    }
  }

  lemma {:induction false} MovesCost(c: Config, s: TreeState, moves: seq<Move>, t: TreeState)
    requires Deployed(c) && Inv(c, s) && After(c, s, moves) == Some(t)
    ensures Inv(c, t) && Sum(Costs(t)) == Sum(Costs(s)) - |moves|
    decreases |moves|
  {
    hide Inv, Costs, Sum, Enabled, Next, Sized;
    if moves != [] {
      InvIsSized(c, s);
      FirstMove(c, s, moves, t);
      MoveCosts(c, s, moves[0]);
      MovesCost(c, Next(c, s, moves[0]), moves[1..], t);
    }
  }

  lemma InvIsSized(c: Config, s: TreeState)
    requires Inv(c, s)
    ensures Sized(c, s)
  {
  }

  lemma FirstMove(c: Config, s: TreeState, moves: seq<Move>, t: TreeState)
    requires Sized(c, s) && moves != [] && After(c, s, moves) == Some(t)
    ensures Enabled(c, s, moves[0]) && After(c, Next(c, s, moves[0]), moves[1..]) == Some(t)
  {
    hide Enabled, Next;
  }

  // ----- somebody can always move

  lemma ContactedCanGoOn(c: Config, s: TreeState, t: int) returns (m: Move)
    requires Deployed(c) && Inv(c, s) && 0 <= t < |s.tasks| && s.contacts[t].Some? &&
      CostOf(s.contacts[t], s.tasks[t]) > 0
    ensures Enabled(c, s, m)
  {
    hide HostList.Table, Kids, Parent, Left, RankOk, ViewOf, Expected, Underway, Understood;
    assert TaskOk(c, s, t);
    var x := s.contacts[t].value;
    if x.written < MESSAGES {
      assert PartyOk(c, s, x.parent);
      m := Write(x.parent);
    } else {
      m := Read(t);
      ReadableIs(c, s, t, x);
    }
  }

  lemma ReadableIs(c: Config, s: TreeState, t: int, x: Contact)
    requires Deployed(c) && Inv(c, s) && 0 <= t < |s.tasks| && s.contacts[t] == Some(x) &&
      ReadBy(s.tasks[t]) < x.written
    ensures CanRead(s, t)
  {
    hide HostList.Table, Kids, Parent, Left, RankOk, PartyOk, ViewOf, Expected;
    assert TaskOk(c, s, t);
    MessageUnderstood(c, s.tasks[t], x.rank);
    UnderwaySplit(c, x.rank, s.tasks[t].read, x.written);
  }

  // A party whose next child has not been contacted finds a task for it.
  lemma NextCanBeMet(c: Config, s: TreeState, p: int) returns (m: Move)
    requires Deployed(c) && Inv(c, s) && SERVER <= p < |s.tasks| && ViewOf(c, s, p).Some?
    requires ViewOf(c, s, p).value.talk.to == None && ViewOf(c, s, p).value.talk.next < |ViewOf(c, s, p).value.ranks|
    ensures Enabled(c, s, m)
  {
    hide HostList.Table, HostList.Expand, Kids, Parent, RankOk, TaskOk, ViewOf, Left;
    assert PartyOk(c, s, p);
    var v := ViewOf(c, s, p).value;
    var rank := v.ranks[v.talk.next];
    OneGoes(c.hosts, s.holders, rank, 0);
    var t := SomeoneLeft(c.home, s.contacts, c.hosts[rank]);
    HostList.ExpandRoundTrip(c.hosts, rank);
    Uncontacted(c, s, t);
    m := Meet(p, t);
  }

  lemma Uncontacted(c: Config, s: TreeState, t: int)
    requires Inv(c, s) && 0 <= t < |s.tasks| && s.contacts[t].None?
    ensures s.tasks[t].Listening?
  {
    assert TaskOk(c, s, t);
  }

  lemma ParentBelow(n: nat, r: int)
    requires 0 < r < n
    ensures 0 <= Parent(n, r) < r && Lists(Kids(n, Parent(n, r)), r)
  {
    hide Kids, Parent, Lists;
    RootHasNoParent(n);
    ParentInSpan(n, 0, r);
    ChildrenMatchParents(n, Parent(n, r), r);
  }

  // As long as some rank has no task, some party can move.
  lemma {:induction false} RankCanGoOn(c: Config, s: TreeState, r: int) returns (m: Move)
    requires Deployed(c) && Inv(c, s) && 0 <= r < |s.holders| && s.holders[r].None?
    ensures Enabled(c, s, m)
    decreases r
  {
    hide HostList.Table, Kids, Parent, Left, Enabled, Understood, Underway, ViewOf;
    if r == 0 {
      assert PartyOk(c, s, SERVER);
      ServerView(c, s);
      assert ViewOf(c, s, SERVER).value.ranks[0] == 0;
      m := NextCanBeMet(c, s, SERVER);
    } else {
      ParentBelow(|c.hosts|, r);
      var p := Parent(|c.hosts|, r);
      assert RankOk(c, s, p);
      if s.holders[p].None? {
        m := RankCanGoOn(c, s, p);
      } else {
        m := ParentCanGoOn(c, s, r, p, s.holders[p].value);
      }
    }
  }

  lemma ServerView(c: Config, s: TreeState)
    ensures ViewOf(c, s, SERVER) == Some(View([0], |c.hosts|, HostList.Table(c.hosts), s.server))
  {
  }

  lemma ParentCanGoOn(c: Config, s: TreeState, r: int, p: int, b: int) returns (m: Move)
    requires Deployed(c) && Inv(c, s) && 0 < r < |s.holders| && s.holders[r].None? && p == Parent(|c.hosts|, r)
    requires 0 <= p < |s.holders| && s.holders[p] == Some(b) && Lists(Kids(|c.hosts|, p), r)
    ensures Enabled(c, s, m)
  {
    hide HostList.Table, Kids, Parent, Left, Underway;
    assert RankOk(c, s, p);
    assert TaskOk(c, s, b);
    if !s.tasks[b].Running? {
      m := ContactedCanGoOn(c, s, b);
    } else {
      ViewOfTask(c, s, b);
      assert PartyOk(c, s, b);
      var v := ViewOf(c, s, b).value;
      var j :| 0 <= j < |Kids(|c.hosts|, p)| && Kids(|c.hosts|, p)[j].rank == r;
      assert v.ranks[j] == r;
      if v.talk.to.Some? {
        m := Write(b);
      } else {
        m := NextCanBeMet(c, s, b);
      }
    }
  }

  lemma Progress(c: Config, s: TreeState) returns (m: Move)
    requires Deployed(c) && Inv(c, s) && Sum(Costs(s)) > 0
    ensures Enabled(c, s, m)
  {
    hide HostList.Table, Kids, Parent, Enabled, Sum, TaskOk, RankOk, PartyOk;
    var t := SomeoneCosts(Costs(s));
    if s.contacts[t].Some? {
      m := ContactedCanGoOn(c, s, t);
    } else {
      OneGoes(c.home, s.contacts, t, Contact(0, 0, 0));
      var r := SomeoneLeft(c.hosts, s.holders, c.home[t]);
      m := RankCanGoOn(c, s, r);
    }
  }

  lemma {:induction false} SomeoneCosts(a: seq<int>) returns (t: nat)
    requires Sum(a) > 0
    ensures t < |a| && a[t] > 0
  {
    if a[|a| - 1] > 0 {
      t := |a| - 1;
    } else {
      t := SomeoneCosts(a[..|a| - 1]);
    }
  }

  // ----- the tree is open

  // Every task runs as the rank of its own host, one task a rank, contacted by the task of the parent rank,
  // has the whole list, and has contacted all its children; nothing is left on the sockets.
  ghost predicate Open(c: Config, s: TreeState) {
    Sized(c, s) && s.server == Talk(1, None, 0) &&
    (forall t :: 0 <= t < |s.tasks| ==>
      s.tasks[t].Running? &&
      var me, n := s.tasks[t].me, |c.hosts|;
      0 <= me < n && c.hosts[me] == c.home[t] && s.sockets[t] == [] &&
      s.tasks[t] == Running(me, n, HostList.Table(c.hosts), Talk(|Kids(n, me)|, None, 0)) &&
      s.contacts[t].Some? && FromParent(c, s, s.contacts[t].value) && s.contacts[t].value.rank == me) &&
    forall r :: 0 <= r < |c.hosts| ==> HasTask(s, r)
  }

  // One task, and no other, runs as rank r.
  ghost predicate HasTask(s: TreeState, r: int) {
    0 <= r < |s.holders| && s.holders[r].Some? && 0 <= s.holders[r].value < |s.tasks| &&
    forall t :: 0 <= t < |s.tasks| && s.tasks[t].Running? ==> (s.tasks[t].me == r <==> t == s.holders[r].value)
  }

  lemma AllHeld(c: Config, s: TreeState)
    requires Inv(c, s) && forall t :: 0 <= t < |s.contacts| ==> s.contacts[t].Some?
    ensures forall r :: 0 <= r < |s.holders| ==> s.holders[r].Some?
  {
    hide HostList.Table, Kids, Parent, TaskOk, RankOk, PartyOk, Left;
    forall r | 0 <= r < |s.holders|
      ensures s.holders[r].Some?
    {
      if s.holders[r].None? {
        OneGoes(c.hosts, s.holders, r, 0);
        var t := SomeoneLeft(c.home, s.contacts, c.hosts[r]);
        assert false;
      }
    }
  }

  lemma PartyIsDone(c: Config, s: TreeState, p: int)
    requires Inv(c, s) && SERVER <= p < |s.tasks| && ViewOf(c, s, p).Some?
    requires forall t :: 0 <= t < |s.contacts| ==> s.contacts[t].Some? && s.contacts[t].value.written == MESSAGES
    requires forall r :: 0 <= r < |s.holders| ==> s.holders[r].Some?
    ensures var v := ViewOf(c, s, p).value; v.talk == Talk(|v.ranks|, None, 0)
  {
    hide HostList.Table, Kids, Parent, TaskOk, RankOk, ViewOf, Left;
    assert PartyOk(c, s, p);
    var v := ViewOf(c, s, p).value;
    if v.ranks != [] { assert s.holders[v.ranks[|v.ranks| - 1]].Some?; }
  }

  lemma TaskIsDone(c: Config, s: TreeState, t: int)
    requires Inv(c, s) && 0 <= t < |s.tasks| && s.contacts[t].Some? && CostOf(s.contacts[t], s.tasks[t]) == 0
    ensures s.contacts[t].value.written == MESSAGES && s.tasks[t].Running? && s.sockets[t] == []
    ensures FromParent(c, s, s.contacts[t].value) && s.contacts[t].value.rank == s.tasks[t].me
  {
    hide HostList.Table, Kids, Parent, RankOk, PartyOk, ViewOf, Left;
    assert TaskOk(c, s, t);
    UnderwayNone(c, s.contacts[t].value.rank, MESSAGES, MESSAGES);
  }

  lemma RankIsTaken(c: Config, s: TreeState, r: int)
    requires Inv(c, s) && 0 <= r < |s.holders| && s.holders[r].Some?
    requires forall t :: 0 <= t < |s.tasks| ==> s.tasks[t].Running?
    ensures HasTask(s, r)
  {
    hide HostList.Table, Kids, Parent, PartyOk, ViewOf, Left, Underway, TaskOk;
    assert RankOk(c, s, r);
    ViewOfTask(c, s, s.holders[r].value);
    assert TaskOk(c, s, s.holders[r].value);
    forall t | 0 <= t < |s.tasks|
      ensures s.tasks[t].me == r <==> t == s.holders[r].value
    {
      ViewOfTask(c, s, t);
      HeldRank(c, s, r);
    }
  }

  lemma HeldRank(c: Config, s: TreeState, r: int)
    requires Inv(c, s) && 0 <= r < |s.holders| && s.holders[r].Some? &&
      forall t :: 0 <= t < |s.tasks| ==> s.tasks[t].Running?
    ensures 0 <= s.holders[r].value < |s.tasks| && s.tasks[s.holders[r].value].me == r
  {
    hide HostList.Table, Kids, Parent, PartyOk, ViewOf, Left, Underway;
    assert RankOk(c, s, r);
    assert TaskOk(c, s, s.holders[r].value);
  }

  lemma FreeIsOpen(c: Config, s: TreeState)
    requires Inv(c, s) && forall t :: 0 <= t < |s.tasks| ==> CostOf(s.contacts[t], s.tasks[t]) == 0
    ensures Open(c, s)
  {
    hide HostList.Table, Kids, Parent, PartyOk, Left, TaskOk, RankOk, FromParent, HasTask;
    forall t | 0 <= t < |s.tasks|
      ensures s.contacts[t].Some? && s.contacts[t].value.written == MESSAGES && s.tasks[t].Running? &&
        s.sockets[t] == []
      ensures 0 <= s.tasks[t].me < |c.hosts| && c.hosts[s.tasks[t].me] == c.home[t]
      ensures FromParent(c, s, s.contacts[t].value) && s.contacts[t].value.rank == s.tasks[t].me
    {
      TaskIsDone(c, s, t);
      HomeOf(c, s, t);
    }
    AllHeld(c, s);
    PartyIsDone(c, s, SERVER);
    forall t | 0 <= t < |s.tasks|
      ensures s.tasks[t] == Running(s.tasks[t].me, |c.hosts|, HostList.Table(c.hosts),
        Talk(|Kids(|c.hosts|, s.tasks[t].me)|, None, 0))
    {
      ViewOfTask(c, s, t);
      PartyIsDone(c, s, t);
    }
    forall r | 0 <= r < |c.hosts|
      ensures HasTask(s, r)
    {
      RankIsTaken(c, s, r);
    }
  }

  lemma CostsAreCosts(c: Config, s: TreeState)
    requires Inv(c, s)
    ensures forall t :: 0 <= t < |s.tasks| ==> CostOf(s.contacts[t], s.tasks[t]) >= 0
  {
    hide HostList.Table, Kids, Parent, PartyOk, Left, RankOk, ViewOf, Underway;
    forall t | 0 <= t < |s.tasks|
      ensures CostOf(s.contacts[t], s.tasks[t]) >= 0
    {
      assert TaskOk(c, s, t);
    }
  }

  // A running task knows the rank, the number of ranks and the list of its own host, and no other running task
  // has that rank.
  ghost predicate Assigned(c: Config, s: TreeState) {
    Sized(c, s) && forall t :: 0 <= t < |s.tasks| && s.tasks[t].Running? ==>
      0 <= s.tasks[t].me < |c.hosts| && c.hosts[s.tasks[t].me] == c.home[t] &&
      s.tasks[t].nprocs == |c.hosts| && s.tasks[t].table == HostList.Table(c.hosts) &&
      forall u :: 0 <= u < |s.tasks| && s.tasks[u].Running? && s.tasks[u].me == s.tasks[t].me ==> u == t
  }

  lemma RunningIsAssigned(c: Config, s: TreeState)
    requires Inv(c, s)
    ensures Assigned(c, s)
  {
    hide HostList.Table, Kids, Parent, PartyOk, Left, RankOk, Underway, TaskOk;
    forall t | 0 <= t < |s.tasks| && s.tasks[t].Running?
      ensures 0 <= s.tasks[t].me < |c.hosts| && c.hosts[s.tasks[t].me] == c.home[t] &&
        s.holders[s.tasks[t].me] == Some(t)
    {
      ViewOfTask(c, s, t);
      HomeOf(c, s, t);
    }
    forall t | 0 <= t < |s.tasks| && s.tasks[t].Running?
      ensures s.tasks[t].nprocs == |c.hosts| && s.tasks[t].table == HostList.Table(c.hosts)
    {
      ViewOfTask(c, s, t);
    }
  }

  lemma HomeOf(c: Config, s: TreeState, t: int)
    requires Inv(c, s) && 0 <= t < |s.tasks| && s.tasks[t].Running?
    ensures 0 <= s.tasks[t].me < |c.hosts| && c.hosts[s.tasks[t].me] == c.home[t]
  {
    hide HostList.Table, Kids, Parent, PartyOk, Left, RankOk, Underway, ViewOf;
    assert TaskOk(c, s, t);
  }

  lemma OpeningIsOnSchedule(c: Config, moves: seq<Move>, s: TreeState)
    requires Deployed(c) && After(c, Init(c), moves) == Some(s)
    ensures OnSchedule(c, |moves|, s)
  {
    hide HostList.Table, Kids, Parent, PartyOk, Left, TaskOk, RankOk, Open, Enabled, Assigned, After;
    InitHolds(c);
    SumAll(Costs(Init(c)), 9);
    MovesCost(c, Init(c), moves, s);
    RunningIsAssigned(c, s);
    CostsAreCosts(c, s);
    SumZero(Costs(s));
    if |moves| < 9 * |c.hosts| {
      var m := Progress(c, s);
    } else {
      assert forall t :: 0 <= t < |s.tasks| ==> Costs(s)[t] == CostOf(s.contacts[t], s.tasks[t]);
      FreeIsOpen(c, s);
    }
  }

  // What holds after a number of moves: ranks are assigned rightly, and either some party can move or, after 9 n
  // moves, the tree is open.
  ghost predicate OnSchedule(c: Config, moves: nat, s: TreeState) {
    Assigned(c, s) && moves <= 9 * |c.hosts| &&
    (moves < 9 * |c.hosts| ==> exists m :: Enabled(c, s, m)) &&
    (moves == 9 * |c.hosts| ==> Open(c, s))
  }

  // For any list of hosts and any tasks on them, in whatever order the parties move: ranks are at no time
  // assigned wrongly or twice; as long as fewer than 9 n moves have been made, some party can move; and after
  // 9 n moves, neither earlier nor later, the tree is open.
  lemma EveryOpening(c: Config)
    requires Deployed(c)
    ensures forall moves, s :: After(c, Init(c), moves) == Some(s) ==> OnSchedule(c, |moves|, s)
  {
    hide OnSchedule, After, Init, Deployed;
    forall moves, s | After(c, Init(c), moves) == Some(s)
      ensures OnSchedule(c, |moves|, s)
    {
      OpeningIsOnSchedule(c, moves, s);
    }
  }
}
