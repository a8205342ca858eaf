// The tool protocol of Blue Gene/Q: the ranks of a daemon are grouped by compute node, with one socket per
// node; every request carries a sequence number that its acknowledgement must repeat.
module BlueGeneQ {
  import opened Lmonp

  // A rank on its compute node.
  datatype Visit = Visit(node: int, rank: int)
  datatype Group = Group(node: int, ranks: seq<int>)

  datatype Request =
    | AttachAll(node: int)
    | DetachAll(node: int)
    | Acquire(at: Visit)
    | Stop(at: Visit)
    | ReleaseControl(at: Visit)
    | ListThreads(at: Visit)
    | ReleaseThread(at: Visit, tid: int)
    | HoldThread(at: Visit, tid: int)

  datatype Reply = Ack(request: Request, number: nat) | StopNotice

  // ----- grouping

  function OfGroup(g: Group): (list: seq<Visit>) {
    seq(|g.ranks|, i requires 0 <= i < |g.ranks| => Visit(g.node, g.ranks[i]))
  }

  // All ranks in the order in which the nested loops come to them.
  function Visits(groups: seq<Group>): (list: seq<Visit>) {
    if groups == [] then [] else OfGroup(groups[0]) + Visits(groups[1..])
  }

  // The groups stay sorted by node, and a rank goes to the end of its group.
  function Insert(groups: seq<Group>, v: Visit): (list: seq<Group>) {
    if groups == [] || v.node < groups[0].node then [Group(v.node, [v.rank])] + groups
    else if v.node == groups[0].node then [Group(v.node, groups[0].ranks + [v.rank])] + groups[1..]
    else [groups[0]] + Insert(groups[1..], v)
  }

  function Grouped(ptab: seq<Visit>): (list: seq<Group>) {
    if ptab == [] then [] else Insert(Grouped(ptab[..|ptab| - 1]), ptab[|ptab| - 1])
  }

  ghost predicate Sorted(groups: seq<Group>) {
    forall i, j :: 0 <= i < j < |groups| ==> groups[i].node < groups[j].node
  }

  lemma {:induction false} InsertKeeps(groups: seq<Group>, v: Visit)
    requires Sorted(groups)
    ensures Sorted(Insert(groups, v)) && multiset(Visits(Insert(groups, v))) == multiset(Visits(groups)) + multiset{v}
    ensures groups != [] ==> Insert(groups, v)[0].node == if v.node < groups[0].node then v.node else groups[0].node
  {
    hide Visits, OfGroup, Notices;
    if groups == [] || v.node < groups[0].node {
      GroupOne(v);
      VisitsCons(Group(v.node, [v.rank]), groups);
    } else if v.node == groups[0].node {
      var g := Group(v.node, groups[0].ranks + [v.rank]);
      GroupMore(groups[0], v);
      VisitsCons(groups[0], groups[1..]);
      VisitsCons(g, groups[1..]);
      assert groups == [groups[0]] + groups[1..];
    } else {
      var rest := Insert(groups[1..], v);
      InsertKeeps(groups[1..], v);
      VisitsCons(groups[0], groups[1..]);
      VisitsCons(groups[0], rest);
      assert groups == [groups[0]] + groups[1..];
      InsertBehind(groups, rest, v);
    }
  }

  lemma VisitsCons(g: Group, rest: seq<Group>)
    ensures Visits([g] + rest) == OfGroup(g) + Visits(rest)
  {
    assert ([g] + rest)[1..] == rest;
  }

  lemma GroupOne(v: Visit)
    ensures OfGroup(Group(v.node, [v.rank])) == [v]
  {
  }

  lemma GroupMore(g: Group, v: Visit)
    requires g.node == v.node
    ensures OfGroup(Group(v.node, g.ranks + [v.rank])) == OfGroup(g) + [v]
  {
  }

  lemma InsertBehind(groups: seq<Group>, rest: seq<Group>, v: Visit)
    requires groups != [] && Sorted(groups) && v.node > groups[0].node && Sorted(rest) && rest == Insert(groups[1..], v)
    requires |groups| > 1 ==> rest[0].node == if v.node < groups[1].node then v.node else groups[1].node
    ensures Sorted([groups[0]] + rest)
  {
    var all := [groups[0]] + rest;
    forall i, j | 0 <= i < j < |all|
      ensures all[i].node < all[j].node
    {
      if i == 0 && j > 1 { assert rest[0].node < rest[j - 1].node; }
      if i > 0 { assert rest[i - 1].node < rest[j - 1].node; }
    }
  }

  lemma NoVisits()
    ensures Visits([]) == []
  {
  }

  // No rank is skipped and none comes twice: the loops visit each entry of the table once.
  lemma {:induction false} VisitsAreTable(ptab: seq<Visit>)
    ensures Sorted(Grouped(ptab)) && multiset(Visits(Grouped(ptab))) == multiset(ptab)
  {
    hide Insert, Visits;
    if ptab == [] {
      NoVisits();
    } else {
      var front, last := ptab[..|ptab| - 1], ptab[|ptab| - 1];
      VisitsAreTable(front);
      InsertKeeps(Grouped(front), last);
      assert ptab == front + [last];
    }
  }

  lemma {:induction false} VisitsAppend(groups: seq<Group>, g: Group)
    ensures Visits(groups + [g]) == Visits(groups) + OfGroup(g)
  {
    if groups == [] {
      assert Visits([g]) == OfGroup(g) + Visits([]);
    } else {
      assert (groups + [g])[1..] == groups[1..] + [g];
      VisitsAppend(groups[1..], g);
    }
  }

  // ----- what the rounds ask for

  datatype Kind = Acquiring | Stopping | Releasing

  function Ask(kind: Kind, v: Visit): (request: Request) {
    match kind
    case Acquiring => Acquire(v)
    case Stopping => Stop(v)
    case Releasing => ReleaseControl(v)
  }

  function Asks(kind: Kind, visits: seq<Visit>): (list: seq<Request>) {
    seq(|visits|, i requires 0 <= i < |visits| => Ask(kind, visits[i]))
  }

  function NodeAsks(attach: bool, groups: seq<Group>): (list: seq<Request>) {
    seq(|groups|, i requires 0 <= i < |groups| =>
        if attach then AttachAll(groups[i].node) else DetachAll(groups[i].node))
  }

  function ThreadAsk(hold: bool, v: Visit, tid: int): (request: Request) {
    if hold then HoldThread(v, tid) else ReleaseThread(v, tid)
  }

  function AsksOfThreads(hold: bool, v: Visit, tids: seq<int>): (list: seq<Request>) {
    seq(|tids|, i requires 0 <= i < |tids| => ThreadAsk(hold, v, tids[i]))
  }

  // For every rank the list of its threads, then one request for each of them.
  function ThreadAsks(hold: bool, visits: seq<Visit>, threads: int -> seq<int>): (list: seq<Request>) {
    if visits == [] then []
    else
      var last := visits[|visits| - 1];
      ThreadAsks(hold, visits[..|visits| - 1], threads) + [ListThreads(last)] +
        AsksOfThreads(hold, last, threads(last.rank))
  }

  function Count(visits: seq<Visit>, node: int): (v: nat) {
    if visits == [] then 0 else (if visits[0].node == node then 1 else 0) + Count(visits[1..], node)
  }

  lemma {:induction false} CountConcat(a: seq<Visit>, b: seq<Visit>, node: int)
    ensures Count(a + b, node) == Count(a, node) + Count(b, node)
  {
    if a == [] {
      assert a + b == b;
    } else {
      assert (a + b)[1..] == a[1..] + b;
      CountConcat(a[1..], b, node);
    }
  }

  lemma {:induction false} CountOfGroup(g: Group, node: int)
    ensures Count(OfGroup(g), node) == if g.node == node then |g.ranks| else 0
    decreases |g.ranks|
  {
    if g.ranks != [] {
      var rest := Group(g.node, g.ranks[1..]);
      assert OfGroup(g)[1..] == OfGroup(rest);
      CountOfGroup(rest, node);
    }
  }

  lemma {:induction false} CountElsewhere(groups: seq<Group>, node: int)
    requires forall i :: 0 <= i < |groups| ==> groups[i].node != node
    ensures Count(Visits(groups), node) == 0
  {
    if groups != [] {
      CountConcat(OfGroup(groups[0]), Visits(groups[1..]), node);
      CountOfGroup(groups[0], node);
      CountElsewhere(groups[1..], node);
    }
  }

  // Of a node's notices, as many are left as it has ranks.
  lemma {:induction false} CountAt(groups: seq<Group>, i: nat)
    requires Sorted(groups) && i < |groups|
    ensures Count(Visits(groups), groups[i].node) == |groups[i].ranks|
  {
    var node := groups[i].node;
    CountConcat(OfGroup(groups[0]), Visits(groups[1..]), node);
    CountOfGroup(groups[0], node);
    if i == 0 {
      CountElsewhere(groups[1..], node);
    } else {
      assert groups[1..][i - 1] == groups[i];
      CountAt(groups[1..], i - 1);
    }
  }

  lemma AsksConcat(kind: Kind, a: seq<Visit>, b: seq<Visit>)
    ensures Asks(kind, a + b) == Asks(kind, a) + Asks(kind, b)
  {
  }

  lemma NoAsks(kind: Kind, hold: bool, threads: int -> seq<int>)
    ensures Visits([]) == [] && Asks(kind, []) == [] && ThreadAsks(hold, [], threads) == []
  {
  }

  lemma OneThreadAsk(hold: bool, front: seq<Visit>, v: Visit, threads: int -> seq<int>)
    ensures ThreadAsks(hold, front + [v], threads) ==
      ThreadAsks(hold, front, threads) + ([ListThreads(v)] + AsksOfThreads(hold, v, threads(v.rank)))
  {
    assert (front + [v])[..|front|] == front;
  }

  function Notices(k: nat): (r: seq<Reply>)
    ensures |r| == k
  {
    if k == 0 then [] else [StopNotice] + Notices(k - 1)
  }

  lemma {:induction false} OneMoreNotice(k: nat)
    ensures Notices(k + 1) == Notices(k) + [StopNotice] && Notices(k + 1)[1..] == Notices(k) &&
      Notices(k + 1)[0] == StopNotice
  {
    if k > 0 { OneMoreNotice(k - 1); }
  }

  // The notices of a node when all its ranks have been stopped.
  function Owing(groups: seq<Group>, node: int): (list: seq<Reply>) { Notices(Count(Visits(groups), node)) }

  ghost predicate Among(groups: seq<Group>, node: int) { exists k :: 0 <= k < |groups| && groups[k].node == node }

  lemma AmongNext(groups: seq<Group>, i: nat)
    requires Sorted(groups) && i < |groups|
    ensures !Among(groups[..i], groups[i].node)
    ensures forall node :: Among(groups[..i + 1], node) <==> Among(groups[..i], node) || node == groups[i].node
  {
    assert groups[..i + 1] == groups[..i] + [groups[i]];
    assert groups[..i + 1][i] == groups[i];
    forall node | Among(groups[..i], node)
      ensures Among(groups[..i + 1], node)
    {
      var k :| 0 <= k < |groups[..i]| && groups[..i][k].node == node;
      assert groups[..i + 1][k].node == node;
    }
  }

  lemma NobodyAmong()
    ensures forall node :: !Among([], node)
  {
  }

  lemma OwingElsewhere(groups: seq<Group>, node: int)
    requires !Among(groups, node)
    ensures Owing(groups, node) == []
  {
    CountElsewhere(groups, node);
  }

  lemma OwingAt(groups: seq<Group>, i: nat)
    requires Sorted(groups) && i < |groups|
    ensures Owing(groups, groups[i].node) == Notices(|groups[i].ranks|)
  {
    CountAt(groups, i);
  }

  // A round over the ranks takes control of them, stops them or gives control of them up, in their order.
  ghost predicate OnePerRank(part: seq<Request>, kind: Kind, visits: seq<Visit>) {
    |part| == |visits| && forall i :: 0 <= i < |part| ==>
      (kind == Acquiring ==> part[i] == Acquire(visits[i])) &&
      (kind == Stopping ==> part[i] == Stop(visits[i])) &&
      (kind == Releasing ==> part[i] == ReleaseControl(visits[i]))
  }

  lemma AsksAre(kind: Kind, visits: seq<Visit>)
    ensures OnePerRank(Asks(kind, visits), kind, visits)
  {
  }

  // ----- how often each request is made, and in which order

  ghost predicate OnNode(ptab: seq<Visit>, node: int) { exists i :: 0 <= i < |ptab| && ptab[i].node == node }

  function Times<T(==)>(list: seq<T>, x: T): (k: nat) { multiset(list)[x] }

  // Before the tool has its data the tool takes control of all ranks, lets their threads go and stops the ranks.
  ghost predicate Opens(sent: seq<Request>, ptab: seq<Visit>, threads: int -> seq<int>) {
    (forall node :: Times(sent, AttachAll(node)) == if OnNode(ptab, node) then 1 else 0) &&
    (forall v :: Times(sent, Acquire(v)) == Times(ptab, v)) &&
    (forall v :: Times(sent, Stop(v)) == Times(ptab, v)) &&
    (forall v :: Times(sent, ListThreads(v)) == Times(ptab, v)) &&
    (forall v, tid ::
      Times(sent, ReleaseThread(v, tid)) == Times(ptab, v) * Times(threads(v.rank), tid)) &&
    (forall r :: r in sent ==> r.AttachAll? || r.Acquire? || r.Stop? || r.ListThreads? || r.ReleaseThread?) &&
    forall i, j :: 0 <= i < j < |sent| ==>
      (sent[j].AttachAll? ==> sent[i].AttachAll?) &&
      (sent[j].Acquire? ==> sent[i].AttachAll? || sent[i].Acquire?) &&
      (sent[i].Stop? ==> sent[j].Stop?)
  }

  // When the tool is done the threads are held, control is given up, and the nodes are left.
  ghost predicate Closes(sent: seq<Request>, ptab: seq<Visit>, threads: int -> seq<int>) {
    (forall node :: Times(sent, DetachAll(node)) == if OnNode(ptab, node) then 1 else 0) &&
    (forall v :: Times(sent, ReleaseControl(v)) == Times(ptab, v)) &&
    (forall v :: Times(sent, ListThreads(v)) == Times(ptab, v)) &&
    (forall v, tid ::
      Times(sent, HoldThread(v, tid)) == Times(ptab, v) * Times(threads(v.rank), tid)) &&
    (forall r :: r in sent ==> r.ListThreads? || r.HoldThread? || r.ReleaseControl? || r.DetachAll?) &&
    forall i, j :: 0 <= i < j < |sent| ==>
      (sent[i].DetachAll? ==> sent[j].DetachAll?) &&
      (sent[i].ReleaseControl? ==> sent[j].ReleaseControl? || sent[j].DetachAll?)
  }

  // A thread is dealt with right behind the list of its rank's threads, or behind another thread of that list.
  ghost predicate Listed(sent: seq<Request>) {
    forall i :: 0 <= i < |sent| && (sent[i].ReleaseThread? || sent[i].HoldThread?) ==>
      i > 0 && (sent[i - 1] == ListThreads(sent[i].at) ||
        (sent[i].ReleaseThread? && sent[i - 1].ReleaseThread? && sent[i - 1].at == sent[i].at) ||
        (sent[i].HoldThread? && sent[i - 1].HoldThread? && sent[i - 1].at == sent[i].at))
  }

  // Every x comes before every y.
  ghost predicate Precedes(sent: seq<Request>, x: Request, y: Request) {
    forall i, j :: 0 <= i < |sent| && 0 <= j < |sent| && sent[i] == x && sent[j] == y ==> i < j
  }

  // The rank is attached to, taken over, stopped, released and detached from, in this order; its threads are let go
  // before the stop and held behind it, while the tool is in control.
  ghost predicate Guarded(sent: seq<Request>, v: Visit) {
    AttachAll(v.node) in sent && Acquire(v) in sent && Stop(v) in sent && ReleaseControl(v) in sent &&
    DetachAll(v.node) in sent &&
    Precedes(sent, AttachAll(v.node), Acquire(v)) && Precedes(sent, Acquire(v), Stop(v)) &&
    Precedes(sent, Stop(v), ReleaseControl(v)) && Precedes(sent, ReleaseControl(v), DetachAll(v.node)) &&
    forall tid ::
      Precedes(sent, Acquire(v), ReleaseThread(v, tid)) && Precedes(sent, ReleaseThread(v, tid), Stop(v)) &&
      Precedes(sent, Stop(v), HoldThread(v, tid)) && Precedes(sent, HoldThread(v, tid), ReleaseControl(v))
  }

  lemma OpensBefore(sent: seq<Request>, ptab: seq<Visit>, threads: int -> seq<int>, v: Visit, tid: int)
    requires Opens(sent, ptab, threads)
    ensures Precedes(sent, AttachAll(v.node), Acquire(v)) && Precedes(sent, Acquire(v), Stop(v))
    ensures Precedes(sent, Acquire(v), ReleaseThread(v, tid)) && Precedes(sent, ReleaseThread(v, tid), Stop(v))
    ensures ReleaseControl(v) !in sent && DetachAll(v.node) !in sent && HoldThread(v, tid) !in sent
  {
    hide Times, OnNode;
  }

  lemma OpensWith(sent: seq<Request>, ptab: seq<Visit>, threads: int -> seq<int>, v: Visit)
    requires Opens(sent, ptab, threads) && v in ptab
    ensures AttachAll(v.node) in sent && Acquire(v) in sent && Stop(v) in sent
  {
    hide Times;
    assert OnNode(ptab, v.node);
    OftenEnough(ptab, v);
    InTimes(sent, AttachAll(v.node));
    InTimes(sent, Acquire(v));
    InTimes(sent, Stop(v));
  }

  lemma OftenEnough(ptab: seq<Visit>, v: Visit)
    requires v in ptab
    ensures Times(ptab, v) > 0
  {
    assert v in multiset(ptab);
  }

  lemma ClosesBefore(sent: seq<Request>, ptab: seq<Visit>, threads: int -> seq<int>, v: Visit, tid: int)
    requires Closes(sent, ptab, threads)
    ensures Precedes(sent, HoldThread(v, tid), ReleaseControl(v)) &&
      Precedes(sent, ReleaseControl(v), DetachAll(v.node))
    ensures Acquire(v) !in sent && AttachAll(v.node) !in sent && Stop(v) !in sent && ReleaseThread(v, tid) !in sent
  {
    hide Times, OnNode;
  }

  lemma ClosesWith(sent: seq<Request>, ptab: seq<Visit>, threads: int -> seq<int>, v: Visit)
    requires Closes(sent, ptab, threads) && v in ptab
    ensures ReleaseControl(v) in sent && DetachAll(v.node) in sent
  {
    hide Times;
    assert OnNode(ptab, v.node);
    OftenEnough(ptab, v);
    InTimes(sent, ReleaseControl(v));
    InTimes(sent, DetachAll(v.node));
  }

  lemma PrecedesIn(a: seq<Request>, b: seq<Request>, x: Request, y: Request)
    requires (Precedes(a, x, y) && x !in b && y !in b) || (Precedes(b, x, y) && x !in a && y !in a) ||
      (x !in b && y !in a)
    ensures Precedes(a + b, x, y)
  {
    var all := a + b;
    forall i, j | 0 <= i < |all| && 0 <= j < |all| && all[i] == x && all[j] == y
      ensures i < j
    {
      assert i < |a| ==> a[i] == x;
      assert i >= |a| ==> b[i - |a|] == x;
      assert j < |a| ==> a[j] == y;
      assert j >= |a| ==> b[j - |a|] == y;
    }
  }

  // Whatever ranks there are, on whatever nodes and with whatever threads.
  lemma BothGuard(first: seq<Request>, second: seq<Request>, ptab: seq<Visit>, threads: int -> seq<int>)
    requires Opens(first, ptab, threads) && Closes(second, ptab, threads)
    ensures forall v :: v in ptab ==> Guarded(first + second, v)
  {
    hide Opens, Closes, Precedes;
    forall v | v in ptab
      ensures Guarded(first + second, v)
    {
      OpensWith(first, ptab, threads, v);
      ClosesWith(second, ptab, threads, v);
      OpensBefore(first, ptab, threads, v, 0);
      ClosesBefore(second, ptab, threads, v, 0);
      PrecedesIn(first, second, AttachAll(v.node), Acquire(v));
      PrecedesIn(first, second, Acquire(v), Stop(v));
      PrecedesIn(first, second, Stop(v), ReleaseControl(v));
      PrecedesIn(first, second, ReleaseControl(v), DetachAll(v.node));
      forall tid: int
        ensures Precedes(first + second, Acquire(v), ReleaseThread(v, tid))
        ensures Precedes(first + second, ReleaseThread(v, tid), Stop(v))
        ensures Precedes(first + second, Stop(v), HoldThread(v, tid))
        ensures Precedes(first + second, HoldThread(v, tid), ReleaseControl(v))
      {
        OpensBefore(first, ptab, threads, v, tid);
        ClosesBefore(second, ptab, threads, v, tid);
        PrecedesIn(first, second, Acquire(v), ReleaseThread(v, tid));
        PrecedesIn(first, second, ReleaseThread(v, tid), Stop(v));
        PrecedesIn(first, second, Stop(v), HoldThread(v, tid));
        PrecedesIn(first, second, HoldThread(v, tid), ReleaseControl(v));
      }
    }
  }

  // ----- the rounds do so

  lemma {:induction false} CountAsks(kind: Kind, visits: seq<Visit>, r: Request)
    ensures Times(Asks(kind, visits), r) ==
      if (kind.Acquiring? && r.Acquire?) || (kind.Stopping? && r.Stop?) || (kind.Releasing? && r.ReleaseControl?) then
        Times(visits, r.at)
      else 0
  {
    if visits != [] {
      var front, last := visits[..|visits| - 1], visits[|visits| - 1];
      assert visits == front + [last];
      CountAsks(kind, front, r);
      assert Asks(kind, visits) == Asks(kind, front) + [Ask(kind, last)];
    }
  }

  lemma {:induction false} CountThread(hold: bool, v: Visit, tids: seq<int>, r: Request)
    ensures Times(AsksOfThreads(hold, v, tids), r) ==
      if ((hold && r.HoldThread?) || (!hold && r.ReleaseThread?)) && r.at == v then Times(tids, r.tid) else 0
  {
    if tids != [] {
      var front, last := tids[..|tids| - 1], tids[|tids| - 1];
      assert tids == front + [last];
      CountThread(hold, v, front, r);
      assert AsksOfThreads(hold, v, tids) == AsksOfThreads(hold, v, front) + [ThreadAsk(hold, v, last)];
    }
  }

  lemma TimesConcat<T>(a: seq<T>, b: seq<T>, x: T)
    ensures Times(a + b, x) == Times(a, x) + Times(b, x)
  {
  }

  lemma TimesOne<T>(x: T, y: T)
    ensures Times([x], y) == if x == y then 1 else 0
  {
  }

  lemma OneMore(k: nat, m: nat)
    ensures (k + 1) * m == k * m + m
  {
  }

  lemma {:induction false} CountThreads(hold: bool, visits: seq<Visit>, threads: int -> seq<int>, r: Request)
    ensures Times(ThreadAsks(hold, visits, threads), r) ==
      if (hold && r.HoldThread?) || (!hold && r.ReleaseThread?) then
        Times(visits, r.at) * Times(threads(r.at.rank), r.tid)
      else if r.ListThreads? then Times(visits, r.at)
      else 0
  {
    hide AsksOfThreads, Times;
    if visits == [] {
      NoTimes(r);
      if !r.AttachAll? && !r.DetachAll? { NoTimes(r.at); }
    } else {
      var front, last := visits[..|visits| - 1], visits[|visits| - 1];
      assert visits == front + [last];
      var all := ThreadAsks(hold, front, threads);
      CountThreads(hold, front, threads, r);
      CountThread(hold, last, threads(last.rank), r);
      TimesConcat(all, [ListThreads(last)], r);
      TimesConcat(all + [ListThreads(last)], AsksOfThreads(hold, last, threads(last.rank)), r);
      TimesOne(ListThreads(last), r);
      if !r.AttachAll? && !r.DetachAll? {
        TimesConcat(front, [last], r.at);
        TimesOne(last, r.at);
      }
      if r.HoldThread? || r.ReleaseThread? { OneMore(Times(front, r.at), Times(threads(r.at.rank), r.tid)); }
    }
  }

  lemma NoTimes<T>(x: T)
    ensures Times([], x) == 0
  {
  }

  lemma {:induction false} CountNodes(attach: bool, groups: seq<Group>, r: Request)
    requires Sorted(groups)
    ensures Times(NodeAsks(attach, groups), r) ==
      if ((attach && r.AttachAll?) || (!attach && r.DetachAll?)) && Among(groups, r.node) then 1 else 0
  {
    if groups != [] {
      var m := |groups| - 1;
      var front, last := groups[..m], groups[m];
      assert groups == front + [last] && groups[..m + 1] == groups;
      CountNodes(attach, front, r);
      AmongNext(groups, m);
      assert NodeAsks(attach, groups) == NodeAsks(attach, front) + [if attach then AttachAll(last.node)
                                                                    else DetachAll(last.node)];
    }
  }

  lemma {:induction false} AmongInsert(groups: seq<Group>, v: Visit, node: int)
    ensures Among(Insert(groups, v), node) <==> Among(groups, node) || node == v.node
  {
    if groups == [] || v.node < groups[0].node {
      AmongCons(Group(v.node, [v.rank]), groups, node);
    } else if v.node == groups[0].node {
      AmongCons(Group(v.node, groups[0].ranks + [v.rank]), groups[1..], node);
      AmongCons(groups[0], groups[1..], node);
      assert groups == [groups[0]] + groups[1..];
    } else {
      AmongInsert(groups[1..], v, node);
      AmongCons(groups[0], Insert(groups[1..], v), node);
      AmongCons(groups[0], groups[1..], node);
      assert groups == [groups[0]] + groups[1..];
    }
  }

  lemma AmongCons(g: Group, rest: seq<Group>, node: int)
    ensures Among([g] + rest, node) <==> g.node == node || Among(rest, node)
  {
    var all := [g] + rest;
    assert all[0] == g;
    if Among(rest, node) {
      var k :| 0 <= k < |rest| && rest[k].node == node;
      assert all[k + 1].node == node;
    }
    if Among(all, node) {
      var k :| 0 <= k < |all| && all[k].node == node;
      if k > 0 { assert rest[k - 1].node == node; }
    }
  }

  // The nodes of the groups are the nodes of the table.
  lemma {:induction false} AmongIsOnNode(ptab: seq<Visit>, node: int)
    ensures Among(Grouped(ptab), node) <==> OnNode(ptab, node)
  {
    hide Insert, Among;
    if ptab == [] {
      NobodyAmong();
    } else {
      var m := |ptab| - 1;
      AmongIsOnNode(ptab[..m], node);
      AmongInsert(Grouped(ptab[..m]), ptab[m], node);
      assert OnNode(ptab, node) <==> OnNode(ptab[..m], node) || ptab[m].node == node by {
        if OnNode(ptab, node) {
          var i :| 0 <= i < |ptab| && ptab[i].node == node;
          assert i < m ==> ptab[..m][i].node == node;
        }
      }
    }
  }

  lemma InAsks(kind: Kind, visits: seq<Visit>, r: Request)
    requires r in Asks(kind, visits)
    ensures if kind.Acquiring? then r.Acquire? else if kind.Stopping? then r.Stop? else r.ReleaseControl?
  {
  }

  lemma InNodeAsks(attach: bool, groups: seq<Group>, r: Request)
    requires r in NodeAsks(attach, groups)
    ensures if attach then r.AttachAll? else r.DetachAll?
  {
  }

  lemma {:induction false} InThreadAsks(hold: bool, visits: seq<Visit>, threads: int -> seq<int>, r: Request)
    requires r in ThreadAsks(hold, visits, threads)
    ensures r.ListThreads? || if hold then r.HoldThread? else r.ReleaseThread?
  {
    if visits != [] {
      var front := visits[..|visits| - 1];
      if r in ThreadAsks(hold, front, threads) { InThreadAsks(hold, front, threads, r); }
    }
  }

  lemma ListedConcat(a: seq<Request>, b: seq<Request>)
    requires Listed(a) && Listed(b)
    ensures Listed(a + b)
  {
    var all := a + b;
    forall i | 0 <= i < |all| && (all[i].ReleaseThread? || all[i].HoldThread?)
      ensures i > 0 && (all[i - 1] == ListThreads(all[i].at) ||
        (all[i].ReleaseThread? && all[i - 1].ReleaseThread? && all[i - 1].at == all[i].at) ||
        (all[i].HoldThread? && all[i - 1].HoldThread? && all[i - 1].at == all[i].at))
    {
      if i < |a| {
        assert all[i] == a[i];
      } else {
        assert all[i] == b[i - |a|];
      }
    }
  }

  lemma NoThreadsListed(part: seq<Request>)
    requires forall r :: r in part ==> !r.ReleaseThread? && !r.HoldThread?
    ensures Listed(part)
  {
  }

  lemma {:induction false} ThreadsListed(hold: bool, visits: seq<Visit>, threads: int -> seq<int>)
    ensures Listed(ThreadAsks(hold, visits, threads))
  {
    if visits != [] {
      var front, last := visits[..|visits| - 1], visits[|visits| - 1];
      ThreadsListed(hold, front, threads);
      ListedConcat(ThreadAsks(hold, front, threads), [ListThreads(last)] +
          AsksOfThreads(hold, last, threads(last.rank)));
      assert ThreadAsks(hold, front, threads) + ([ListThreads(last)] + AsksOfThreads(hold, last, threads(last.rank)))
        == ThreadAsks(hold, visits, threads);
    }
  }

  // What InitBgq sends.
  function Opening(groups: seq<Group>, threads: int -> seq<int>): (list: seq<Request>) {
    NodeAsks(true, groups) + Asks(Acquiring, Visits(groups)) + ThreadAsks(false, Visits(groups), threads) +
      Asks(Stopping, Visits(groups))
  }

  // What InitDoneBgq sends.
  function Closing(groups: seq<Group>, threads: int -> seq<int>): (list: seq<Request>) {
    ThreadAsks(true, Visits(groups), threads) + Asks(Releasing, Visits(groups)) + NodeAsks(false, groups)
  }

  lemma MembersOf(groups: seq<Group>, threads: int -> seq<int>)
    ensures forall r :: r in NodeAsks(true, groups) ==> r.AttachAll?
    ensures forall r :: r in NodeAsks(false, groups) ==> r.DetachAll?
    ensures forall r :: r in Asks(Acquiring, Visits(groups)) ==> r.Acquire?
    ensures forall r :: r in Asks(Stopping, Visits(groups)) ==> r.Stop?
    ensures forall r :: r in Asks(Releasing, Visits(groups)) ==> r.ReleaseControl?
    ensures forall r :: r in ThreadAsks(false, Visits(groups), threads) ==> r.ListThreads? || r.ReleaseThread?
    ensures forall r :: r in ThreadAsks(true, Visits(groups), threads) ==> r.ListThreads? || r.HoldThread?
  {
    hide Asks, NodeAsks, ThreadAsks, Visits;
    var visits := Visits(groups);
    forall r | r in NodeAsks(true, groups) ensures r.AttachAll? { InNodeAsks(true, groups, r); }
    forall r | r in NodeAsks(false, groups) ensures r.DetachAll? { InNodeAsks(false, groups, r); }
    forall r | r in Asks(Acquiring, visits) ensures r.Acquire? { InAsks(Acquiring, visits, r); }
    forall r | r in Asks(Stopping, visits) ensures r.Stop? { InAsks(Stopping, visits, r); }
    forall r | r in Asks(Releasing, visits) ensures r.ReleaseControl? { InAsks(Releasing, visits, r); }
    forall r | r in ThreadAsks(false, visits, threads) ensures r.ListThreads? || r.ReleaseThread? {
      InThreadAsks(false, visits, threads, r);
    }
    forall r | r in ThreadAsks(true, visits, threads) ensures r.ListThreads? || r.HoldThread? {
      InThreadAsks(true, visits, threads, r);
    }
  }

  lemma CountOpening(ptab: seq<Visit>, threads: int -> seq<int>, r: Request)
    ensures Times(Opening(Grouped(ptab), threads), r) ==
      if r.AttachAll? then (if OnNode(ptab, r.node) then 1 else 0)
      else if r.Acquire? || r.Stop? || r.ListThreads? then Times(ptab, r.at)
      else if r.ReleaseThread? then Times(ptab, r.at) * Times(threads(r.at.rank), r.tid)
      else 0
  {
    hide Asks, NodeAsks, ThreadAsks, Visits, Grouped, Sorted, Among, OnNode;
    var groups := Grouped(ptab);
    var visits := Visits(groups);
    VisitsAreTable(ptab);
    CountNodes(true, groups, r);
    if r.AttachAll? { AmongIsOnNode(ptab, r.node); }
    CountAsks(Acquiring, visits, r);
    CountThreads(false, visits, threads, r);
    CountAsks(Stopping, visits, r);
  }

  lemma CountClosing(ptab: seq<Visit>, threads: int -> seq<int>, r: Request)
    ensures Times(Closing(Grouped(ptab), threads), r) ==
      if r.DetachAll? then (if OnNode(ptab, r.node) then 1 else 0)
      else if r.ReleaseControl? || r.ListThreads? then Times(ptab, r.at)
      else if r.HoldThread? then Times(ptab, r.at) * Times(threads(r.at.rank), r.tid)
      else 0
  {
    hide Asks, NodeAsks, ThreadAsks, Visits, Grouped, Sorted, Among, OnNode;
    var groups := Grouped(ptab);
    var visits := Visits(groups);
    VisitsAreTable(ptab);
    CountThreads(true, visits, threads, r);
    CountAsks(Releasing, visits, r);
    CountNodes(false, groups, r);
    if r.DetachAll? { AmongIsOnNode(ptab, r.node); }
  }

  lemma OpeningOrder(a: seq<Request>, b: seq<Request>, c: seq<Request>, d: seq<Request>, all: seq<Request>)
    requires all == a + b + c + d
    requires (forall r :: r in a ==> r.AttachAll?) && (forall r :: r in b ==> r.Acquire?)
    requires (forall r :: r in c ==> r.ListThreads? || r.ReleaseThread?) && (forall r :: r in d ==> r.Stop?)
    ensures forall i, j :: 0 <= i < j < |all| ==>
      (all[j].AttachAll? ==> all[i].AttachAll?) &&
      (all[j].Acquire? ==> all[i].AttachAll? || all[i].Acquire?) &&
      (all[i].Stop? ==> all[j].Stop?)
  {
    forall i | 0 <= i < |all|
      ensures if i < |a| then all[i].AttachAll?
        else if i < |a| + |b| then all[i].Acquire?
        else if i < |a| + |b| + |c| then all[i].ListThreads? || all[i].ReleaseThread?
        else all[i].Stop?
    {
      if i < |a| { assert all[i] == a[i]; }
      else if i < |a| + |b| { assert all[i] == b[i - |a|]; }
      else if i < |a| + |b| + |c| { assert all[i] == c[i - |a| - |b|]; }
      else { assert all[i] == d[i - |a| - |b| - |c|]; }
    }
  }

  lemma ClosingOrder(a: seq<Request>, b: seq<Request>, c: seq<Request>, all: seq<Request>)
    requires all == a + b + c && (forall r :: r in a ==> r.ListThreads? || r.HoldThread?)
    requires (forall r :: r in b ==> r.ReleaseControl?) && (forall r :: r in c ==> r.DetachAll?)
    ensures forall i, j :: 0 <= i < j < |all| ==>
      (all[i].DetachAll? ==> all[j].DetachAll?) &&
      (all[i].ReleaseControl? ==> all[j].ReleaseControl? || all[j].DetachAll?)
  {
    forall i | 0 <= i < |all|
      ensures if i < |a| then all[i].ListThreads? || all[i].HoldThread?
        else if i < |a| + |b| then all[i].ReleaseControl?
        else all[i].DetachAll?
    {
      if i < |a| { assert all[i] == a[i]; }
      else if i < |a| + |b| { assert all[i] == b[i - |a|]; }
      else { assert all[i] == c[i - |a| - |b|]; }
    }
  }

  lemma OpeningIsListed(ptab: seq<Visit>, threads: int -> seq<int>)
    ensures Listed(Opening(Grouped(ptab), threads)) && Listed(Closing(Grouped(ptab), threads))
  {
    hide Asks, NodeAsks, ThreadAsks, Visits, Grouped, Listed;
    var groups := Grouped(ptab);
    var visits := Visits(groups);
    MembersOf(groups, threads);
    var a, b, c, d := NodeAsks(true, groups), Asks(Acquiring, visits), ThreadAsks(false, visits, threads),
      Asks(Stopping, visits);
    NoThreadsListed(a);
    NoThreadsListed(b);
    NoThreadsListed(d);
    ThreadsListed(false, visits, threads);
    ListedConcat(a, b);
    ListedConcat(a + b, c);
    ListedConcat(a + b + c, d);
    var e, f, g := ThreadAsks(true, visits, threads), Asks(Releasing, visits), NodeAsks(false, groups);
    NoThreadsListed(f);
    NoThreadsListed(g);
    ThreadsListed(true, visits, threads);
    ListedConcat(e, f);
    ListedConcat(e + f, g);
  }

  lemma InTimes(sent: seq<Request>, r: Request)
    ensures r in sent <==> Times(sent, r) > 0
  {
    assert r in sent <==> r in multiset(sent);
  }

  lemma OpeningOpens(ptab: seq<Visit>, threads: int -> seq<int>)
    ensures Opens(Opening(Grouped(ptab), threads), ptab, threads)
  {
    hide Asks, NodeAsks, ThreadAsks, Visits, Grouped, OnNode, Times, Opening;
    var groups := Grouped(ptab);
    var visits, all := Visits(groups), Opening(groups, threads);
    MembersOf(groups, threads);
    OpeningParts(groups, threads);
    OpeningOrder(NodeAsks(true, groups), Asks(Acquiring, visits), ThreadAsks(false, visits, threads),
                 Asks(Stopping, visits), all);
    forall r: Request { CountOpening(ptab, threads, r); }
    forall r | r in all ensures r.AttachAll? || r.Acquire? || r.Stop? || r.ListThreads? || r.ReleaseThread? {
      InTimes(all, r);
    }
  }

  lemma Behind(start: seq<Request>, part: seq<Request>, all: seq<Request>)
    requires all == start + part
    ensures all[|start|..] == part
  {
  }

  lemma OpeningParts(groups: seq<Group>, threads: int -> seq<int>)
    ensures Opening(groups, threads) == NodeAsks(true, groups) + Asks(Acquiring, Visits(groups)) +
      ThreadAsks(false, Visits(groups), threads) + Asks(Stopping, Visits(groups))
    ensures Closing(groups, threads) ==
      ThreadAsks(true, Visits(groups), threads) + Asks(Releasing, Visits(groups)) + NodeAsks(false, groups)
  {
    hide Asks, NodeAsks, ThreadAsks, Visits;
  }

  lemma ClosingCloses(ptab: seq<Visit>, threads: int -> seq<int>)
    ensures Closes(Closing(Grouped(ptab), threads), ptab, threads)
  {
    hide Asks, NodeAsks, ThreadAsks, Visits, Grouped, OnNode, Times, Closing;
    var groups := Grouped(ptab);
    var visits, all := Visits(groups), Closing(groups, threads);
    MembersOf(groups, threads);
    OpeningParts(groups, threads);
    ClosingOrder(ThreadAsks(true, visits, threads), Asks(Releasing, visits), NodeAsks(false, groups), all);
    forall r: Request { CountClosing(ptab, threads, r); }
    forall r | r in all ensures r.ListThreads? || r.HoldThread? || r.ReleaseControl? || r.DetachAll? {
      InTimes(all, r);
    }
  }

  // ----- the daemon, and the compute nodes at the other end of its sockets

  class Tool {
    const threads: int -> seq<int>      // the threads a compute node reports for a rank
    var groups: seq<Group>
    var seqNum: nat
    var sent: seq<Request>
    var numbers: seq<nat>               // the sequence numbers of the requests
    var boxes: map<int, seq<Reply>>     // replies on each node's socket
    var held: bool                      // the launcher has not been released
    var owed: seq<Visit>                // stops that will be reported on the release

    // Numbers only go up: none is used twice.
    ghost predicate Valid()
      reads this`numbers, this`sent, this`seqNum
    {
      |numbers| == |sent| && (forall i :: 0 <= i < |numbers| ==> numbers[i] < seqNum) &&
      forall i, j :: 0 <= i < j < |numbers| ==> numbers[i] < numbers[j]
    }

    function Box(node: int): (list: seq<Reply>)
      reads this`boxes
    {
      if node in boxes then boxes[node] else []
    }

    ghost predicate Quiet()
      reads this`boxes
    {
      forall node :: Box(node) == []
    }

    constructor (launch: bool, threadsOf: int -> seq<int>)
      ensures Valid() && Quiet() && groups == [] && sent == [] && seqNum == 0 && held == launch && owed == [] &&
        threads == threadsOf
    {
      threads, groups, seqNum, sent, numbers, boxes, held, owed := threadsOf, [], 0, [], [], map[], launch, [];
    }

    // One request and its acknowledgement.
    method Exchange(node: int, request: Request) returns (rc: int)
      requires Valid() && Box(node) == []
      modifies this`sent, this`numbers, this`seqNum, this`boxes, this`owed
      ensures Valid() && rc == LMON_OK && sent == old(sent) + [request] && seqNum == old(seqNum) + 1
      ensures Box(node) == if request.Stop? && !held then [StopNotice] else []
      ensures forall n :: n != node ==> Box(n) == old(Box(n))
      ensures owed == old(owed) + if request.Stop? && held then [request.at] else []
    {
      sent, numbers := sent + [request], numbers + [seqNum];
      var answer := [Ack(request, seqNum)] + if request.Stop? && !held then [StopNotice] else [];
      if request.Stop? && held { owed := owed + [request.at]; }
      boxes := boxes[node := answer];
      var ack := boxes[node][0];
      boxes := boxes[node := boxes[node][1..]];
      if !(ack.Ack? && ack.request == request && ack.number == seqNum) { return LMON_EINVAL; }
      seqNum := seqNum + 1;
      return LMON_OK;
    }

    // One notice of a stop.
    method ReadNotice(node: int) returns (rc: int)
      modifies this`boxes
      ensures rc == LMON_OK <==> old(Box(node)) != [] && old(Box(node))[0] == StopNotice
      ensures rc == LMON_OK ==> Box(node) == old(Box(node))[1..] && forall n :: n != node ==> Box(n) == old(Box(n))
    {
      if Box(node) == [] { return LMON_EINVAL; }
      var notice := boxes[node][0];
      boxes := boxes[node := boxes[node][1..]];
      return if notice == StopNotice then LMON_OK else LMON_EINVAL;
    }

    // attach_all and detach_all: one request per node.
    method EachNode(attach: bool) returns (rc: int)
      requires Valid() && Quiet()
      modifies this`sent, this`numbers, this`seqNum, this`boxes, this`owed
      ensures Valid() && Quiet() && rc == LMON_OK && owed == old(owed) && sent == old(sent) + NodeAsks(attach, groups)
    {
      for i := 0 to |groups|
        invariant Valid() && Quiet() && owed == old(owed) && sent == old(sent) + NodeAsks(attach, groups[..i])
      {
        rc := Exchange(groups[i].node, if attach then AttachAll(groups[i].node) else DetachAll(groups[i].node));
        if rc != LMON_OK { return; }
        assert NodeAsks(attach, groups[..i + 1]) ==
          NodeAsks(attach, groups[..i]) + [if attach then AttachAll(groups[i].node) else DetachAll(groups[i].node)];
      }
      assert groups[..|groups|] == groups;
      return LMON_OK;
    }

    // acquire_control_authority, stop_all_wo_noti_reap, stop_all and release_control_all: one request per rank,
    // and where stops are awaited, a notice.
    method EachRank(kind: Kind, await: bool) returns (rc: int)
      requires Valid() && Quiet() && (kind.Stopping? ==> await == !held) && (!kind.Stopping? ==> !await)
      modifies this`sent, this`numbers, this`seqNum, this`boxes, this`owed
      ensures Valid() && Quiet() && rc == LMON_OK && sent == old(sent) + Asks(kind, Visits(groups))
      ensures OnePerRank(sent[|old(sent)|..], kind, Visits(groups))
      ensures owed == old(owed) + if kind.Stopping? && held then Visits(groups) else []
    {
      hide Visits, Asks, OfGroup, OnePerRank;
      AsksAre(kind, Visits(groups));
      assert groups[..0] == [] && groups[..|groups|] == groups;
      NoAsks(kind, false, threads);
      for i := 0 to |groups|
        invariant Valid() && Quiet() && sent == old(sent) + Asks(kind, Visits(groups[..i]))
        invariant owed == old(owed) + if kind.Stopping? && held then Visits(groups[..i]) else []
      {
        rc := EachRankOf(groups[i], kind, await);
        if rc != LMON_OK { return; }
        assert groups[..i + 1] == groups[..i] + [groups[i]];
        VisitsAppend(groups[..i], groups[i]);
        AsksConcat(kind, Visits(groups[..i]), OfGroup(groups[i]));
      }
      return LMON_OK;
    }

    method EachRankOf(g: Group, kind: Kind, await: bool) returns (rc: int)
      requires Valid() && Quiet() && (kind.Stopping? ==> await == !held) && (!kind.Stopping? ==> !await)
      modifies this`sent, this`numbers, this`seqNum, this`boxes, this`owed
      ensures Valid() && Quiet() && rc == LMON_OK && sent == old(sent) + Asks(kind, OfGroup(g))
      ensures owed == old(owed) + if kind.Stopping? && held then OfGroup(g) else []
    {
      ghost var all := OfGroup(g);
      for j := 0 to |g.ranks|
        invariant Valid() && Quiet() && sent == old(sent) + Asks(kind, all[..j])
        invariant owed == old(owed) + if kind.Stopping? && held then all[..j] else []
      {
        rc := Exchange(g.node, Ask(kind, Visit(g.node, g.ranks[j])));
        if rc != LMON_OK { return; }
        if await {
          rc := ReadNotice(g.node);
          if rc != LMON_OK { return; }
        }
        assert all[..j + 1] == all[..j] + [all[j]];
      }
      assert all[..|g.ranks|] == all;
      return LMON_OK;
    }

    // release_all_threads and hold_all_threads
    method EachThread(hold: bool) returns (rc: int)
      requires Valid() && Quiet()
      modifies this`sent, this`numbers, this`seqNum, this`boxes, this`owed
      ensures Valid() && Quiet() && rc == LMON_OK && owed == old(owed) &&
        sent == old(sent) + ThreadAsks(hold, Visits(groups), threads)
    {
      hide Visits, ThreadAsks, OfGroup;
      assert groups[..0] == [] && groups[..|groups|] == groups;
      NoAsks(Acquiring, hold, threads);
      for i := 0 to |groups|
        invariant Valid() && Quiet() && owed == old(owed) &&
          sent == old(sent) + ThreadAsks(hold, Visits(groups[..i]), threads)
      {
        rc := ThreadsOfGroup(hold, groups[i], Visits(groups[..i]), old(sent));
        if rc != LMON_OK { return; }
        assert groups[..i + 1] == groups[..i] + [groups[i]];
        VisitsAppend(groups[..i], groups[i]);
      }
      return LMON_OK;
    }

    method ThreadsOfGroup(hold: bool, g: Group, ghost before: seq<Visit>, ghost start: seq<Request>) returns (rc: int)
      requires Valid() && Quiet() && sent == start + ThreadAsks(hold, before, threads)
      modifies this`sent, this`numbers, this`seqNum, this`boxes, this`owed
      ensures Valid() && Quiet() && rc == LMON_OK && owed == old(owed) &&
        sent == start + ThreadAsks(hold, before + OfGroup(g), threads)
    {
      hide ThreadAsks, AsksOfThreads, Quiet;
      ghost var all := OfGroup(g);
      assert before + all[..0] == before && all[..|g.ranks|] == all;
      for j := 0 to |g.ranks|
        invariant Valid() && Quiet() && owed == old(owed) &&
          sent == start + ThreadAsks(hold, before + all[..j], threads)
      {
        rc := ThreadsOf(hold, Visit(g.node, g.ranks[j]));
        if rc != LMON_OK { return; }
        assert before + all[..j + 1] == before + all[..j] + [all[j]];
        OneThreadAsk(hold, before + all[..j], all[j], threads);
      }
      return LMON_OK;
    }

    method ThreadsOf(hold: bool, v: Visit) returns (rc: int)
      requires Valid() && Quiet()
      modifies this`sent, this`numbers, this`seqNum, this`boxes, this`owed
      ensures Valid() && Quiet() && rc == LMON_OK && owed == old(owed)
      ensures sent == old(sent) + [ListThreads(v)] + AsksOfThreads(hold, v, threads(v.rank))
    {
      rc := Exchange(v.node, ListThreads(v));
      if rc != LMON_OK { return; }
      var tids := threads(v.rank);
      ghost var listed := sent;
      for k := 0 to |tids|
        invariant Valid() && Quiet() && owed == old(owed) && sent == listed + AsksOfThreads(hold, v, tids[..k])
      {
        rc := Exchange(v.node, ThreadAsk(hold, v, tids[k]));
        if rc != LMON_OK { return; }
        assert AsksOfThreads(hold, v, tids[..k + 1]) == AsksOfThreads(hold, v, tids[..k]) +
            [ThreadAsk(hold, v, tids[k])];
      }
      assert tids[..|tids|] == tids;
      return LMON_OK;
    }

    method Deliver(node: int)
      modifies this`boxes
      ensures Box(node) == old(Box(node)) + [StopNotice] && forall n :: n != node ==> Box(n) == old(Box(n))
    {
      boxes := boxes[node := Box(node) + [StopNotice]];
    }

    // The launcher is released: every stop that is owed is reported by its node.
    method Release()
      requires Quiet()
      modifies this`boxes, this`held, this`owed
      ensures !held && owed == [] && forall node :: Box(node) == Notices(Count(old(owed), node))
    {
      ghost var all := owed;
      assert all[..0] == [] && all[..|all|] == all;
      for i := 0 to |owed|
        invariant owed == all
        invariant forall node :: Box(node) == Notices(Count(all[..i], node))
      {
        var v := owed[i];
        assert all[..i + 1] == all[..i] + [v];
        forall node
          ensures Count(all[..i + 1], node) == Count(all[..i], node) + if v.node == node then 1 else 0
        {
          CountConcat(all[..i], [v], node);
        }
        OneMoreNotice(Count(all[..i], v.node));
        Deliver(v.node);
      }
      held, owed := false, [];
    }

    // reap_stop_noti: every node's notices, one for each of its ranks; a notice uses up a number, too.
    method ReapStopNoti() returns (rc: int)
      requires Valid() && Sorted(groups) && forall node :: Box(node) == Owing(groups, node)
      modifies this`boxes, this`seqNum
      ensures Valid() && Quiet() && rc == LMON_OK
    {
      hide Owing, Among, Notices, Sorted;
      assert groups[..0] == [] && groups[..|groups|] == groups;
      NobodyAmong();
      for i := 0 to |groups|
        invariant Valid() && forall node :: Box(node) == if Among(groups[..i], node) then [] else Owing(groups, node)
      {
        AmongNext(groups, i);
        OwingAt(groups, i);
        rc := ReapGroup(groups[i]);
        if rc != LMON_OK { return; }
      }
      forall node
        ensures Box(node) == []
      {
        if !Among(groups, node) { OwingElsewhere(groups, node); }
      }
      return LMON_OK;
    }

    method ReapGroup(g: Group) returns (rc: int)
      requires Valid() && Box(g.node) == Notices(|g.ranks|)
      modifies this`boxes, this`seqNum
      ensures Valid() && rc == LMON_OK && Box(g.node) == [] && forall n :: n != g.node ==> Box(n) == old(Box(n))
    {
      for j := 0 to |g.ranks|
        invariant Valid() && Box(g.node) == Notices(|g.ranks| - j)
        invariant forall n :: n != g.node ==> Box(n) == old(Box(n))
      {
        OneMoreNotice(|g.ranks| - j - 1);
        rc := ReadNotice(g.node);
        if rc != LMON_OK { return; }
        seqNum := seqNum + 1;
      }
      return LMON_OK;
    }

    // Fills the map from nodes to ranks.
    method GroupRanks(ptab: seq<Visit>)
      requires groups == []
      modifies this`groups
      ensures groups == Grouped(ptab)
    {
      for i := 0 to |ptab|
        invariant groups == Grouped(ptab[..i])
      {
        assert ptab[..i + 1][..i] == ptab[..i];
        groups := Insert(groups, ptab[i]);
      }
      assert ptab[..|ptab|] == ptab;
    }

    // LMON_be_procctl_init_bgq
    method InitBgq(ptab: seq<Visit>, islaunch: bool) returns (rc: int)
      requires Valid() && Quiet() && groups == [] && owed == [] && held == islaunch
      modifies this`groups, this`sent, this`numbers, this`seqNum, this`boxes, this`owed
      ensures Valid() && Quiet() && rc == LMON_OK && groups == Grouped(ptab)
      ensures owed == if islaunch then Visits(groups) else []
      ensures sent == old(sent) + Opening(groups, threads)
      ensures Opens(sent[|old(sent)|..], ptab, threads) && Listed(sent[|old(sent)|..])
    {
      hide Visits, Asks, ThreadAsks, NodeAsks, Grouped, Opens, Listed, Opening, OnePerRank;
      ghost var start := sent;
      GroupRanks(ptab);
      rc := EachNode(true);
      if rc != LMON_OK { return; }
      rc := EachRank(Acquiring, false);
      if rc != LMON_OK { return; }
      rc := EachThread(false);
      if rc != LMON_OK { return; }
      rc := EachRank(Stopping, !islaunch);
      OpeningParts(groups, threads);
      OpeningOpens(ptab, threads);
      OpeningIsListed(ptab, threads);
      Behind(start, Opening(groups, threads), sent);
    }

    // LMON_be_procctl_initdone_bgq
    method InitDoneBgq(islaunch: bool) returns (rc: int)
      requires Valid() && Sorted(groups)
      requires if islaunch then forall node :: Box(node) == Owing(groups, node) else Quiet()
      modifies this`groups, this`sent, this`numbers, this`seqNum, this`boxes, this`owed
      ensures Valid() && Quiet() && rc == LMON_OK && groups == [] && owed == old(owed)
      ensures sent == old(sent) + Closing(old(groups), threads)
      ensures forall ptab :: old(groups) == Grouped(ptab) ==>
        Closes(sent[|old(sent)|..], ptab, threads) && Listed(sent[|old(sent)|..])
    {
      hide Visits, Asks, ThreadAsks, NodeAsks, Owing, Closes, Listed, Grouped, Closing, OnePerRank;
      OpeningParts(groups, threads);
      forall ptab | groups == Grouped(ptab)
        ensures Closes(Closing(groups, threads), ptab, threads) && Listed(Closing(groups, threads))
      {
        ClosingCloses(ptab, threads);
        OpeningIsListed(ptab, threads);
      }
      if islaunch {
        rc := ReapStopNoti();
        if rc != LMON_OK { return; }
      }
      rc := EachThread(true);
      if rc != LMON_OK { return; }
      rc := EachRank(Releasing, false);
      if rc != LMON_OK { return; }
      rc := EachNode(false);
      groups := [];
    }
  }

  // What a whole run has sent: one part that opens and one that closes, with every rank in between.
  ghost predicate Conducted(sent: seq<Request>, ptab: seq<Visit>, threads: int -> seq<int>) {
    (exists first, second ::
      sent == first + second && Opens(first, ptab, threads) && Closes(second, ptab, threads)) &&
    Listed(sent) && forall v :: v in ptab ==> Guarded(sent, v)
  }

  lemma RunIsConducted(ptab: seq<Visit>, threads: int -> seq<int>)
    ensures Conducted(Opening(Grouped(ptab), threads) + Closing(Grouped(ptab), threads), ptab, threads)
  {
    hide Opening, Closing, Opens, Closes, Listed, Guarded, Grouped;
    var first, second := Opening(Grouped(ptab), threads), Closing(Grouped(ptab), threads);
    OpeningOpens(ptab, threads);
    ClosingCloses(ptab, threads);
    OpeningIsListed(ptab, threads);
    ListedConcat(first, second);
    BothGuard(first, second, ptab, threads);
  }

  // From the initialization to its end, in either mode and for any table: each rank is attached to, taken over,
  // stopped, released and detached from in this order, as often as the table lists it, and each of its threads is
  // let go before the stop and held behind it; the rounds go over the ranks grouped by node; every acknowledgement
  // and every notice has been read; and no sequence number has been used twice.
  method Synchronize(ptab: seq<Visit>, islaunch: bool, threads: int -> seq<int>) returns (t: Tool, rc: int)
    ensures fresh(t) && rc == LMON_OK && t.Valid() && t.Quiet() && t.owed == []
    ensures Conducted(t.sent, ptab, threads)
    ensures var groups := Grouped(ptab);
      multiset(Visits(groups)) == multiset(ptab) && t.sent == Opening(groups, threads) + Closing(groups, threads)
  {
    hide Visits, Asks, ThreadAsks, NodeAsks, Grouped, Count, Sorted, Conducted, Opens, Closes, Listed, Opening, Closing;
    VisitsAreTable(ptab);
    RunIsConducted(ptab, threads);
    t := new Tool(islaunch, threads);
    rc := t.InitBgq(ptab, islaunch);
    if islaunch { t.Release(); }
    rc := t.InitDoneBgq(islaunch);
  }
}
