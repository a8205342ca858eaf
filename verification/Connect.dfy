// How a parent and a child settle on one connection. The parent dials, writes two ids, reads two ids, checks
// them and acknowledges; the child accepts the oldest pending connection, reads and checks two ids, writes two
// ids and waits for the acknowledgement. Either side may lose patience at any point, close its end, and start
// over: the parent on a new connection, the child on the next one that is pending. All ids and the
// acknowledgement travel as 32-bit words.
module Connect {
  import opened Network

  datatype Ids = Ids(service: int, session: int, accept: int)

  const ACK: int := 1

  datatype Parent = Dialing | Talking(step: nat, heard: seq<int>) | Connected
  datatype Child = Accepting | Serving(step: nat, heard: seq<int>) | Adopted

  // Words under way in both directions, and (bookkeeping) how many have been written and read.
  datatype Link = Link(up: seq<int>, down: seq<int>, sentUp: nat, readUp: nat, sentDown: nat, readDown: nat)

  // The parent talks on the newest link, the child on the last one it accepted.
  datatype Peers = Peers(links: seq<Link>, parent: Parent, child: Child, accepted: nat)

  datatype Move = Dial | ParentActs | ParentGivesUp | ChildAccepts | ChildActs | ChildGivesUp

  function UpWords(p: Ids): (list: seq<int>) { [p.service, p.session, ACK] }
  function DownWords(c: Ids): (list: seq<int>) { [c.service, c.accept] }

  function WriteUp(l: Link, w: int): (link: Link) { l.(up := l.up + [w], sentUp := l.sentUp + 1) }
  function WriteDown(l: Link, w: int): (link: Link) { l.(down := l.down + [w], sentDown := l.sentDown + 1) }
  function ReadUp(l: Link): (link: Link) { if l.up == [] then l else l.(up := l.up[1..], readUp := l.readUp + 1) }
  function ReadDown(l: Link): (link: Link) {
    if l.down == [] then l else l.(down := l.down[1..], readDown := l.readDown + 1)
  }

  // The parent's next step on link l: the link and the parent after it.
  function ParentStep(p: Ids, l: Link, step: nat, heard: seq<int>): (o: Option<(Link, Parent)>) {
    if step == 0 then Some((WriteUp(l, p.service), Talking(1, heard)))
    else if step == 1 then Some((WriteUp(l, p.session), Talking(2, heard)))
    else if step <= 3 then (if l.down == [] then None else Some((ReadDown(l), Talking(step + 1, heard + [l.down[0]]))))
    else if heard != [p.service, p.accept] then Some((l, Dialing))
    else Some((WriteUp(l, ACK), Connected))
  }

  function ChildStep(c: Ids, l: Link, step: nat, heard: seq<int>): (o: Option<(Link, Child)>) {
    if step <= 1 then (if l.up == [] then None else Some((ReadUp(l), Serving(step + 1, heard + [l.up[0]]))))
    else if step == 2 then
      (if heard != [c.service, c.session] then Some((l, Accepting))
        else Some((WriteDown(l, c.service), Serving(3, heard))))
    else if step == 3 then Some((WriteDown(l, c.accept), Serving(4, heard)))
    else (if l.up == [] then None else Some((ReadUp(l), Adopted)))
  }

  ghost function Next(p: Ids, c: Ids, s: Peers, m: Move): (o: Option<Peers>) {
    match m
    case Dial =>
      if s.parent.Dialing? then Some(s.(links := s.links + [Link([], [], 0, 0, 0, 0)], parent := Talking(0, [])))
      else None
    case ParentActs =>
      if !s.parent.Talking? || s.links == [] then None
      else
        var k := |s.links| - 1;
        (match ParentStep(p, s.links[k], s.parent.step, s.parent.heard)
         case None => None
         case Some(r) => Some(s.(links := s.links[k := r.0], parent := r.1)))
    case ParentGivesUp => if s.parent.Talking? then Some(s.(parent := Dialing)) else None
    case ChildAccepts =>
      if s.child.Accepting? && s.accepted < |s.links| then Some(s.(child := Serving(0, []), accepted := s.accepted + 1))
      else None
    case ChildActs =>
      if !s.child.Serving? || !(1 <= s.accepted <= |s.links|) then None
      else
        var k := s.accepted - 1;
        (match ChildStep(c, s.links[k], s.child.step, s.child.heard)
         case None => None
         case Some(r) => Some(s.(links := s.links[k := r.0], child := r.1)))
    case ChildGivesUp => if s.child.Serving? then Some(s.(child := Accepting)) else None
  }

  const START: Peers := Peers([], Dialing, Accepting, 0)

  ghost function After(p: Ids, c: Ids, s: Peers, moves: seq<Move>): (o: Option<Peers>)
    decreases |moves|
  {
    if moves == [] then Some(s)
    else match Next(p, c, s, moves[0])
      case None => None
      case Some(t) => After(p, c, t, moves[1..])
  }

  // ----- what every move keeps

  function Min(a: nat, b: nat): (v: nat) { if a < b then a else b }

  ghost predicate LinkOk(p: Ids, c: Ids, l: Link) {
    l.readUp <= l.sentUp <= 3 && l.readDown <= l.sentDown <= 2 &&
    l.up == UpWords(p)[l.readUp..l.sentUp] && l.down == DownWords(c)[l.readDown..l.sentDown] &&
    // the child answers only those that name its own service and session
    (l.sentDown > 0 ==> p.service == c.service && p.session == c.session)
  }

  // Only the parent's last word on the newest link is an acknowledgement.
  ghost predicate ParentOk(p: Ids, c: Ids, s: Peers, k: int)
    requires 0 <= k < |s.links|
  {
    var l := s.links[k];
    if k < |s.links| - 1 || s.parent.Dialing? then l.sentUp <= 2
    else if s.parent.Talking? then
      l.sentUp == Min(s.parent.step, 2) && s.parent.step <= 4 &&
      l.readDown == (if s.parent.step <= 2 then 0 else s.parent.step - 2) &&
        s.parent.heard == DownWords(c)[..l.readDown]
    else l.sentUp == 3 && l.readDown == 2 && DownWords(c) == [p.service, p.accept]
  }

  ghost predicate ChildOk(p: Ids, c: Ids, s: Peers, k: int)
    requires 0 <= k < |s.links|
  {
    var l := s.links[k];
    if k >= s.accepted then l.readUp == 0 && l.sentDown == 0
    else if k < s.accepted - 1 || s.child.Accepting? then l.readUp <= 2
    else if s.child.Serving? then
      s.child.step <= 4 && l.readUp == Min(s.child.step, 2) && s.child.heard == UpWords(p)[..l.readUp] &&
      l.sentDown == (if s.child.step <= 2 then 0 else s.child.step - 2)
    else l.readUp == 3
  }

  ghost predicate Inv(p: Ids, c: Ids, s: Peers) {
    s.accepted <= |s.links| && (!s.parent.Dialing? ==> |s.links| > 0) && (!s.child.Accepting? ==> s.accepted > 0) &&
    forall k :: 0 <= k < |s.links| ==> LinkOk(p, c, s.links[k]) && ParentOk(p, c, s, k) && ChildOk(p, c, s, k)
  }

  lemma SliceMore(ws: seq<int>, i: nat, j: nat)
    requires i <= j < |ws|
    ensures ws[i..j + 1] == ws[i..j] + [ws[j]]
  {
  }

  lemma SliceLess(ws: seq<int>, i: nat, j: nat)
    requires i < j <= |ws|
    ensures ws[i..j][0] == ws[i] && ws[i..j][1..] == ws[i + 1..j]
  {
  }

  // The parent's step on its own link.
  lemma ParentStepKeeps(p: Ids, c: Ids, l: Link, step: nat, heard: seq<int>)
    requires LinkOk(p, c, l) && step <= 4 && l.sentUp == Min(step, 2)
    requires l.readDown == (if step <= 2 then 0 else step - 2) && heard == DownWords(c)[..l.readDown]
    ensures ParentStep(p, l, step, heard).Some? ==>
      var (m, parent) := ParentStep(p, l, step, heard).value;
      LinkOk(p, c, m) && m.readUp == l.readUp && m.sentDown == l.sentDown &&
      match parent
      case Dialing => m.sentUp <= 2
      case Talking(next, words) =>
        next <= 4 && m.sentUp == Min(next, 2) && m.readDown == (if next <= 2 then 0 else next - 2) &&
          words == DownWords(c)[..m.readDown]
      case Connected => m.sentUp == 3 && m.readDown == 2 && DownWords(c) == [p.service, p.accept]
  {
    var up, down := UpWords(p), DownWords(c);
    if step <= 1 || step == 4 {
      SliceMore(up, l.readUp, l.sentUp);
    } else if l.down != [] {
      SliceLess(down, l.readDown, l.sentDown);
      SliceMore(down, 0, l.readDown);
    }
  }

  lemma ParentActKeeps(p: Ids, c: Ids, s: Peers, t: Peers)
    requires Inv(p, c, s) && Next(p, c, s, ParentActs) == Some(t)
    ensures Inv(p, c, t)
  {
    hide LinkOk, ParentStep, UpWords, DownWords;
    var k := |s.links| - 1;
    assert LinkOk(p, c, s.links[k]) && ParentOk(p, c, s, k) && ChildOk(p, c, s, k);
    ParentStepKeeps(p, c, s.links[k], s.parent.step, s.parent.heard);
    forall i | 0 <= i < |t.links|
      ensures LinkOk(p, c, t.links[i]) && ParentOk(p, c, t, i) && ChildOk(p, c, t, i)
    {
      assert LinkOk(p, c, s.links[i]) && ParentOk(p, c, s, i) && ChildOk(p, c, s, i);
    }
  }

  // The child's step on its own link.
  lemma ChildStepKeeps(p: Ids, c: Ids, l: Link, step: nat, heard: seq<int>)
    requires LinkOk(p, c, l) && step <= 4 && l.readUp == Min(step, 2) && heard == UpWords(p)[..l.readUp]
    requires l.sentDown == (if step <= 2 then 0 else step - 2)
    ensures ChildStep(c, l, step, heard).Some? ==>
      var (m, child) := ChildStep(c, l, step, heard).value;
      LinkOk(p, c, m) && m.sentUp == l.sentUp && m.readDown == l.readDown &&
      match child
      case Accepting => m.readUp <= 2
      case Serving(next, words) =>
        next <= 4 && m.readUp == Min(next, 2) && words == UpWords(p)[..m.readUp] &&
          m.sentDown == (if next <= 2 then 0 else next - 2)
      case Adopted => m.readUp == 3
  {
    var up, down := UpWords(p), DownWords(c);
    if step <= 1 || step == 4 {
      if l.up != [] {
        SliceLess(up, l.readUp, l.sentUp);
        SliceMore(up, 0, l.readUp);
      }
    } else {
      assert heard[0] == p.service && heard[1] == p.session;
      SliceMore(down, l.readDown, l.sentDown);
    }
  }

  lemma ChildActKeeps(p: Ids, c: Ids, s: Peers, t: Peers)
    requires Inv(p, c, s) && Next(p, c, s, ChildActs) == Some(t)
    ensures Inv(p, c, t)
  {
    hide LinkOk, ChildStep, UpWords, DownWords;
    var k := s.accepted - 1;
    assert LinkOk(p, c, s.links[k]) && ParentOk(p, c, s, k) && ChildOk(p, c, s, k);
    ChildStepKeeps(p, c, s.links[k], s.child.step, s.child.heard);
    forall i | 0 <= i < |t.links|
      ensures LinkOk(p, c, t.links[i]) && ParentOk(p, c, t, i) && ChildOk(p, c, t, i)
    {
      assert LinkOk(p, c, s.links[i]) && ParentOk(p, c, s, i) && ChildOk(p, c, s, i);
    }
  }

  lemma OtherMovesKeep(p: Ids, c: Ids, s: Peers, m: Move, t: Peers)
    requires Inv(p, c, s) && m in {Dial, ParentGivesUp, ChildAccepts, ChildGivesUp} && Next(p, c, s, m) == Some(t)
    ensures Inv(p, c, t)
  {
    forall i | 0 <= i < |t.links|
      ensures LinkOk(p, c, t.links[i]) && ParentOk(p, c, t, i) && ChildOk(p, c, t, i)
    {
      assert i < |s.links| ==> LinkOk(p, c, s.links[i]) && ParentOk(p, c, s, i) && ChildOk(p, c, s, i);
    }
  }

  lemma {:induction false} AfterKeeps(p: Ids, c: Ids, s: Peers, moves: seq<Move>, t: Peers)
    requires Inv(p, c, s) && After(p, c, s, moves) == Some(t)
    ensures Inv(p, c, t)
    decreases |moves|
  {
    hide Inv, Next;
    if moves != [] {
      var u := Next(p, c, s, moves[0]).value;
      match moves[0] {
        case ParentActs => ParentActKeeps(p, c, s, u);
        case ChildActs => ChildActKeeps(p, c, s, u);
        case Dial => OtherMovesKeep(p, c, s, Dial, u);
        case ParentGivesUp => OtherMovesKeep(p, c, s, ParentGivesUp, u);
        case ChildAccepts => OtherMovesKeep(p, c, s, ChildAccepts, u);
        case ChildGivesUp => OtherMovesKeep(p, c, s, ChildGivesUp, u);
      }
      AfterKeeps(p, c, u, moves[1..], t);
    }
  }

  // The child has turned away from the connection the parent has settled on.
  predicate Missed(s: Peers) { s.parent.Connected? && s.child.Accepting? && s.accepted == |s.links| }

  // A child that has adopted a connection has adopted the one on which the parent passed its checks and wrote
  // its acknowledgement, and the ids of the two agree. When the parent is connected, the child has adopted that
  // connection, or has only to read the acknowledgement on it, or has lost patience with that very connection.
  ghost predicate Committed(p: Ids, c: Ids, s: Peers) {
    (s.child.Adopted? ==> s.parent.Connected? && s.accepted == |s.links|) &&
    (s.parent.Connected? ==>
      p == c && s.accepted == |s.links| > 0 &&
      (s.child.Adopted? || Missed(s) || (s.child.Serving? && s.child.step == 4 && s.links[s.accepted - 1].up == [ACK])))
  }

  lemma InvIsCommitted(p: Ids, c: Ids, s: Peers)
    requires Inv(p, c, s)
    ensures Committed(p, c, s)
  {
    if s.child.Adopted? {
      var k := s.accepted - 1;
      assert LinkOk(p, c, s.links[k]) && ParentOk(p, c, s, k) && ChildOk(p, c, s, k);
    }
    if s.parent.Connected? {
      var k := |s.links| - 1;
      assert LinkOk(p, c, s.links[k]) && ParentOk(p, c, s, k) && ChildOk(p, c, s, k);
      assert DownWords(c)[0] == p.service && DownWords(c)[1] == p.accept;
    }
  }

  // Whatever the timing and however often both sides have started over.
  lemma OnlyCommitted(p: Ids, c: Ids)
    ensures forall moves, s :: After(p, c, START, moves) == Some(s) ==> Committed(p, c, s)
  {
    hide After, Committed, Inv;
    StartIsFine(p, c);
    forall moves, s | After(p, c, START, moves) == Some(s)
      ensures Committed(p, c, s)
    {
      AfterKeeps(p, c, START, moves, s);
      InvIsCommitted(p, c, s);
    }
  }

  lemma StartIsFine(p: Ids, c: Ids)
    ensures Inv(p, c, START)
  {
  }

  lemma MissedIsStuck(p: Ids, c: Ids, s: Peers)
    requires Missed(s)
    ensures forall m :: Next(p, c, s, m) == None
  {
  }

  lemma {:induction false} MissedForGood(p: Ids, c: Ids, s: Peers, moves: seq<Move>, t: Peers)
    requires Missed(s) && After(p, c, s, moves) == Some(t)
    ensures t == s
  {
    MissedIsStuck(p, c, s);
  }

  ghost predicate Adopts(p: Ids, c: Ids, s: Peers, more: seq<Move>, t: Peers) {
    After(p, c, s, more) == Some(t) && t.child.Adopted?
  }

  // Once the parent is connected, the child can still adopt the connection just if it has not missed it.
  lemma AdoptsUnlessMissed(p: Ids, c: Ids, moves: seq<Move>, s: Peers)
    requires After(p, c, START, moves) == Some(s) && s.parent.Connected?
    ensures (exists more, t :: Adopts(p, c, s, more, t)) <==> !Missed(s)
  {
    OnlyCommitted(p, c);
    assert Committed(p, c, s);
    if Missed(s) {
      forall more, t | Adopts(p, c, s, more, t)
        ensures false
      {
        MissedForGood(p, c, s, more, t);
      }
    } else if s.child.Adopted? {
      assert Adopts(p, c, s, [], s);
    } else {
      var t := Next(p, c, s, ChildActs).value;
      assert After(p, c, t, []) == Some(t);
      assert Adopts(p, c, s, [ChildActs], t);
    }
  }

  lemma {:induction false} AfterThen(p: Ids, c: Ids, s: Peers, a: seq<Move>, t: Peers, m: Move)
    requires After(p, c, s, a) == Some(t) && Next(p, c, t, m).Some?
    ensures After(p, c, s, a + [m]) == Next(p, c, t, m)
    decreases |a|
  {
    if a == [] {
      var u := Next(p, c, t, m).value;
      assert ([] + [m])[1..] == [];
      assert After(p, c, u, []) == Some(u);
    } else {
      assert (a + [m])[1..] == a[1..] + [m];
      AfterThen(p, c, Next(p, c, s, a[0]).value, a[1..], t, m);
    }
  }

  lemma Do(ids: Ids, moves: seq<Move>, s: Peers, m: Move) returns (more: seq<Move>, t: Peers)
    requires After(ids, ids, START, moves) == Some(s) && Next(ids, ids, s, m).Some?
    ensures t == Next(ids, ids, s, m).value && After(ids, ids, START, more) == Some(t)
  {
    AfterThen(ids, ids, START, moves, s, m);
    more, t := moves + [m], Next(ids, ids, s, m).value;
  }

  // The gap is real: if the child's patience ends just after the parent has acknowledged, the parent keeps a
  // connection that the child has closed.
  lemma CanBeMissed(ids: Ids) returns (moves: seq<Move>, s: Peers)
    ensures After(ids, ids, START, moves) == Some(s) && Missed(s)
  {
    hide After;
    moves, s := Begin(ids);
    moves, s := Do(ids, moves, s, Dial);
    moves, s := Do(ids, moves, s, ParentActs);
    moves, s := Do(ids, moves, s, ParentActs);
    assert s.links[0].up == [ids.service, ids.session];
    moves, s := Do(ids, moves, s, ChildAccepts);
    moves, s := Do(ids, moves, s, ChildActs);
    moves, s := Do(ids, moves, s, ChildActs);
    assert s.child.heard == [ids.service, ids.session];
    moves, s := Do(ids, moves, s, ChildActs);
    moves, s := Do(ids, moves, s, ChildActs);
    assert s.links[0].down == [ids.service, ids.accept];
    moves, s := Do(ids, moves, s, ParentActs);
    moves, s := Do(ids, moves, s, ParentActs);
    assert s.parent.heard == [ids.service, ids.accept];
    moves, s := Do(ids, moves, s, ParentActs);
    moves, s := Do(ids, moves, s, ChildGivesUp);
  }

  lemma Begin(ids: Ids) returns (moves: seq<Move>, s: Peers)
    ensures After(ids, ids, START, moves) == Some(s) && s == START
  {
    moves, s := [], START;
  }

  // ----- many parents and many tasks

  // Whoever dials a task for a rank is a parent here: a task with several children is several parents. A parent talks
  // on the newest of its connections to the task it dialed last; a task serves the last connection it accepted. The
  // connections of a parent to a task stand in the order of their making.
  datatype Crowd = Crowd(parents: seq<Parent>, targets: seq<int>, children: seq<Child>, serving: seq<int>,
                         links: seq<seq<seq<Link>>>, accepted: seq<seq<nat>>)

  ghost predicate Sized(s: Crowd, n: nat, m: nat) {
    |s.parents| == |s.targets| == |s.links| == |s.accepted| == n && |s.children| == |s.serving| == m &&
    forall i :: 0 <= i < n ==> |s.links[i]| == |s.accepted[i]| == m
  }

  ghost predicate ByParent(m: Move) { m == Dial || m == ParentActs || m == ParentGivesUp }

  // Parent i and child j, as if there were no others.
  ghost function Pair(s: Crowd, i: int, j: int): (pair: Peers)
    requires Sized(s, |s.parents|, |s.children|) && 0 <= i < |s.parents| && 0 <= j < |s.children|
  {
    Peers(s.links[i][j], if s.targets[i] == j then s.parents[i] else Dialing,
          if s.serving[j] == i then s.children[j] else Accepting, s.accepted[i][j])
  }

  // A parent dials whom it likes, and otherwise goes on with the child it dialed; a child accepts from whom it likes,
  // and otherwise goes on with the parent it serves.
  ghost predicate Free(s: Crowd, i: int, j: int, m: Move)
    requires Sized(s, |s.parents|, |s.children|) && 0 <= i < |s.parents| && 0 <= j < |s.children|
  {
    if m == Dial then s.parents[i].Dialing?
    else if ByParent(m) then s.targets[i] == j
    else if m == ChildAccepts then s.children[j].Accepting?
    else s.serving[j] == i
  }

  // A move of parent i towards child j, or of child j towards parent i.
  ghost function NextOf(ps: seq<Ids>, cs: seq<Ids>, s: Crowd, i: int, j: int, m: Move): (t: Option<Crowd>) {
    if !(0 <= i < |ps| && 0 <= j < |cs|) || !Sized(s, |ps|, |cs|) || !Free(s, i, j, m) then None
    else
      match Next(ps[i], cs[j], Pair(s, i, j), m)
      case None => None
      case Some(u) =>
        var counts: seq<nat> := s.accepted[i][j := u.accepted];
        var mine := s.(links := s.links[i := s.links[i][j := u.links]], accepted := s.accepted[i := counts]);
        if ByParent(m) then Some(mine.(parents := s.parents[i := u.parent], targets := s.targets[i := j]))
        else Some(mine.(children := s.children[j := u.child], serving := s.serving[j := i]))
  }

  datatype CrowdMove = CrowdMove(parent: int, child: int, move: Move)

  ghost function AfterAll(ps: seq<Ids>, cs: seq<Ids>, s: Crowd, moves: seq<CrowdMove>): (t: Option<Crowd>)
    decreases |moves|
  {
    if moves == [] then Some(s)
    else
      match NextOf(ps, cs, s, moves[0].parent, moves[0].child, moves[0].move)
      case None => None
      case Some(t) => AfterAll(ps, cs, t, moves[1..])
  }

  ghost function CrowdStart(n: nat, m: nat): (s: Crowd) {
    Crowd(seq(n, _ => Dialing), seq(n, _ => 0), seq(m, _ => Accepting), seq(m, _ => 0),
          seq(n, _ => seq(m, _ => [])), seq(n, _ => seq(m, _ => 0)))
  }

  // A move concerns one pair only.
  lemma MoveOfPair(ps: seq<Ids>, cs: seq<Ids>, s: Crowd, a: int, b: int, m: Move, t: Crowd, i: int, j: int)
    requires NextOf(ps, cs, s, a, b, m) == Some(t) && 0 <= i < |ps| && 0 <= j < |cs|
    ensures Sized(s, |ps|, |cs|) && Sized(t, |ps|, |cs|)
    ensures if a == i && b == j then Next(ps[i], cs[j], Pair(s, i, j), m) == Some(Pair(t, i, j))
      else Pair(t, i, j) == Pair(s, i, j)
  {
  }

  // Every run of all of them is, for each parent and each child, a run of the two.
  lemma {:induction false} EachPairRuns(ps: seq<Ids>, cs: seq<Ids>, s: Crowd, moves: seq<CrowdMove>, t: Crowd,
                                        i: int, j: int)
    returns (own: seq<Move>)
    requires Sized(s, |ps|, |cs|) && AfterAll(ps, cs, s, moves) == Some(t) && 0 <= i < |ps| && 0 <= j < |cs|
    ensures Sized(t, |ps|, |cs|) && After(ps[i], cs[j], Pair(s, i, j), own) == Some(Pair(t, i, j))
    decreases |moves|
  {
    hide NextOf, Next, Pair, Sized;
    if moves == [] {
      own := [];
    } else {
      var CrowdMove(a, b, m) := moves[0];
      var u := NextOf(ps, cs, s, a, b, m).value;
      MoveOfPair(ps, cs, s, a, b, m, u, i, j);
      var rest := EachPairRuns(ps, cs, u, moves[1..], t, i, j);
      own := if a == i && b == j then [m] + rest else rest;
      if a == i && b == j { assert own[1..] == rest; }
    }
  }

  lemma AfterStart(ps: seq<Ids>, cs: seq<Ids>, moves: seq<CrowdMove>, s: Crowd, i: int, j: int) returns (own: seq<Move>)
    requires AfterAll(ps, cs, CrowdStart(|ps|, |cs|), moves) == Some(s) && 0 <= i < |ps| && 0 <= j < |cs|
    ensures Sized(s, |ps|, |cs|) && After(ps[i], cs[j], START, own) == Some(Pair(s, i, j))
  {
    own := EachPairRuns(ps, cs, CrowdStart(|ps|, |cs|), moves, s, i, j);
    assert Pair(CrowdStart(|ps|, |cs|), i, j) == START;
  }

  // Child j has adopted the connection of parent i.
  ghost predicate HasAdopted(s: Crowd, i: int, j: int) {
    0 <= j < |s.children| && j < |s.serving| && s.children[j].Adopted? && s.serving[j] == i
  }

  // What holds of any parent and any child: an adopted connection is the one the parent is connected on, and all ids
  // of the two agree.
  ghost predicate PairCommitted(ps: seq<Ids>, cs: seq<Ids>, s: Crowd, i: int, j: int)
    requires 0 <= i < |ps| && 0 <= j < |cs|
  {
    Sized(s, |ps|, |cs|) && Committed(ps[i], cs[j], Pair(s, i, j)) &&
    (HasAdopted(s, i, j) ==> s.parents[i].Connected? && s.targets[i] == j && ps[i] == cs[j])
  }

  lemma AllCommitted(ps: seq<Ids>, cs: seq<Ids>, moves: seq<CrowdMove>, s: Crowd, i: int, j: int)
    requires AfterAll(ps, cs, CrowdStart(|ps|, |cs|), moves) == Some(s) && 0 <= i < |ps| && 0 <= j < |cs|
    ensures PairCommitted(ps, cs, s, i, j)
  {
    hide AfterAll, After, CrowdStart;
    var own := AfterStart(ps, cs, moves, s, i, j);
    OnlyCommitted(ps[i], cs[j]);
  }

  // However many parents dial however many tasks, turning from one to another and trying again: adoptions are a
  // matching. No task adopts from two parents, no two tasks from one, and each of them adopts the one connection on
  // which its parent passed its checks and wrote its acknowledgement.
  lemma AdoptionsMatch(ps: seq<Ids>, cs: seq<Ids>, moves: seq<CrowdMove>, s: Crowd)
    requires AfterAll(ps, cs, CrowdStart(|ps|, |cs|), moves) == Some(s)
    ensures forall i, j :: 0 <= i < |ps| && 0 <= j < |cs| ==> PairCommitted(ps, cs, s, i, j)
    ensures forall i, j, k ::
      (0 <= i < |ps| && 0 <= j < |cs| && 0 <= k < |cs| && HasAdopted(s, i, j) && HasAdopted(s, i, k)) ==> j == k
    ensures forall i, j, k :: HasAdopted(s, i, j) && HasAdopted(s, k, j) ==> i == k
  {
    hide AfterAll, CrowdStart, Committed;
    forall i, j | 0 <= i < |ps| && 0 <= j < |cs|
      ensures PairCommitted(ps, cs, s, i, j)
    {
      AllCommitted(ps, cs, moves, s, i, j);
    }
    forall i, j, k |
      0 <= i < |ps| && 0 <= j < |cs| && 0 <= k < |cs| && HasAdopted(s, i, j) && HasAdopted(s, i, k)
      ensures j == k
    {
      assert PairCommitted(ps, cs, s, i, j) && PairCommitted(ps, cs, s, i, k);
    }
  }

  ghost predicate CrowdAdopts(ps: seq<Ids>, cs: seq<Ids>, s: Crowd, more: seq<CrowdMove>, t: Crowd, i: int, j: int) {
    AfterAll(ps, cs, s, more) == Some(t) && HasAdopted(t, i, j)
  }

  // Once a parent is connected, a child can still adopt a connection of that parent just if it is the child the parent
  // is connected to and has not missed the connection.
  lemma CrowdAdoptsUnlessMissed(ps: seq<Ids>, cs: seq<Ids>, moves: seq<CrowdMove>, s: Crowd, i: int, j: int)
    requires AfterAll(ps, cs, CrowdStart(|ps|, |cs|), moves) == Some(s) && 0 <= i < |ps| && 0 <= j < |cs|
    requires i < |s.parents| && s.parents[i].Connected?
    ensures Sized(s, |ps|, |cs|)
    ensures (exists more, t :: CrowdAdopts(ps, cs, s, more, t, i, j)) <==> s.targets[i] == j && !Missed(Pair(s, i, j))
  {
    hide AfterAll, CrowdStart, Committed, After;
    AllCommitted(ps, cs, moves, s, i, j);
    if s.targets[i] == j && !Missed(Pair(s, i, j)) { AdoptsInCrowd(ps, cs, s, i, j); }
    forall more, t | CrowdAdopts(ps, cs, s, more, t, i, j)
      ensures s.targets[i] == j && !Missed(Pair(s, i, j))
    {
      StaysConnected(ps, cs, s, more, t, i);
      var own := EachPairRuns(ps, cs, s, more, t, i, j);
      AfterMore(ps, cs, CrowdStart(|ps|, |cs|), moves, s, more);
      AllCommitted(ps, cs, moves + more, t, i, j);
      if Missed(Pair(s, i, j)) { MissedForGood(ps[i], cs[j], Pair(s, i, j), own, Pair(t, i, j)); }
    }
  }

  lemma AdoptsInCrowd(ps: seq<Ids>, cs: seq<Ids>, s: Crowd, i: int, j: int)
    requires 0 <= i < |ps| && 0 <= j < |cs| && PairCommitted(ps, cs, s, i, j)
    requires s.parents[i].Connected? && s.targets[i] == j && !Missed(Pair(s, i, j))
    ensures exists more, t :: CrowdAdopts(ps, cs, s, more, t, i, j)
  {
    if Pair(s, i, j).child.Adopted? {
      assert CrowdAdopts(ps, cs, s, [], s, i, j);
    } else {
      var t := NextOf(ps, cs, s, i, j, ChildActs).value;
      assert AfterAll(ps, cs, t, []) == Some(t);
      assert CrowdAdopts(ps, cs, s, [CrowdMove(i, j, ChildActs)], t, i, j);
    }
  }

  lemma {:induction false} StaysConnected(ps: seq<Ids>, cs: seq<Ids>, s: Crowd, moves: seq<CrowdMove>, t: Crowd, i: int)
    requires Sized(s, |ps|, |cs|) && AfterAll(ps, cs, s, moves) == Some(t) && 0 <= i < |ps| && s.parents[i].Connected?
    ensures Sized(t, |ps|, |cs|) && t.parents[i].Connected? && t.targets[i] == s.targets[i]
    decreases |moves|
  {
    if moves != [] {
      var u := NextOf(ps, cs, s, moves[0].parent, moves[0].child, moves[0].move).value;
      StaysConnected(ps, cs, u, moves[1..], t, i);
    }
  }

  lemma {:induction false} AfterMore(ps: seq<Ids>, cs: seq<Ids>, s: Crowd, a: seq<CrowdMove>, t: Crowd,
                                     b: seq<CrowdMove>)
    requires AfterAll(ps, cs, s, a) == Some(t)
    ensures AfterAll(ps, cs, s, a + b) == AfterAll(ps, cs, t, b)
    decreases |a|
  {
    hide NextOf;
    if a == [] {
      assert a + b == b;
    } else {
      assert (a + b)[1..] == a[1..] + b;
      AfterMore(ps, cs, NextOf(ps, cs, s, a[0].parent, a[0].child, a[0].move).value, a[1..], t, b);
    }
  }
}
