// A barrier that one of its members never enters, because it has returned before: nobody gets through. End of file
// spreads up the tree to the root and from there down again, and whoever has not returned exits.
module BrokenRuns {
  import opened Bytestream
  import opened CoboTree
  import opened Network
  import opened Collectives
  import opened TreeRuns

  // Only the tasks 0 .. n-1 have moved and used the channels between them, and nothing has been announced.
  ghost predicate Within(s: State, t: State, n: nat) {
    Reaches(s, t) && Shape(t) && n <= |s.procs| == |t.procs| && t.log == s.log &&
    (forall p :: n <= p < |s.procs| ==> t.procs[p] == s.procs[p]) &&
    forall e: Edge :: !(0 <= e.src < n && 0 <= e.dst < n) ==> Chan(t, e) == Chan(s, e)
  }

  lemma WithinSelf(s: State, n: nat)
    requires Shape(s) && n <= |s.procs|
    ensures Within(s, s, n)
  {
    ReachesSelf(s);
  }

  lemma WithinThen(s: State, t: State, u: State, n: nat)
    requires Within(s, t, n) && Within(t, u, n)
    ensures Within(s, u, n)
  {
    ReachesTransitive(s, t, u);
  }

  // ----- single steps

  lemma Exits(s: State, n: nat, q: int) returns (t: State)
    requires Shape(s) && 0 <= q < n <= |s.procs| && s.procs[q].Recv? && s.procs[q].onEof == EXIT
    requires Departed(s, s.procs[q].from) && |Chan(s, Edge(s.procs[q].from, q))| < s.procs[q].size
    ensures Within(s, t, n) && t.procs == s.procs[q := EXIT] && SameChannels(s, t)
  {
    hide Reaches;
    t := Step(s, q);
    ReachesStep(s, q);
    assert t.chans == s.chans;
  }

  lemma Reads(s: State, n: nat, q: int) returns (t: State, d: Bytes)
    requires Shape(s) && 0 <= q < n <= |s.procs| && s.procs[q].Recv? && 0 <= s.procs[q].from < n
    requires s.procs[q].size <= |Chan(s, Edge(s.procs[q].from, q))|
    ensures Within(s, t, n) && t.procs == s.procs[q := s.procs[q].onData(d)]
    ensures forall e :: e != Edge(s.procs[q].from, q) ==> Chan(t, e) == Chan(s, e)
  {
    hide Reaches, Payload, Pasts, FromCall;
    t := Step(s, q);
    d := Payload(Chan(s, Edge(s.procs[q].from, q))[..s.procs[q].size]);
    ReachesStep(s, q);
  }

  lemma Says(s: State, n: nat, q: int) returns (t: State)
    requires Shape(s) && 0 <= q < n <= |s.procs| && s.procs[q].Send? && 0 <= s.procs[q].to < n
    ensures Within(s, t, n) && t.procs == s.procs[q := s.procs[q].next]
    ensures forall e :: e != Edge(q, s.procs[q].to) ==> Chan(t, e) == Chan(s, e)
    ensures var e := Edge(q, s.procs[q].to); |Chan(t, e)| == |Chan(s, e)| + |s.procs[q].data|
  {
    hide Reaches;
    t := Step(s, q);
    ReachesStep(s, q);
  }

  // ----- the tree

  lemma ParentsBefore(n: nat)
    ensures forall q :: 0 < q < n ==> 0 <= Parent(n, q) < q
  {
    hide WalkParent;
    forall q | 0 < q < n
      ensures 0 <= Parent(n, q) < q
    {
      ParentInRange(q, 0, n - 1, 0);
    }
  }

  // ----- up the tree

  // q has returned in s, or has exited since.
  ghost predicate Gone(s: State, t: State, q: int) {
    0 <= q < |s.procs| && q < |t.procs| && t.procs[q] == if s.procs[q].Done? then s.procs[q] else EXIT
  }

  // q has passed on what its subtree had to say, and waits for the root's word.
  ghost predicate Waits(t: State, n: nat, q: int) {
    0 < q < n <= |t.procs| && t.procs[q].Recv? && t.procs[q].from == Parent(n, q) && t.procs[q].size == INT_SIZE &&
    t.procs[q].onEof == EXIT
  }

  // What q has for its parent is under way.
  ghost predicate Sent(s: State, t: State, n: nat, q: int) {
    (Gone(s, t, q) ==> Chan(t, Edge(q, Parent(n, q))) == []) &&
    (Waits(t, n, q) ==> |Chan(t, Edge(q, Parent(n, q)))| == INT_SIZE)
  }

  ghost predicate KidsWait(t: State, n: nat, q: int) {
    forall i :: 0 <= i < |Kids(n, q)| ==> Waits(t, n, Kids(n, q)[i].rank)
  }

  // The ranks behind p have been dealt with, those before it have not moved.
  ghost predicate Beyond(s: State, t: State, n: nat, p: int) {
    Within(s, t, n) && DownQuiet(t, n) &&
    (forall q :: 0 <= q < p && q < n ==> t.procs[q] == s.procs[q]) &&
    (forall q :: 0 < q <= p && q < n ==> Chan(t, Edge(q, Parent(n, q))) == []) &&
    (forall q :: p < q < n ==> Gone(s, t, q) || (Waits(t, n, q) && KidsWait(t, n, q) && !s.procs[q].Done?)) &&
    forall q :: p < q < n && Parent(n, q) < p ==> Sent(s, t, n, q)
  }

  ghost predicate Swept(s: State, t: State, n: nat, m: int) {
    Within(s, t, n) && DownQuiet(t, n) &&
    (forall q :: 0 <= q < m && q < n ==> t.procs[q] == s.procs[q]) &&
    (forall q :: 0 < q < m && q < n ==> Chan(t, Edge(q, Parent(n, q))) == []) &&
    (forall q :: m <= q < n ==> Gone(s, t, q) || (Waits(t, n, q) && KidsWait(t, n, q) && !s.procs[q].Done?)) &&
    forall q :: m <= q < n && 0 < q && Parent(n, q) < m ==> Sent(s, t, n, q)
  }

  // The children up to the i-th are to be read yet, the others wait.
  ghost predicate HasRead(s: State, t: State, n: nat, p: int, i: int) {
    (forall j :: 0 <= j <= i && j < |Kids(n, p)| ==> Sent(s, t, n, Kids(n, p)[j].rank)) &&
    forall j :: i < j < |Kids(n, p)| && 0 <= j ==> Waits(t, n, Kids(n, p)[j].rank)
  }

  // p takes a step that concerns at most the channel from a later rank c.
  lemma StillBeyond(s: State, t: State, u: State, n: nat, p: int, c: int, next: Proc)
    requires Beyond(s, t, n, p) && Within(t, u, n) && 0 <= p < c < n && u.procs == t.procs[p := next]
    requires forall e :: e != Edge(c, p) ==> Chan(u, e) == Chan(t, e)
    ensures Beyond(s, u, n, p)
  {
    hide Within, Kids, Parent, Chan;
    ParentsBefore(n);
    WithinThen(s, t, u, n);
    WithinSize(s, t, n);
    forall q | p < q < n
      ensures Gone(s, u, q) || (Waits(u, n, q) && KidsWait(u, n, q) && !s.procs[q].Done?)
    {
      if !Gone(s, t, q) { StillWait(t, u, n, q, p, next); }
    }
  }

  lemma WithinSize(s: State, t: State, n: nat)
    requires Within(s, t, n)
    ensures n <= |s.procs| == |t.procs| && Shape(t)
  {
  }

  lemma StillWait(t: State, u: State, n: nat, q: int, p: int, next: Proc)
    requires KidsWait(t, n, q) && 0 <= p < q < n <= |t.procs| && u.procs == t.procs[p := next]
    ensures KidsWait(u, n, q)
  {
    hide Kids, Parent;
    forall i | 0 <= i < |Kids(n, q)|
      ensures Waits(u, n, Kids(n, q)[i].rank)
    {
      KidIs(n, q, i);
    }
  }

  // p has returned.
  lemma SweptGone(s: State, t: State, n: nat, p: int)
    requires Beyond(s, t, n, p) && 0 <= p < n && Gone(s, t, p)
    ensures Swept(s, t, n, p)
  {
    hide Within, Kids, Parent, Chan;
  }

  // p has written to its parent and waits.
  lemma SweptWaiting(s: State, t: State, u: State, n: nat, p: int, next: Proc)
    requires Beyond(s, t, n, p) && KidsWait(t, n, p) && Within(t, u, n) && 0 < p < n && u.procs == t.procs[p := next]
    requires var e := Edge(p, Parent(n, p)); |Chan(u, e)| == INT_SIZE && forall x :: x != e ==> Chan(u, x) == Chan(t, x)
    requires Waits(u, n, p) && p < |s.procs| && !s.procs[p].Done?
    ensures Swept(s, u, n, p)
  {
    hide Within, Kids, Parent, Chan;
    ParentsBefore(n);
    WithinThen(s, t, u, n);
    WithinSize(s, t, n);
    StillWaits(t, u, n, p, next);
    forall q | p < q < n
      ensures Gone(s, u, q) || (Waits(u, n, q) && KidsWait(u, n, q) && !s.procs[q].Done?)
    {
      if !Gone(s, t, q) { StillWait(t, u, n, q, p, next); }
    }
  }

  lemma StillWaits(t: State, u: State, n: nat, p: int, next: Proc)
    requires KidsWait(t, n, p) && 0 <= p < n <= |t.procs| && u.procs == t.procs[p := next]
    ensures KidsWait(u, n, p)
  {
    hide Kids, Parent;
    forall i | 0 <= i < |Kids(n, p)|
      ensures Waits(u, n, Kids(n, p)[i].rank)
    {
      KidIs(n, p, i);
    }
  }

  lemma KidDealt(s: State, t: State, n: nat, p: int, i: nat)
    requires Beyond(s, t, n, p) && HasRead(s, t, n, p, i) && 0 <= p < n && i < |Kids(n, p)|
    ensures var c := Kids(n, p)[i].rank;
      p < c < n <= |t.procs| == |s.procs| && Shape(t) &&
      ((Gone(s, t, c) && Chan(t, Edge(c, p)) == []) || (Waits(t, n, c) && |Chan(t, Edge(c, p))| == INT_SIZE))
  {
    hide Kids, Parent, Chan, Reaches;
    KidIs(n, p, i);
  }

  lemma OneRead(s: State, t: State, v: State, n: nat, p: int, i: nat, next: Proc)
    requires HasRead(s, t, n, p, i) && 0 <= p < n <= |t.procs| == |s.procs| && i < |Kids(n, p)|
    requires Waits(t, n, Kids(n, p)[i].rank)
    requires v.procs == t.procs[p := next] && forall e :: e != Edge(Kids(n, p)[i].rank, p) ==> Chan(v, e) == Chan(t, e)
    ensures HasRead(s, v, n, p, i - 1)
  {
    hide Kids, Parent, Chan;
    forall j | 0 <= j < |Kids(n, p)|
      ensures j <= i - 1 ==> Sent(s, v, n, Kids(n, p)[j].rank)
      ensures i - 1 < j ==> Waits(v, n, Kids(n, p)[j].rank)
    {
      KidIs(n, p, j);
      if i < j { KidsDiffer(n, p, i, j); }
      if j < i { KidsDiffer(n, p, j, i); }
    }
  }

  lemma AllWait(s: State, t: State, n: nat, p: int)
    requires HasRead(s, t, n, p, -1)
    ensures KidsWait(t, n, p)
  {
    hide Kids;
  }

  // All children wait: p joins them, unless it is the root.
  lemma AllRead(s: State, t: State, n: nat, p: int, max: int, k: Kont) returns (u: State)
    requires Beyond(s, t, n, p) && HasRead(s, t, n, p, -1) && 0 <= p < n && t.procs[p] == Reduce(n, p, -1, max, k)
    requires !s.procs[p].Done?
    ensures Swept(s, u, n, p) || (p == 0 && KidsWait(u, n, 0) && Beyond(s, u, n, 0))
  {
    hide Kids, Parent, Chan, EncodeInt, Swept, HasRead, Reaches, KidsWait, Sent, Within;
    AllWait(s, t, n, p);
    WithinSize(s, t, n);
    u := t;
    if p > 0 {
      UnsignedRoundTrip(max);
      ParentsBefore(n);
      u := Says(t, n, p);
      SweptWaiting(s, t, u, n, p, u.procs[p]);
    }
  }

  // p reads what its children have sent, from the last one on.
  lemma {:induction false} ReadKids(s: State, t: State, n: nat, p: int, i: int, max: int, k: Kont) returns (u: State)
    requires Beyond(s, t, n, p) && HasRead(s, t, n, p, i) && 0 <= p < n && -1 <= i < |Kids(n, p)|
    requires !s.procs[p].Done? && t.procs[p] == Reduce(n, p, i, max, k)
    ensures Swept(s, u, n, p) || (p == 0 && KidsWait(u, n, 0) && Beyond(s, u, n, 0))
    decreases i + 1
  {
    hide Within, Kids, Parent, Chan, Beyond, EncodeInt, DecodeInt, Bcast, Swept, HasRead;
    if i < 0 {
      u := AllRead(s, t, n, p, max, k);
    } else {
      var c := Kids(n, p)[i].rank;
      KidIs(n, p, i);
      KidDealt(s, t, n, p, i);
      if Gone(s, t, c) {
        u := Exits(t, n, p);
        StillBeyond(s, t, u, n, p, c, EXIT);
        SweptGone(s, u, n, p);
      } else {
        var v, d := Reads(t, n, p);
        StillBeyond(s, t, v, n, p, c, ReduceKont(n, p, i, max, k)(d));
        OneRead(s, t, v, n, p, i, ReduceKont(n, p, i, max, k)(d));
        u := ReadKids(s, v, n, p, i - 1, Max(max, DecodeInt(d)), k);
      }
    }
  }

  // ----- nobody gets through

  // If all children of all who wait wait, and the root's do, all wait.
  lemma {:induction false} EverybodyWaits(s: State, t: State, n: nat, q: int)
    requires Beyond(s, t, n, 0) && KidsWait(t, n, 0) && 0 < q < n
    ensures Waits(t, n, q)
    decreases q
  {
    hide Within, Kids, Parent, Chan, Sent;
    ParentsBefore(n);
    var p := Parent(n, q);
    if p > 0 { EverybodyWaits(s, t, n, p); }
    ChildrenMatchParents(n, p, q);
    var i :| 0 <= i < |Kids(n, p)| && Kids(n, p)[i].rank == q;
    assert KidsWait(t, n, p);
  }

  // The ranks from the last one down to m, where z has returned before.
  lemma {:induction false} Sweep(s: State, n: nat, ks: seq<Kont>, z: int, m: nat) returns (t: State)
    requires Shape(s) && UpQuiet(s, n) && DownQuiet(s, n) && m <= n == |ks| && 0 <= z < n <= |s.procs|
    requires forall q :: 0 <= q < n ==> s.procs[q].Done? || s.procs[q] == Barrier(n, q, ks[q])
    requires s.procs[z].Done?
    ensures Swept(s, t, n, m)
    decreases n - m
  {
    hide Within, Kids, Parent, Chan, Sent, Barrier, KidsWait, Reaches;
    if m == n {
      WithinSelf(s, n);
      ParentsBefore(n);
      t := s;
    } else {
      var u := Sweep(s, n, ks, z, m + 1);
      t := SweepOne(s, u, n, ks[m], z, m);
    }
  }

  lemma SweptIsBeyond(s: State, t: State, n: nat, p: int)
    requires Swept(s, t, n, p + 1) && 0 <= p < n
    ensures Beyond(s, t, n, p) && 0 <= p < |t.procs| == |s.procs| && t.procs[p] == s.procs[p]
    ensures HasRead(s, t, n, p, |Kids(n, p)| - 1)
  {
    hide Kids, Parent, Chan, Reaches;
    ParentsBefore(n);
    forall j | 0 <= j < |Kids(n, p)|
      ensures Sent(s, t, n, Kids(n, p)[j].rank)
    {
      KidIs(n, p, j);
    }
  }

  lemma SweepOne(s: State, t: State, n: nat, k: Kont, z: int, p: int) returns (u: State)
    requires Swept(s, t, n, p + 1) && 0 <= p < n <= |s.procs| && 0 <= z < n && s.procs[z].Done?
    requires s.procs[p].Done? || s.procs[p] == Barrier(n, p, k)
    ensures Swept(s, u, n, p)
  {
    hide Kids, Parent, Chan, Reaches, Swept, Beyond, HasRead, Reduce;
    SweptIsBeyond(s, t, n, p);
    if s.procs[p].Done? {
      u := t;
      SweptGone(s, t, n, p);
    } else {
      u := ReadKids(s, t, n, p, |Kids(n, p)| - 1, 1, Discard(k));
      if !Swept(s, u, n, p) { NotThrough(s, u, n, z); }
    }
  }

  lemma NotThrough(s: State, t: State, n: nat, z: int)
    requires Beyond(s, t, n, 0) && KidsWait(t, n, 0) && 0 < z < n <= |s.procs|
    ensures !s.procs[z].Done?
  {
    hide Kids, Parent, Chan, Reaches, Within;
    EverybodyWaits(s, t, n, z);
  }

  // ----- down the tree

  // The ranks before m have returned or exited, the others have so or wait.
  ghost predicate Fallen(s: State, t: State, n: nat, m: int) {
    Within(s, t, n) && DownQuiet(t, n) && (forall q :: 0 <= q < m && q < n ==> Gone(s, t, q)) &&
    forall q :: 0 <= q < n ==> Gone(s, t, q) || (Waits(t, n, q) && !s.procs[q].Done?)
  }

  lemma {:induction false} Fall(s: State, t: State, n: nat, m: nat) returns (u: State)
    requires Fallen(s, t, n, 1) && 1 <= m <= n
    ensures Fallen(s, u, n, m)
    decreases m
  {
    hide Fallen;
    if m == 1 {
      u := t;
    } else {
      var v := Fall(s, t, n, m - 1);
      u := FallOne(s, v, n, m - 1);
    }
  }

  lemma StillDownQuiet(t: State, u: State, n: nat)
    requires DownQuiet(t, n) && SameChannels(t, u)
    ensures DownQuiet(u, n)
  {
    hide Parent;
  }

  lemma FallOne(s: State, t: State, n: nat, m: nat) returns (u: State)
    requires Fallen(s, t, n, m) && 1 <= m < n
    ensures Fallen(s, u, n, m + 1)
  {
    hide Within, Parent, Chan;
    ParentsBefore(n);
    WithinSize(s, t, n);
    u := t;
    if !Gone(s, t, m) {
      assert Gone(s, t, Parent(n, m));
      u := Exits(t, n, m);
      WithinThen(s, t, u, n);
      StillDownQuiet(t, u, n);
      forall q | 0 <= q < m
        ensures Gone(s, u, q)
      {
        assert Gone(s, t, q) && u.procs[q] == t.procs[q];
      }
      assert Gone(s, u, m);
      forall q | m < q < n
        ensures Gone(s, u, q) || (Waits(u, n, q) && !s.procs[q].Done?)
      {
        assert u.procs[q] == t.procs[q];
      }
    }
  }

  // Whoever waits for the root in a tree whose root has gone, exits.
  lemma RootGone(s: State, n: nat) returns (t: State)
    requires Shape(s) && 1 <= n <= |s.procs| && DownQuiet(s, n) && s.procs[0].Done?
    requires forall q :: 0 < q < n ==> s.procs[q].Done? || Waits(s, n, q)
    ensures Within(s, t, n) && forall q :: 0 <= q < n ==> Gone(s, t, q)
  {
    WithinSelf(s, n);
    t := Fall(s, s, n, n);
  }

  // If a task has returned before the barrier, so do in the end all that are in it: by exiting.
  lemma BarrierBreaks(s: State, n: nat, ks: seq<Kont>, z: int) returns (t: State)
    requires Shape(s) && UpQuiet(s, n) && DownQuiet(s, n) && n == |ks| && 0 <= z < n <= |s.procs|
    requires forall q :: 0 <= q < n ==> s.procs[q].Done? || s.procs[q] == Barrier(n, q, ks[q])
    requires s.procs[z].Done?
    ensures Within(s, t, n)
    ensures forall q :: 0 <= q < n ==> t.procs[q] == if s.procs[q].Done? then s.procs[q] else Done(Code(1))
  {
    hide Barrier, Within, Parent, Kids;
    var u := Sweep(s, n, ks, z, 0);
    t := Fall(s, u, n, n);
    WithinSize(s, t, n);
  }
}
