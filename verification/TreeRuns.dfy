// Schedules along the tree. An interval [lo, hi] of the bisection is run by running its two halves and
// handing one message over between their first ranks, lo and mid. The programs are described by
//   at(lo, hi)   the program of rank lo when it is through with the part [lo, hi] of its subtree (in Down:
//                when [lo, hi] is the part it has yet to serve),
//   rest(q)      the program of rank q when the sweep is over.
module TreeRuns {
  import opened Bytestream
  import opened CoboTree
  import opened Network

  type Place = (int, int) -> Proc

  ghost predicate SameEpoch(s: State, n: nat) {
    n <= |s.epochs| && forall p, q :: 0 <= p < n && 0 <= q < n ==> s.epochs[p] == s.epochs[q]
  }

  // From s to t only the tasks lo .. hi moved; they left no byte behind and read none from another call.
  ghost predicate Quiet(s: State, t: State, n: nat, lo: int, hi: int) {
    Reaches(s, t) && Grows(s, t) && SameChannels(s, t) && t.log == s.log && t.epochs == s.epochs &&
    (SameEpoch(s, n) ==> t.crossed == s.crossed) &&
    forall p :: 0 <= p < |s.procs| && !(lo <= p <= hi) ==> t.procs[p] == s.procs[p]
  }

  lemma QuietSelf(s: State, n: nat, lo: int, hi: int)
    requires Shape(s)
    ensures Quiet(s, s, n, lo, hi)
  {
    ReachesSelf(s);
  }

  lemma QuietThen(s: State, t: State, u: State, n: nat, lo: int, hi: int)
    requires Quiet(s, t, n, lo, hi) && Quiet(t, u, n, lo, hi)
    ensures Quiet(s, u, n, lo, hi)
  {
    ReachesTransitive(s, t, u);
    forall e
      ensures Chan(u, e) == Chan(s, e)
    {
      assert Chan(u, e) == Chan(t, e);
    }
  }

  lemma QuietThree(s: State, a: State, b: State, t: State, n: nat, lo: int, hi: int,
                   lo1: int, hi1: int, lo2: int, hi2: int, lo3: int, hi3: int)
    requires Quiet(s, a, n, lo1, hi1) && Quiet(a, b, n, lo2, hi2) && Quiet(b, t, n, lo3, hi3)
    requires lo <= lo1 && hi1 <= hi && lo <= lo2 && hi2 <= hi && lo <= lo3 && hi3 <= hi
    ensures Quiet(s, t, n, lo, hi)
  {
    assert Quiet(s, a, n, lo, hi) && Quiet(a, b, n, lo, hi) && Quiet(b, t, n, lo, hi);
    QuietThen(s, a, b, n, lo, hi);
    QuietThen(s, b, t, n, lo, hi);
  }

  // p writes just what q is waiting for.
  ghost predicate Fits(writer: Proc, reader: Proc, p: int, q: int) {
    writer.Send? && reader.Recv? && writer.to == q && reader.from == p && reader.size == |writer.data|
  }

  lemma Pass(s: State, n: nat, p: int, q: int, lo: int, hi: int) returns (t: State)
    requires Shape(s) && n <= |s.procs| && 0 <= p < n && 0 <= q < n && p != q && lo <= p <= hi && lo <= q <= hi
    requires Fits(s.procs[p], s.procs[q], p, q) && Chan(s, Edge(p, q)) == []
    ensures Quiet(s, t, n, lo, hi)
    ensures t.procs == s.procs[p := s.procs[p].next][q := s.procs[q].onData(s.procs[p].data)]
    ensures s.procs[p].data != [] ==> s.know[p] <= t.know[q]
  {
    t := HandOver(s, p, q);
  }

  ghost predicate UpQuiet(s: State, n: nat) { forall q :: 0 < q < n ==> Chan(s, Edge(q, Parent(n, q))) == [] }
  ghost predicate DownQuiet(s: State, n: nat) { forall q :: 0 < q < n ==> Chan(s, Edge(Parent(n, q), q)) == [] }

  lemma StillQuiet(s: State, t: State, n: nat)
    requires SameChannels(s, t) && UpQuiet(s, n) && DownQuiet(s, n)
    ensures UpQuiet(t, n) && DownQuiet(t, n)
  {
  }

  lemma KnowOn(s: State, u: State, t: State, n: nat)
    requires Shape(s) && n <= |s.procs| == |u.procs| && Grows(u, t)
    requires forall p, q :: 0 <= p < n && 0 <= q < n ==> s.know[p] <= u.know[q]
    ensures forall p, q :: 0 <= p < n && 0 <= q < n ==> s.know[p] <= t.know[q]
  {
  }

  // One bisection step of the tree.
  ghost predicate Joint(n: nat, lo: int, mid: int, hi: int) { Node(n, lo, hi) && lo < hi && mid == Mid(lo, hi) }

  // ----- everything a subtree has to say goes up in one message

  ghost predicate RisesAt(at: Place, rest: int -> Proc, lo: int, mid: int, hi: int) {
    Fits(at(mid, hi), at(lo, mid - 1), mid, lo) && at(mid, hi).next == rest(mid) &&
    at(lo, mid - 1).onData(at(mid, hi).data) == at(lo, hi)
  }

  ghost predicate Rises(n: nat, at: Place, rest: int -> Proc) {
    forall lo, mid, hi {:trigger Joint(n, lo, mid, hi)} :: Joint(n, lo, mid, hi) ==> RisesAt(at, rest, lo, mid, hi)
  }

  ghost predicate RisesWithNews(n: nat, at: Place) {
    forall lo, mid, hi {:trigger Joint(n, lo, mid, hi)} :: Joint(n, lo, mid, hi) ==>
        at(mid, hi).Send? && at(mid, hi).data != []
  }

  // Rank mid has collected its subtree, rank lo the part before it: one message joins the two.
  lemma UpPass(s: State, n: nat, at: Place, rest: int -> Proc, lo: int, mid: int, hi: int) returns (t: State)
    requires Node(n, lo, hi) && 0 <= lo < hi < n && mid == Mid(lo, hi) && Parent(n, mid) == lo
    requires Shape(s) && n <= |s.procs| && UpQuiet(s, n) && Rises(n, at, rest)
    requires s.procs[lo] == at(lo, mid - 1) && s.procs[mid] == at(mid, hi)
    ensures Quiet(s, t, n, lo, hi) && t.procs == s.procs[mid := rest(mid)][lo := at(lo, hi)]
    ensures RisesWithNews(n, at) ==> s.know[mid] <= t.know[lo]
  {
    assert Joint(n, lo, mid, hi);
    t := Pass(s, n, mid, lo, lo, hi);
  }

  // [lo, hi] has been swept up, and if every message carries at least one byte, lo has heard of everybody.
  ghost predicate Risen(s: State, t: State, n: nat, at: Place, rest: int -> Proc, lo: int, hi: int) {
    0 <= lo <= hi < n <= |s.procs| && Quiet(s, t, n, lo, hi) && t.procs[lo] == at(lo, hi) &&
    (forall q :: lo < q <= hi ==> t.procs[q] == rest(q)) &&
    (RisesWithNews(n, at) ==> forall q :: lo <= q <= hi ==> s.know[q] <= t.know[lo])
  }

  lemma UpJoin(s: State, a: State, b: State, n: nat, at: Place, rest: int -> Proc, lo: int, mid: int, hi: int)
    returns (t: State)
    requires Node(n, lo, hi) && 0 <= lo < hi < n && mid == Mid(lo, hi) && Parent(n, mid) == lo
    requires UpQuiet(b, n) && Rises(n, at, rest)
    requires Risen(s, a, n, at, rest, lo, mid - 1) && Risen(a, b, n, at, rest, mid, hi)
    ensures Risen(s, t, n, at, rest, lo, hi)
  {
    t := UpPass(b, n, at, rest, lo, mid, hi);
    QuietThree(s, a, b, t, n, lo, hi, lo, mid - 1, mid, hi, lo, hi);
  }

  lemma {:induction false} Up(s: State, n: nat, at: Place, rest: int -> Proc, lo: int, hi: int) returns (t: State)
    requires Node(n, lo, hi) && Shape(s) && n <= |s.procs| && UpQuiet(s, n) && Rises(n, at, rest)
    requires forall q :: lo <= q <= hi && 0 <= q < n ==> s.procs[q] == at(q, q)
    ensures Risen(s, t, n, at, rest, lo, hi)
    decreases hi - lo
  {
    hide Rises, RisesWithNews, Node, Reaches, Mid;
    NodeInRange(n, lo, hi);
    if lo == hi {
      t := s;
      QuietSelf(s, n, lo, hi);
    } else {
      var mid := Mid(lo, hi);
      Split(n, lo, hi);
      var a := Up(s, n, at, rest, lo, mid - 1);
      var b := Up(a, n, at, rest, mid, hi);
      t := UpJoin(s, a, b, n, at, rest, lo, mid, hi);
    }
  }

  // ----- the same message goes down to everybody

  ghost predicate FallsAt(at: Place, wait: int -> Proc, lo: int, mid: int, hi: int) {
    Fits(at(lo, hi), wait(mid), lo, mid) && at(lo, hi).next == at(lo, mid - 1) &&
    wait(mid).onData(at(lo, hi).data) == at(mid, hi)
  }

  ghost predicate Falls(n: nat, at: Place, wait: int -> Proc, rest: int -> Proc) {
    (forall q {:trigger at(q, q)} :: 0 <= q < n ==> at(q, q) == rest(q)) &&
    forall lo, mid, hi {:trigger Joint(n, lo, mid, hi)} :: Joint(n, lo, mid, hi) ==> FallsAt(at, wait, lo, mid, hi)
  }

  ghost predicate FallsWithNews(n: nat, at: Place) {
    forall lo, mid, hi {:trigger Joint(n, lo, mid, hi)} :: Joint(n, lo, mid, hi) ==>
        at(lo, hi).Send? && at(lo, hi).data != []
  }

  lemma DownPass(s: State, n: nat, at: Place, wait: int -> Proc, rest: int -> Proc, lo: int, mid: int, hi: int)
    returns (t: State)
    requires Node(n, lo, hi) && 0 <= lo < hi < n && mid == Mid(lo, hi) && Parent(n, mid) == lo
    requires Shape(s) && n <= |s.procs| && DownQuiet(s, n) && Falls(n, at, wait, rest)
    requires s.procs[lo] == at(lo, hi) && s.procs[mid] == wait(mid)
    ensures Quiet(s, t, n, lo, hi) && DownQuiet(t, n) && t.procs == s.procs[lo := at(lo, mid - 1)][mid := at(mid, hi)]
    ensures FallsWithNews(n, at) ==> s.know[lo] <= t.know[mid]
  {
    assert Joint(n, lo, mid, hi);
    t := Pass(s, n, lo, mid, lo, hi);
  }

  ghost predicate Fallen(s: State, t: State, n: nat, at: Place, rest: int -> Proc, lo: int, hi: int) {
    0 <= lo <= hi < n <= |s.procs| && Quiet(s, t, n, lo, hi) &&
    (forall q :: lo <= q <= hi ==> t.procs[q] == rest(q)) &&
    (FallsWithNews(n, at) ==> forall q :: lo <= q <= hi ==> s.know[lo] <= t.know[q])
  }

  lemma DownLeaf(s: State, n: nat, at: Place, wait: int -> Proc, rest: int -> Proc, lo: int)
    requires Shape(s) && 0 <= lo < n <= |s.procs| && Falls(n, at, wait, rest) && s.procs[lo] == at(lo, lo)
    ensures Fallen(s, s, n, at, rest, lo, lo)
  {
    QuietSelf(s, n, lo, lo);
  }

  lemma DownJoin(s: State, a: State, b: State, t: State, n: nat, at: Place, rest: int -> Proc, lo: int, mid: int,
                 hi: int)
    requires 0 <= lo < mid <= hi < n <= |s.procs| && Quiet(s, a, n, lo, hi)
    requires FallsWithNews(n, at) ==> s.know[lo] <= a.know[mid]
    requires Fallen(a, b, n, at, rest, mid, hi) && Fallen(b, t, n, at, rest, lo, mid - 1)
    ensures Fallen(s, t, n, at, rest, lo, hi)
  {
    QuietThree(s, a, b, t, n, lo, hi, lo, hi, mid, hi, lo, mid - 1);
  }

  // Serving the split-off half leaves lo and the other half where they were.
  lemma DownOn(s: State, a: State, b: State, n: nat, at: Place, wait: int -> Proc, rest: int -> Proc, lo: int, mid: int,
               hi: int)
    requires 0 <= lo < mid <= hi < n <= |s.procs| == |a.procs|
    requires a.procs == s.procs[lo := at(lo, mid - 1)][mid := at(mid, hi)] && Fallen(a, b, n, at, rest, mid, hi)
    requires forall q :: lo < q <= hi && 0 <= q < n ==> s.procs[q] == wait(q)
    ensures Shape(b) && n <= |b.procs| && b.procs[lo] == at(lo, mid - 1)
    ensures forall q :: lo < q <= mid - 1 && 0 <= q < n ==> b.procs[q] == wait(q)
  {
  }

  lemma {:induction false} Down(s: State, n: nat, at: Place, wait: int -> Proc, rest: int -> Proc, lo: int, hi: int)
    returns (t: State)
    requires Node(n, lo, hi) && Shape(s) && n <= |s.procs| && DownQuiet(s, n) && Falls(n, at, wait, rest)
    requires 0 <= lo < n && s.procs[lo] == at(lo, hi)
    requires forall q :: lo < q <= hi && 0 <= q < n ==> s.procs[q] == wait(q)
    ensures Fallen(s, t, n, at, rest, lo, hi) && DownQuiet(t, n)
    decreases hi - lo
  {
    hide Falls, FallsWithNews, Node, SameChannels, Reaches, Mid;
    NodeInRange(n, lo, hi);
    if lo == hi {
      DownLeaf(s, n, at, wait, rest, lo);
      t := s;
    } else {
      var mid := Mid(lo, hi);
      Split(n, lo, hi);
      var a := DownPass(s, n, at, wait, rest, lo, mid, hi);
      var b := Down(a, n, at, wait, rest, mid, hi);
      DownOn(s, a, b, n, at, wait, rest, lo, mid, hi);
      t := Down(b, n, at, wait, rest, lo, mid - 1);
      DownJoin(s, a, b, t, n, at, rest, lo, mid, hi);
    }
  }

  // ----- every subtree gets its own message, the later children's first

  ghost predicate DealsAt(at: Place, wait: int -> Proc, lo: int, mid: int, hi: int) {
    Fits(at(lo, mid - 1), wait(mid), lo, mid) && at(lo, mid - 1).next == at(lo, hi) &&
    wait(mid).onData(at(lo, mid - 1).data) == at(mid, mid)
  }

  ghost predicate Deals(n: nat, at: Place, wait: int -> Proc, rest: int -> Proc) {
    (forall q {:trigger at(q, Last(n, q))} :: 0 <= q < n ==> at(q, Last(n, q)) == rest(q)) &&
    forall lo, mid, hi {:trigger Joint(n, lo, mid, hi)} :: Joint(n, lo, mid, hi) ==> DealsAt(at, wait, lo, mid, hi)
  }

  lemma DealPass(s: State, n: nat, at: Place, wait: int -> Proc, rest: int -> Proc, lo: int, mid: int, hi: int)
    returns (t: State)
    requires Node(n, lo, hi) && 0 <= lo < hi < n && mid == Mid(lo, hi) && Parent(n, mid) == lo && Last(n, mid) == hi
    requires Shape(s) && n <= |s.procs| && DownQuiet(s, n) && Deals(n, at, wait, rest)
    requires s.procs[lo] == at(lo, mid - 1) && s.procs[mid] == wait(mid)
    ensures Quiet(s, t, n, lo, hi) && DownQuiet(t, n) && t.procs == s.procs[lo := at(lo, hi)][mid := at(mid, mid)]
    ensures at(mid, hi) == rest(mid)
  {
    assert at(mid, Last(n, mid)) == rest(mid);
    assert Joint(n, lo, mid, hi);
    t := Pass(s, n, lo, mid, lo, hi);
  }

  ghost predicate Dealt(s: State, t: State, n: nat, at: Place, rest: int -> Proc, lo: int, hi: int) {
    0 <= lo <= hi < n <= |s.procs| && Quiet(s, t, n, lo, hi) && t.procs[lo] == at(lo, hi) &&
    forall q :: lo < q <= hi ==> t.procs[q] == rest(q)
  }

  lemma DealJoin(s: State, a: State, b: State, t: State, n: nat, at: Place, rest: int -> Proc, lo: int, mid: int,
                 hi: int)
    requires 0 <= lo < mid <= hi < n && Dealt(s, a, n, at, rest, lo, mid - 1)
    requires Quiet(a, b, n, lo, hi) && b.procs == a.procs[lo := at(lo, hi)][mid := at(mid, mid)]
    requires Dealt(b, t, n, at, rest, mid, hi) && at(mid, hi) == rest(mid)
    ensures Dealt(s, t, n, at, rest, lo, hi)
  {
    QuietThree(s, a, b, t, n, lo, hi, lo, mid - 1, lo, hi, mid, hi);
  }

  lemma {:induction false} Deal(s: State, n: nat, at: Place, wait: int -> Proc, rest: int -> Proc, lo: int, hi: int)
    returns (t: State)
    requires Node(n, lo, hi) && Shape(s) && n <= |s.procs| && DownQuiet(s, n) && Deals(n, at, wait, rest)
    requires 0 <= lo < n && s.procs[lo] == at(lo, lo)
    requires forall q :: lo < q <= hi && 0 <= q < n ==> s.procs[q] == wait(q)
    ensures Dealt(s, t, n, at, rest, lo, hi) && DownQuiet(t, n)
    decreases hi - lo
  {
    hide Deals, Node, SameChannels, Reaches, Mid;
    NodeInRange(n, lo, hi);
    if lo == hi {
      t := s;
      QuietSelf(s, n, lo, hi);
    } else {
      var mid := Mid(lo, hi);
      Split(n, lo, hi);
      var a := Deal(s, n, at, wait, rest, lo, mid - 1);
      var b := DealPass(a, n, at, wait, rest, lo, mid, hi);
      t := Deal(b, n, at, wait, rest, mid, hi);
      DealJoin(s, a, b, t, n, at, rest, lo, mid, hi);
    }
  }
}
