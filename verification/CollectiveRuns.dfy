// One completing schedule for each collective, and what every rank is left with.
module CollectiveRuns {
  import opened Bytestream
  import opened CoboTree
  import opened Network
  import opened Collectives
  import opened TreeRuns

  // Where the child loop of rank lo stands once the part [lo, hi] of its subtree has been dealt with.
  function Next(n: nat, lo: int, hi: int): (v: int) { |Kids(n, lo)| - 1 - |WalkKids(lo, lo, hi)| }

  // The child split off by a bisection is the entry the loop comes to next.
  lemma NextKid(n: nat, lo: int, mid: int, hi: int)
    requires Joint(n, lo, mid, hi)
    ensures 0 <= lo < mid <= hi < n && Parent(n, mid) == lo && Last(n, mid) == hi && Next(n, mid, hi) == -1
    ensures -1 <= Next(n, lo, hi) && Next(n, lo, hi) == Next(n, lo, mid - 1) - 1 && Next(n, lo, mid - 1) < |Kids(n, lo)|
    ensures Kids(n, lo)[Next(n, lo, mid - 1)] == Kid(mid, hi - mid + 1)
  {
    hide Mid, Visits;
    Split(n, lo, hi);
    KidsSuffix(lo, hi, 0, n - 1);
    var all, own := Kids(n, lo), WalkKids(lo, lo, hi);
    assert all[|all| - |own|..][0] == own[0];
  }

  lemma WholeTree(n: nat)
    requires n >= 1
    ensures Node(n, 0, n - 1) && Next(n, 0, n - 1) == -1
  {
    assert Visits(0, n - 1, 0, n - 1);
  }

  function KontOf(ks: seq<Kont>, q: int): (k: Kont) { if 0 <= q < |ks| then ks[q] else (d: Bytes) => EXIT }

  // ----- blocks of equal size

  ghost predicate Blocks(parts: seq<Bytes>, n: nat, count: nat) {
    |parts| == n && forall q :: 0 <= q < n ==> |parts[q]| == count
  }

  function Part(parts: seq<Bytes>, lo: int, hi: int): (b: Bytes) {
    if 0 <= lo <= hi < |parts| then Concat(parts[lo..hi + 1]) else []
  }

  lemma {:induction false} BlocksLength(parts: seq<Bytes>, count: nat)
    requires forall q :: 0 <= q < |parts| ==> |parts[q]| == count
    ensures |Concat(parts)| == Size(count, |parts|)
  {
    if parts != [] { BlocksLength(parts[1..], count); }
  }

  lemma PartSplit(parts: seq<Bytes>, n: nat, count: nat, lo: int, mid: int, hi: int)
    requires Blocks(parts, n, count) && 0 <= lo < mid <= hi < n
    ensures Part(parts, lo, hi) == Part(parts, lo, mid - 1) + Part(parts, mid, hi)
    ensures |Part(parts, lo, mid - 1)| == Size(count, mid - lo) && |Part(parts, mid, hi)| == Size(count, hi - mid + 1)
  {
    assert parts[lo..hi + 1] == parts[lo..mid] + parts[mid..hi + 1];
    ConcatAppend(parts[lo..mid], parts[mid..hi + 1]);
    BlocksLength(parts[lo..mid], count);
    BlocksLength(parts[mid..hi + 1], count);
  }

  lemma PartOne(parts: seq<Bytes>, q: int)
    requires 0 <= q < |parts|
    ensures Part(parts, q, q) == parts[q]
  {
    assert parts[q..q + 1] == [parts[q]];
    assert Concat([parts[q]]) == parts[q] + Concat([]);
  }

  // ----- gather

  function CollectAt(n: nat, count: nat, parts: seq<Bytes>, ks: seq<Kont>): (place: Place) {
    (lo: int, hi: int) => Collect(n, lo, count, Next(n, lo, hi), Part(parts, lo, hi), KontOf(ks, lo))
  }
  function Emptied(ks: seq<Kont>): (f: int -> Proc) { (q: int) => KontOf(ks, q)([]) }

  // Child p is done collecting; q's loop is at the entry of p.
  lemma CollectFits(n: nat, count: nat, p: int, q: int, i: int, mine: Bytes, big: Bytes, kp: Kont, kq: Kont)
    requires 0 <= i < |Kids(n, q)| && p != 0 && Parent(n, p) == q && Kids(n, q)[i].rank == p
    requires |mine| == Size(count, Kids(n, q)[i].count)
    ensures var child, own := Collect(n, p, count, -1, mine, kp), Collect(n, q, count, i, big, kq);
      Fits(child, own, p, q) && child.data == mine && child.next == kp([]) &&
      own.onData(mine) == Collect(n, q, count, i - 1, big + mine, kq)
  {
  }

  lemma CollectPlaces(n: nat, count: nat, parts: seq<Bytes>, ks: seq<Kont>, lo: int, mid: int, hi: int)
    requires Blocks(parts, n, count) && Joint(n, lo, mid, hi)
    ensures var at, i, mine := CollectAt(n, count, parts, ks), Next(n, lo, mid - 1), Part(parts, mid, hi);
      at(mid, hi) == Collect(n, mid, count, -1, mine, KontOf(ks, mid)) &&
      at(lo, mid - 1) == Collect(n, lo, count, i, Part(parts, lo, mid - 1), KontOf(ks, lo)) &&
      at(lo, hi) == Collect(n, lo, count, i - 1, Part(parts, lo, mid - 1) + mine, KontOf(ks, lo))
  {
    hide Collect, Size, Kids, Part, Mid, Next;
    NextKid(n, lo, mid, hi);
    PartSplit(parts, n, count, lo, mid, hi);
  }

  lemma CollectRises(n: nat, count: nat, parts: seq<Bytes>, ks: seq<Kont>)
    requires Blocks(parts, n, count)
    ensures Rises(n, CollectAt(n, count, parts, ks), Emptied(ks))
  {
    hide Collect, Size, Kids, Part, Next, Mid;
    var at := CollectAt(n, count, parts, ks);
    forall lo, mid, hi | Joint(n, lo, mid, hi)
      ensures RisesAt(at, Emptied(ks), lo, mid, hi)
    {
      NextKid(n, lo, mid, hi);
      PartSplit(parts, n, count, lo, mid, hi);
      CollectPlaces(n, count, parts, ks, lo, mid, hi);
      CollectFits(n, count, mid, lo, Next(n, lo, mid - 1), Part(parts, mid, hi), Part(parts, lo, mid - 1),
                  KontOf(ks, mid), KontOf(ks, lo));
    }
  }

  lemma GatherStarts(n: nat, count: nat, parts: seq<Bytes>, ks: seq<Kont>, q: int)
    requires Blocks(parts, n, count) && |ks| == n && Rank(n, q)
    ensures Gather(n, q, parts[q], count, ks[q]) == CollectAt(n, count, parts, ks)(q, q)
  {
    PartOne(parts, q);
    assert Slice(parts[q], 0, count) == parts[q];
  }

  lemma GatherRuns(s: State, n: nat, count: nat, parts: seq<Bytes>, ks: seq<Kont>) returns (t: State)
    requires 1 <= n <= |s.procs| && Shape(s) && UpQuiet(s, n) && Blocks(parts, n, count) && |ks| == n
    requires forall q :: 0 <= q < n ==> s.procs[q] == Gather(n, q, parts[q], count, ks[q])
    ensures Quiet(s, t, n, 0, n - 1)
    ensures forall q :: 0 <= q < n ==> t.procs[q] == ks[q](if q == 0 then Concat(parts) else [])
  {
    WholeTree(n);
    var at := CollectAt(n, count, parts, ks);
    forall q | 0 <= q < n
      ensures s.procs[q] == at(q, q)
    {
      GatherStarts(n, count, parts, ks, q);
    }
    CollectRises(n, count, parts, ks);
    t := Up(s, n, at, Emptied(ks), 0, n - 1);
    assert parts[0..n] == parts;
    assert at(0, n - 1) == ks[0](Concat(parts));
  }

  // ----- broadcast

  function FanOutAt(n: nat, data: Bytes, ks: seq<Kont>): (place: Place) {
    (lo: int, hi: int) => FanOut(n, lo, data, Next(n, lo, hi) + 1, KontOf(ks, lo))
  }
  function AwaitBcast(n: nat, size: nat, ks: seq<Kont>): (f: int -> Proc) {
    (q: int) => Recv(Parent(n, q), size, BcastKont(n, q, KontOf(ks, q)), EXIT)
  }
  function Told(data: Bytes, ks: seq<Kont>): (f: int -> Proc) { (q: int) => KontOf(ks, q)(data) }

  lemma FanOutPlaces(n: nat, data: Bytes, ks: seq<Kont>, lo: int, mid: int, hi: int)
    requires Joint(n, lo, mid, hi)
    ensures var at, i := FanOutAt(n, data, ks), Next(n, lo, hi) + 1;
      0 <= i < |Kids(n, lo)| && Kids(n, lo)[i].rank == mid &&
      at(lo, hi) == Send(mid, data, FanOut(n, lo, data, i + 1, KontOf(ks, lo))) &&
      at(lo, mid - 1) == FanOut(n, lo, data, i + 1, KontOf(ks, lo)) &&
      at(mid, hi) == FanOut(n, mid, data, 0, KontOf(ks, mid))
  {
    hide WalkKids, Total, Last, Joint;
    NextKid(n, lo, mid, hi);
  }

  lemma FanOutFalls(n: nat, data: Bytes, ks: seq<Kont>)
    ensures Falls(n, FanOutAt(n, data, ks), AwaitBcast(n, |data|, ks), Told(data, ks))
    ensures data != [] ==> FallsWithNews(n, FanOutAt(n, data, ks))
  {
    var at := FanOutAt(n, data, ks);
    forall q | 0 <= q < n
      ensures at(q, q) == Told(data, ks)(q)
    {
      assert Next(n, q, q) == |Kids(n, q)| - 1;
    }
    forall lo, mid, hi | Joint(n, lo, mid, hi)
      ensures FallsAt(at, AwaitBcast(n, |data|, ks), lo, mid, hi) && at(lo, hi).Send? && at(lo, hi).data == data
    {
      NextKid(n, lo, mid, hi);
      FanOutPlaces(n, data, ks, lo, mid, hi);
    }
  }

  // Everybody ends up with the root's bytes, and if there are any, knowing what the root knew.
  lemma BcastRuns(s: State, n: nat, data: Bytes, bufs: seq<Bytes>, ks: seq<Kont>) returns (t: State)
    requires 1 <= n <= |s.procs| && Shape(s) && DownQuiet(s, n) && |bufs| == |ks| == n && bufs[0] == data
    requires forall q :: 0 <= q < n ==> s.procs[q] == Bcast(n, q, bufs[q], |data|, ks[q])
    ensures Quiet(s, t, n, 0, n - 1)
    ensures forall q :: 0 <= q < n ==> t.procs[q] == ks[q](data)
    ensures data != [] ==> forall q :: 0 <= q < n ==> s.know[0] <= t.know[q]
  {
    WholeTree(n);
    FanOutFalls(n, data, ks);
    assert Slice(data, 0, |data|) == data;
    assert s.procs[0] == FanOutAt(n, data, ks)(0, n - 1);
    t := Down(s, n, FanOutAt(n, data, ks), AwaitBcast(n, |data|, ks), Told(data, ks), 0, n - 1);
  }

  // ----- maximum

  function MaxOf(values: seq<int>): (v: int)
    requires values != []
  {
    if |values| == 1 then values[0] else Max(MaxOf(values[..|values| - 1]), values[|values| - 1])
  }

  lemma {:induction false} MaxOfConcat(a: seq<int>, b: seq<int>)
    requires a != [] && b != []
    ensures MaxOf(a + b) == Max(MaxOf(a), MaxOf(b))
    decreases |b|
  {
    assert (a + b)[..|a + b| - 1] == a + b[..|b| - 1];
    if |b| == 1 {
      assert a + b[..0] == a;
    } else {
      MaxOfConcat(a, b[..|b| - 1]);
    }
  }

  // The maximum is one of the values and none is larger.
  lemma {:induction false} MaxOfIsMax(values: seq<int>)
    requires values != []
    ensures MaxOf(values) in values
    ensures forall i :: 0 <= i < |values| ==> values[i] <= MaxOf(values)
  {
    if |values| > 1 {
      var front := values[..|values| - 1];
      MaxOfIsMax(front);
      assert forall i :: 0 <= i < |front| ==> front[i] == values[i];
    }
  }

  function MaxPart(values: seq<int>, lo: int, hi: int): (v: int) {
    if 0 <= lo <= hi < |values| then MaxOf(values[lo..hi + 1]) else 0
  }

  ghost predicate Int32s(values: seq<int>, n: nat) { |values| == n && forall q :: 0 <= q < n ==> IsInt32(values[q]) }

  lemma MaxPartSplit(values: seq<int>, n: nat, lo: int, mid: int, hi: int)
    requires Int32s(values, n) && 0 <= lo < mid <= hi < n
    ensures MaxPart(values, lo, hi) == Max(MaxPart(values, lo, mid - 1), MaxPart(values, mid, hi))
    ensures IsInt32(MaxPart(values, mid, hi))
  {
    assert values[lo..hi + 1] == values[lo..mid] + values[mid..hi + 1];
    MaxOfConcat(values[lo..mid], values[mid..hi + 1]);
    MaxOfIsMax(values[mid..hi + 1]);
  }

  function ReduceAt(n: nat, values: seq<int>, ks: seq<Kont>): (place: Place) {
    (lo: int, hi: int) => Reduce(n, lo, Next(n, lo, hi), MaxPart(values, lo, hi), KontOf(ks, lo))
  }
  function SentMax(n: nat, ks: seq<Kont>): (f: int -> Proc) { (q: int) => Bcast(n, q, [], INT_SIZE, KontOf(ks, q)) }

  lemma ReduceFits(n: nat, p: int, q: int, i: int, mine: int, max: int, kp: Kont, kq: Kont)
    requires 0 <= i < |Kids(n, q)| && p != 0 && Parent(n, p) == q && Kids(n, q)[i].rank == p && IsInt32(mine)
    ensures var child, own := Reduce(n, p, -1, mine, kp), Reduce(n, q, i, max, kq);
      Fits(child, own, p, q) && child.data == EncodeInt(mine) && child.next == Bcast(n, p, [], INT_SIZE, kp) &&
      own.onData(EncodeInt(mine)) == Reduce(n, q, i - 1, Max(max, mine), kq)
  {
    IntRoundTrip(mine);
  }

  lemma ReducePlaces(n: nat, values: seq<int>, ks: seq<Kont>, lo: int, mid: int, hi: int)
    requires Int32s(values, n) && Joint(n, lo, mid, hi)
    ensures var at, i, mine, max := ReduceAt(n, values, ks), Next(n, lo, mid - 1), MaxPart(values, mid, hi),
      MaxPart(values, lo, mid - 1);
      i >= 0 &&
      at(mid, hi) == Reduce(n, mid, -1, mine, KontOf(ks, mid)) &&
      at(lo, mid - 1) == Reduce(n, lo, i, max, KontOf(ks, lo)) &&
      at(lo, hi) == Reduce(n, lo, i - 1, Max(max, mine), KontOf(ks, lo))
  {
    hide Reduce, Kids, MaxOf, EncodeInt;
    NextKid(n, lo, mid, hi);
    MaxPartSplit(values, n, lo, mid, hi);
    var at, i, k := ReduceAt(n, values, ks), Next(n, lo, mid - 1), KontOf(ks, lo);
    assert at(lo, hi) == Reduce(n, lo, i - 1, MaxPart(values, lo, hi), k);
  }

  lemma ReduceRises(n: nat, values: seq<int>, ks: seq<Kont>)
    requires Int32s(values, n)
    ensures Rises(n, ReduceAt(n, values, ks), SentMax(n, ks)) && RisesWithNews(n, ReduceAt(n, values, ks))
  {
    hide Reduce, MaxPart, Kids, Next, Mid;
    var at := ReduceAt(n, values, ks);
    forall lo, mid, hi | Joint(n, lo, mid, hi)
      ensures RisesAt(at, SentMax(n, ks), lo, mid, hi) && at(mid, hi).data != []
    {
      NextKid(n, lo, mid, hi);
      ReducePlaces(n, values, ks, lo, mid, hi);
      MaxPartSplit(values, n, lo, mid, hi);
      ReduceFits(n, mid, lo, Next(n, lo, mid - 1), MaxPart(values, mid, hi), MaxPart(values, lo, mid - 1),
                 KontOf(ks, mid), KontOf(ks, lo));
    }
  }

  lemma ReduceRuns(s: State, n: nat, values: seq<int>, ks: seq<Kont>) returns (t: State)
    requires 1 <= n <= |s.procs| && Shape(s) && UpQuiet(s, n) && Int32s(values, n) && |ks| == n
    requires forall q :: 0 <= q < n ==> s.procs[q] == Allreduce(n, q, values[q], ks[q])
    ensures Quiet(s, t, n, 0, n - 1)
    ensures forall q :: 0 <= q < n ==> s.know[q] <= t.know[0]
    ensures forall q :: 0 <= q < n ==>
      t.procs[q] == Bcast(n, q, if q == 0 then EncodeInt(MaxOf(values)) else [], INT_SIZE, ks[q])
  {
    hide Kids, EncodeInt, Rises, RisesWithNews;
    WholeTree(n);
    ReduceRises(n, values, ks);
    forall q | 0 <= q < n
      ensures s.procs[q] == ReduceAt(n, values, ks)(q, q)
    {
      assert values[q..q + 1] == [values[q]];
    }
    t := Up(s, n, ReduceAt(n, values, ks), SentMax(n, ks), 0, n - 1);
    assert values[0..n] == values;
  }

  // Everybody ends up with the maximum, and knowing what anybody knew at the start.
  lemma AllreduceRuns(s: State, n: nat, values: seq<int>, ks: seq<Kont>) returns (t: State)
    requires 1 <= n <= |s.procs| && Shape(s) && UpQuiet(s, n) && DownQuiet(s, n) && Int32s(values, n) && |ks| == n
    requires forall q :: 0 <= q < n ==> s.procs[q] == Allreduce(n, q, values[q], ks[q])
    ensures Quiet(s, t, n, 0, n - 1)
    ensures forall q :: 0 <= q < n ==> t.procs[q] == ks[q](EncodeInt(MaxOf(values)))
    ensures forall p, q :: 0 <= p < n && 0 <= q < n ==> s.know[p] <= t.know[q]
  {
    var u := ReduceRuns(s, n, values, ks);
    var data := EncodeInt(MaxOf(values));
    var bufs := seq(n, q => if q == 0 then data else []);
    t := BcastRuns(u, n, data, bufs, ks);
    QuietThen(s, u, t, n, 0, n - 1);
  }

  // ----- scatter

  function SpreadAt(n: nat, count: nat, parts: seq<Bytes>, ks: seq<Kont>): (place: Place) {
    (lo: int, hi: int) => Spread(n, lo, count, Part(parts, lo, Last(n, lo)), Next(n, lo, hi),
                                 Size(count, hi - lo + 1), KontOf(ks, lo))
  }
  function AwaitScatter(n: nat, count: nat, ks: seq<Kont>): (f: int -> Proc) {
    (q: int) => Recv(Parent(n, q), Size(count, Total(Kids(n, q)) + 1), SpreadKont(n, q, count, KontOf(ks, q)), EXIT)
  }
  function Served(parts: seq<Bytes>, ks: seq<Kont>): (f: int -> Proc) { (q: int) => KontOf(ks, q)(Part(parts, q, q)) }

  // lo's buffer holds the slice for [mid, hi] right behind what it has handed out.
  lemma SliceForChild(n: nat, count: nat, parts: seq<Bytes>, lo: int, mid: int, hi: int)
    requires Blocks(parts, n, count) && Joint(n, lo, mid, hi) && hi <= Last(n, lo) < n
    ensures 0 <= lo < mid <= hi < n
    ensures Slice(Part(parts, lo, Last(n, lo)), Size(count, mid - lo), Size(count, hi - mid + 1)) ==
      Part(parts, mid, hi)
    ensures Size(count, mid - lo) + Size(count, hi - mid + 1) == Size(count, hi - lo + 1)
  {
    Split(n, lo, hi);
    var last := Last(n, lo);
    var a, b := Part(parts, lo, mid - 1), Part(parts, mid, hi);
    PartSplit(parts, n, count, lo, mid, hi);
    assert Size(count, mid - lo) + Size(count, hi - mid + 1) == Size(count, hi - lo + 1) by {
      BlocksLength(parts[lo..hi + 1], count);
    }
    var rest: Bytes := if hi < last then Part(parts, hi + 1, last) else [];
    if hi < last { PartSplit(parts, n, count, lo, hi + 1, last); }
    assert Part(parts, lo, last) == a + b + rest;
    assert (a + b + rest)[|a|..|a| + |b|] == b;
  }

  // An interval of lo's bisection lies in lo's own span.
  lemma InOwnSpan(n: nat, lo: int, hi: int)
    requires Node(n, lo, hi) && Rank(n, lo)
    ensures hi <= Last(n, lo) < n
  {
    hide Mid, Visits;
    OwnSpan(n, lo);
    NodeInRange(n, lo, hi);
    KidsSuffix(lo, hi, 0, n - 1);
    var all, own := Kids(n, lo), WalkKids(lo, lo, hi);
    RootTotal(lo, hi);
    TotalConcat(all[..|all| - |own|], own);
    assert all == all[..|all| - |own|] + own;
    CountsPositive(n, lo, |all| - |own|);
  }

  lemma {:induction false} CountsPositive(n: nat, p: int, i: nat)
    requires Rank(n, p) && i <= |Kids(n, p)|
    ensures Total(Kids(n, p)[..i]) >= 0
    decreases i
  {
    var kids := Kids(n, p);
    if i > 0 {
      CountsPositive(n, p, i - 1);
      ChildEntry(n, p, i - 1);
      assert kids[..i] == kids[..i - 1] + [kids[i - 1]];
      TotalConcat(kids[..i - 1], [kids[i - 1]]);
      assert Total([kids[i - 1]]) == kids[i - 1].count + Total([]);
    }
  }

  // At the entry of child p the loop writes p's slice and moves on; p then stands at the start of its own loop.
  lemma SpreadFits(n: nat, count: nat, p: int, q: int, i: int, big: Bytes, offset: nat, mine: Bytes, kp: Kont, kq: Kont)
    requires 0 <= i < |Kids(n, q)| && Parent(n, p) == q && Kids(n, q)[i] == Kid(p, Last(n, p) - p + 1)
    requires mine == Slice(big, offset, Size(count, Last(n, p) - p + 1)) && |mine| == Size(count, Last(n, p) - p + 1)
    ensures var own := Spread(n, q, count, big, i, offset, kq);
      var child := Recv(q, Size(count, Total(Kids(n, p)) + 1), SpreadKont(n, p, count, kp), EXIT);
      own == Send(p, mine, Spread(n, q, count, big, i - 1, offset + |mine|, kq)) && Fits(own, child, q, p) &&
      child.onData(mine) == Spread(n, p, count, mine, |Kids(n, p)| - 1, count, kp)
  {
  }

  lemma SpreadMoves(n: nat, count: nat, parts: seq<Bytes>, ks: seq<Kont>, lo: int, mid: int, hi: int)
    requires Blocks(parts, n, count) && Joint(n, lo, mid, hi)
    ensures var at, i, big := SpreadAt(n, count, parts, ks), Next(n, lo, mid - 1), Part(parts, lo, Last(n, lo));
      at(lo, hi) == Spread(n, lo, count, big, i - 1, Size(count, hi - lo + 1), KontOf(ks, lo))
  {
    hide Spread, Size, Kids, Part, Mid;
    NextKid(n, lo, mid, hi);
  }

  lemma SpreadStarts(n: nat, count: nat, parts: seq<Bytes>, ks: seq<Kont>, q: int)
    requires Rank(n, q)
    ensures SpreadAt(n, count, parts, ks)(q, q) ==
      Spread(n, q, count, Part(parts, q, Last(n, q)), |Kids(n, q)| - 1, count, KontOf(ks, q))
  {
    assert Next(n, q, q) == |Kids(n, q)| - 1 && Size(count, q - q + 1) == count;
  }

  lemma SpreadJoint(n: nat, count: nat, parts: seq<Bytes>, ks: seq<Kont>, lo: int, mid: int, hi: int)
    requires Blocks(parts, n, count) && Joint(n, lo, mid, hi)
    ensures DealsAt(SpreadAt(n, count, parts, ks), AwaitScatter(n, count, ks), lo, mid, hi)
  {
    hide Spread, Part, Size, Slice, Next, Kids;
    NextKid(n, lo, mid, hi);
    InOwnSpan(n, lo, hi);
    SliceForChild(n, count, parts, lo, mid, hi);
    PartSplit(parts, n, count, lo, mid, hi);
    SpreadMoves(n, count, parts, ks, lo, mid, hi);
    SpreadStarts(n, count, parts, ks, mid);
    var i, big, mine, offset := Next(n, lo, mid - 1), Part(parts, lo, Last(n, lo)), Part(parts, mid, hi),
      Size(count, mid - lo);
    var at, kp, kq := SpreadAt(n, count, parts, ks), KontOf(ks, mid), KontOf(ks, lo);
    SpreadFits(n, count, mid, lo, i, big, offset, mine, kp, kq);
    assert at(lo, mid - 1) == Spread(n, lo, count, big, i, offset, kq);
    assert at(lo, mid - 1).data == mine;
    assert at(lo, hi) == Spread(n, lo, count, big, i - 1, offset + |mine|, kq);
    assert at(mid, mid) == Spread(n, mid, count, mine, |Kids(n, mid)| - 1, count, kp);
  }

  lemma SpreadDeals(n: nat, count: nat, parts: seq<Bytes>, ks: seq<Kont>)
    requires Blocks(parts, n, count)
    ensures Deals(n, SpreadAt(n, count, parts, ks), AwaitScatter(n, count, ks), Served(parts, ks))
  {
    hide Spread, Size, Kids, Part, Next, Mid;
    var at := SpreadAt(n, count, parts, ks);
    forall q | 0 <= q < n
      ensures at(q, Last(n, q)) == Served(parts, ks)(q)
    {
      SpreadEnds(n, count, parts, ks, q);
    }
    forall lo, mid, hi | Joint(n, lo, mid, hi)
      ensures DealsAt(at, AwaitScatter(n, count, ks), lo, mid, hi)
    {
      SpreadJoint(n, count, parts, ks, lo, mid, hi);
    }
  }

  lemma SpreadEnds(n: nat, count: nat, parts: seq<Bytes>, ks: seq<Kont>, q: int)
    requires Blocks(parts, n, count) && Rank(n, q)
    ensures SpreadAt(n, count, parts, ks)(q, Last(n, q)) == Served(parts, ks)(q)
  {
    OwnSpan(n, q);
    var last := Last(n, q);
    PartOne(parts, q);
    assert Next(n, q, last) == -1;
    if q < last { PartSplit(parts, n, count, q, q + 1, last); }
    assert Slice(Part(parts, q, last), 0, count) == parts[q];
  }

  // Where the ranks start.
  lemma ScatterStarts(n: nat, count: nat, parts: seq<Bytes>, bufs: seq<Bytes>, ks: seq<Kont>)
    requires n >= 1 && Blocks(parts, n, count) && |bufs| == |ks| == n && bufs[0] == Concat(parts)
    ensures Scatter(n, 0, bufs[0], count, ks[0]) == SpreadAt(n, count, parts, ks)(0, 0)
    ensures forall q :: 0 < q < n ==> Scatter(n, q, bufs[q], count, ks[q]) == AwaitScatter(n, count, ks)(q)
  {
    hide Concat, Spread, Last, WalkKids;
    RootHasNoParent(n);
    assert parts[0..n] == parts;
    assert WalkKids(0, 0, 0) == [] by { NoWalk(0); }
    assert Size(count, 1) == count;
  }

  lemma NoWalk(q: int)
    ensures WalkKids(q, q, q) == []
  {
  }

  lemma ScatterRuns(s: State, n: nat, count: nat, parts: seq<Bytes>, bufs: seq<Bytes>, ks: seq<Kont>) returns (t: State)
    requires 1 <= n <= |s.procs| && Shape(s) && DownQuiet(s, n) && Blocks(parts, n, count) && |bufs| == |ks| == n
    requires bufs[0] == Concat(parts)
    requires forall q :: 0 <= q < n ==> s.procs[q] == Scatter(n, q, bufs[q], count, ks[q])
    ensures Quiet(s, t, n, 0, n - 1)
    ensures forall q :: 0 <= q < n ==> t.procs[q] == ks[q](parts[q])
  {
    hide Deals, Scatter, SpreadAt, AwaitScatter, Part, Last, Quiet, DownQuiet, Concat;
    WholeTree(n);
    SpreadDeals(n, count, parts, ks);
    ScatterStarts(n, count, parts, bufs, ks);
    t := Deal(s, n, SpreadAt(n, count, parts, ks), AwaitScatter(n, count, ks), Served(parts, ks), 0, n - 1);
    QuietSize(s, t, n);
    RootHasNoParent(n);
    DealsToRoot(n, SpreadAt(n, count, parts, ks), AwaitScatter(n, count, ks), Served(parts, ks));
    forall q | 0 <= q < n
      ensures t.procs[q] == ks[q](parts[q])
    {
      ServedIs(parts, ks, q);
    }
  }

  lemma ServedIs(parts: seq<Bytes>, ks: seq<Kont>, q: int)
    requires 0 <= q < |parts| == |ks|
    ensures Served(parts, ks)(q) == ks[q](parts[q])
  {
    hide Part;
    PartOne(parts, q);
    assert Served(parts, ks)(q) == KontOf(ks, q)(Part(parts, q, q));
  }

  lemma QuietSize(s: State, t: State, n: nat)
    requires Quiet(s, t, n, 0, n - 1)
    ensures |t.procs| == |s.procs|
  {
  }

  lemma DealsToRoot(n: nat, at: Place, wait: int -> Proc, rest: int -> Proc)
    requires n >= 1 && Deals(n, at, wait, rest)
    ensures at(0, Last(n, 0)) == rest(0)
  {
  }

  // ----- barrier

  lemma BarrierRuns(s: State, n: nat, ks: seq<Kont>) returns (t: State)
    requires 1 <= n <= |s.procs| && Shape(s) && UpQuiet(s, n) && DownQuiet(s, n) && |ks| == n
    requires forall q :: 0 <= q < n ==> s.procs[q] == Barrier(n, q, ks[q])
    ensures Quiet(s, t, n, 0, n - 1)
    ensures forall q :: 0 <= q < n ==> t.procs[q] == ks[q]([])
    ensures forall p, q :: 0 <= p < n && 0 <= q < n ==> s.know[p] <= t.know[q]
  {
    var onward := seq(n, q requires 0 <= q < n => Discard(ks[q]));
    t := AllreduceRuns(s, n, seq(n, _ => 1), onward);
  }

  // ----- gather, then broadcast

  lemma AllgatherRuns(s: State, n: nat, count: nat, parts: seq<Bytes>, ks: seq<Kont>) returns (t: State)
    requires 1 <= n <= |s.procs| && Shape(s) && UpQuiet(s, n) && DownQuiet(s, n) && Blocks(parts, n, count) && |ks| == n
    requires forall q :: 0 <= q < n ==> s.procs[q] == Allgather(n, q, parts[q], count, ks[q])
    ensures Quiet(s, t, n, 0, n - 1)
    ensures forall q :: 0 <= q < n ==> t.procs[q] == ks[q](Concat(parts))
  {
    var onward := seq(n, q requires 0 <= q < n => AllgatherKont(n, q, count, ks[q]));
    var u := GatherRuns(s, n, count, parts, onward);
    BlocksLength(parts, count);
    var bufs := seq(n, q => if q == 0 then Concat(parts) else []);
    t := BcastRuns(u, n, Concat(parts), bufs, ks);
    QuietThen(s, u, t, n, 0, n - 1);
  }

  // ----- gather of strings of any lengths

  function Lengths(strs: seq<Bytes>): (list: seq<int>) { seq(|strs|, q requires 0 <= q < |strs| => |strs[q]| + 1) }

  // The length of every rank's slot: the longest string with its NUL.
  function SlotSize(strs: seq<Bytes>): (v: nat)
    requires strs != []
  {
    var max := MaxOf(Lengths(strs));
    if max < 0 then 0 else max
  }

  function Padded(strs: seq<Bytes>, len: nat): (list: seq<Bytes>) {
    seq(|strs|, q requires 0 <= q < |strs| => Pad(strs[q], len))
  }

  ghost predicate CStrings(strs: seq<Bytes>, n: nat) {
    |strs| == n && forall q :: 0 <= q < n ==> NoNul(strs[q]) && IsInt32(|strs[q]| + 1)
  }

  lemma PaddedBlocks(strs: seq<Bytes>, n: nat)
    requires n >= 1 && CStrings(strs, n)
    ensures Int32s(Lengths(strs), n) && SlotSize(strs) == MaxOf(Lengths(strs)) && IsInt32(SlotSize(strs))
    ensures forall q :: 0 <= q < n ==> |strs[q]| < SlotSize(strs)
    ensures Blocks(Padded(strs, SlotSize(strs)), n, SlotSize(strs))
  {
    var lengths := Lengths(strs);
    MaxOfIsMax(lengths);
    assert lengths[0] == |strs[0]| + 1;
    assert forall q :: 0 <= q < n ==> |strs[q]| + 1 == lengths[q];
  }

  // First everybody learns the slot size.
  lemma SlotSizeRuns(s: State, n: nat, strs: seq<Bytes>, ks: seq<Kont>) returns (t: State)
    requires 1 <= n <= |s.procs| && Shape(s) && UpQuiet(s, n) && DownQuiet(s, n) && CStrings(strs, n) && |ks| == n
    requires forall q :: 0 <= q < n ==> s.procs[q] == AllgatherStr(n, q, strs[q], ks[q])
    ensures Quiet(s, t, n, 0, n - 1)
    ensures forall q :: 0 <= q < n ==>
      t.procs[q] == Allgather(n, q, Pad(strs[q], SlotSize(strs)), SlotSize(strs), ks[q])
    ensures forall p, q :: 0 <= p < n && 0 <= q < n ==> s.know[p] <= t.know[q]
  {
    PaddedBlocks(strs, n);
    var onward := seq(n, q requires 0 <= q < n => AllgatherStrKont(n, q, strs[q], ks[q]));
    t := AllreduceRuns(s, n, Lengths(strs), onward);
    IntRoundTrip(SlotSize(strs));
  }

  lemma AllgatherStrRuns(s: State, n: nat, strs: seq<Bytes>, ks: seq<Kont>) returns (t: State)
    requires 1 <= n <= |s.procs| && Shape(s) && UpQuiet(s, n) && DownQuiet(s, n) && CStrings(strs, n) && |ks| == n
    requires forall q :: 0 <= q < n ==> s.procs[q] == AllgatherStr(n, q, strs[q], ks[q])
    ensures Quiet(s, t, n, 0, n - 1)
    ensures forall q :: 0 <= q < n ==> t.procs[q] == ks[q](Concat(Padded(strs, SlotSize(strs))))
    ensures forall p, q :: 0 <= p < n && 0 <= q < n ==> s.know[p] <= t.know[q]
  {
    PaddedBlocks(strs, n);
    var u := SlotSizeRuns(s, n, strs, ks);
    var len, parts := SlotSize(strs), Padded(strs, SlotSize(strs));
    StillQuiet(s, u, n);
    assert forall q :: 0 <= q < n ==> u.procs[q] == Allgather(n, q, parts[q], len, ks[q]);
    t := AllgatherRuns(u, n, len, parts, ks);
    QuietThen(s, u, t, n, 0, n - 1);
    KnowOn(s, u, t, n);
  }

  // Block q of a concatenation of equal blocks.
  lemma {:induction false} BlockAt(parts: seq<Bytes>, count: nat, q: nat)
    requires q < |parts| && forall i :: 0 <= i < |parts| ==> |parts[i]| == count
    ensures Size(count, q) + count <= |Concat(parts)|
    ensures Slice(Concat(parts), Size(count, q), count) == parts[q]
  {
    assert parts == parts[..q] + [parts[q]] + parts[q + 1..];
    ConcatAppend(parts[..q] + [parts[q]], parts[q + 1..]);
    ConcatAppend(parts[..q], [parts[q]]);
    BlocksLength(parts[..q], count);
    assert Concat([parts[q]]) == parts[q] + Concat([]);
    var a, b := Concat(parts[..q]), Concat(parts[q + 1..]);
    assert Concat(parts) == a + parts[q] + b;
    assert (a + parts[q] + b)[|a|..|a| + count] == parts[q];
  }

  lemma LongestFits(strs: seq<Bytes>, n: nat)
    requires n >= 1 && CStrings(strs, n)
    ensures exists q :: 0 <= q < n && |strs[q]| + 1 == SlotSize(strs)
  {
    PaddedBlocks(strs, n);
    MaxOfIsMax(Lengths(strs));
    var q :| 0 <= q < n && Lengths(strs)[q] == SlotSize(strs);
    assert |strs[q]| + 1 == SlotSize(strs);
  }

  // Entry i of the returned string array: a C string that is just what rank i passed in. The slots are as long as the
  // longest string with its NUL.
  lemma StringAt(strs: seq<Bytes>, n: nat, i: nat)
    requires i < n && CStrings(strs, n)
    ensures var buf, len := Concat(Padded(strs, SlotSize(strs))), SlotSize(strs);
      Size(len, i) < |buf| && CString(buf[Size(len, i)..]) == strs[i]
    ensures exists q :: 0 <= q < n && |strs[q]| + 1 == SlotSize(strs)
  {
    PaddedBlocks(strs, n);
    LongestFits(strs, n);
    var len := SlotSize(strs);
    var parts := Padded(strs, len);
    BlockAt(parts, len, i);
    var buf, from := Concat(parts), Size(len, i);
    var zeros: Bytes := seq(len - |strs[i]|, _ => 0);
    assert buf[from..] == buf[from..from + len] + buf[from + len..];
    assert buf[from..] == strs[i] + (zeros + buf[from + len..]);
    CStringOf(strs[i], zeros + buf[from + len..]);
  }
}
