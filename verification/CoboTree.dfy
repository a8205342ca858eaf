// The tree of ranks 0 .. n-1 that every task computes for itself by bisecting [0, n-1], and the proof
// that the n separate computations describe one spanning tree.
module CoboTree {
  // One entry of the child arrays: a child's rank and the number of ranks it answers for, itself included.
  datatype Kid = Kid(rank: int, count: int)

  function Mid(low: int, high: int): (mid: int)
    requires low < high
    ensures low < mid <= high
  {
    (high - low) / 2 + (high - low) % 2 + low
  }

  // The bisection of [low, high] as rank me sees it.
  function WalkKids(me: int, low: int, high: int): (list: seq<Kid>)
    decreases high - low
  {
    if high <= low then []
    else
      var mid := Mid(low, high);
      if low == me then [Kid(mid, high - mid + 1)] + WalkKids(me, low, mid - 1)
      else if mid <= me then WalkKids(me, mid, high)
      else WalkKids(me, low, mid - 1)
  }

  function WalkParent(me: int, low: int, high: int, parent: int): (v: int)
    decreases high - low
  {
    if high <= low then parent
    else
      var mid := Mid(low, high);
      var up := if mid == me then low else parent;
      if mid <= me then WalkParent(me, mid, high, up) else WalkParent(me, low, mid - 1, up)
  }

  function Kids(n: nat, me: int): (list: seq<Kid>) { WalkKids(me, 0, n - 1) }
  function Parent(n: nat, me: int): (v: int) { WalkParent(me, 0, n - 1, 0) }

  function Total(kids: seq<Kid>): (v: int) {
    if kids == [] then 0 else kids[0].count + Total(kids[1..])
  }

  // [lo, hi] is one of the intervals the bisection of [low, high] visits.
  ghost predicate Visits(lo: int, hi: int, low: int, high: int)
    decreases high - low
  {
    (lo == low && hi == high) ||
    (low < high && (Visits(lo, hi, low, Mid(low, high) - 1) || Visits(lo, hi, Mid(low, high), high)))
  }

  lemma {:induction false} VisitsInside(lo: int, hi: int, low: int, high: int)
    requires low <= high && Visits(lo, hi, low, high)
    ensures low <= lo <= hi <= high
    decreases high - low
  {
    if !(lo == low && hi == high) {
      var mid := Mid(low, high);
      if Visits(lo, hi, low, mid - 1) { VisitsInside(lo, hi, low, mid - 1); } else { VisitsInside(lo, hi, mid, high); }
    }
  }

  lemma {:induction false} VisitsHalves(lo: int, hi: int, low: int, high: int)
    requires low <= high && lo < hi && Visits(lo, hi, low, high)
    ensures Visits(lo, Mid(lo, hi) - 1, low, high) && Visits(Mid(lo, hi), hi, low, high)
    decreases high - low
  {
    var mid := Mid(lo, hi);
    if lo == low && hi == high {
      assert Visits(lo, mid - 1, lo, mid - 1) && Visits(mid, hi, mid, hi);
    } else {
      var m := Mid(low, high);
      if Visits(lo, hi, low, m - 1) { VisitsHalves(lo, hi, low, m - 1); } else { VisitsHalves(lo, hi, m, high); }
    }
  }

  // A rank strictly inside a visited interval is decided by that interval alone.
  lemma {:induction false} DecidedInside(me: int, lo: int, hi: int, low: int, high: int, parent: int)
    requires low <= high && Visits(lo, hi, low, high) && lo < me <= hi
    ensures WalkKids(me, low, high) == WalkKids(me, lo, hi)
    ensures WalkParent(me, low, high, parent) == WalkParent(me, lo, hi, parent)
    decreases high - low
  {
    hide Total;
    if !(lo == low && hi == high) {
      var mid := Mid(low, high);
      if Visits(lo, hi, low, mid - 1) {
        VisitsInside(lo, hi, low, mid - 1);
        DecidedInside(me, lo, hi, low, mid - 1, parent);
      } else {
        VisitsInside(lo, hi, mid, high);
        DecidedInside(me, lo, hi, mid, high, parent);
      }
    }
  }

  lemma {:induction false} ParentOfLow(low: int, high: int, parent: int)
    ensures WalkParent(low, low, high, parent) == parent
    decreases high - low
  {
    if low < high { ParentOfLow(low, Mid(low, high) - 1, parent); }
  }

  // The right half of a visited interval is a whole subtree: its first rank hangs below the interval's first rank.
  lemma MidFacts(lo: int, hi: int, n: nat)
    requires n >= 1 && lo < hi && Visits(lo, hi, 0, n - 1)
    ensures var mid := Mid(lo, hi); Kids(n, mid) == WalkKids(mid, mid, hi) && Parent(n, mid) == lo
  {
    var mid := Mid(lo, hi);
    DecidedInside(mid, lo, hi, 0, n - 1, 0);
    ParentOfLow(mid, hi, lo);
  }

  // The children seen from a visited interval are the last ones of the rank's child array.
  lemma {:induction false} KidsSuffix(lo: int, hi: int, low: int, high: int)
    requires low <= high && Visits(lo, hi, low, high)
    ensures var all, own := WalkKids(lo, low, high), WalkKids(lo, lo, hi);
      |own| <= |all| && all[|all| - |own|..] == own
    decreases high - low
  {
    hide Mid;
    if !(lo == low && hi == high) {
      var mid := Mid(low, high);
      if Visits(lo, hi, low, mid - 1) {
        VisitsInside(lo, hi, low, mid - 1);
        KidsSuffix(lo, hi, low, mid - 1);
        var all, own := WalkKids(lo, low, mid - 1), WalkKids(lo, lo, hi);
        if lo == low {
          var kid := Kid(mid, high - mid + 1);
          assert ([kid] + all)[1 + |all| - |own|..] == all[|all| - |own|..];
        }
      } else {
        VisitsInside(lo, hi, mid, high);
        KidsSuffix(lo, hi, mid, high);
      }
    }
  }

  lemma {:induction false} TotalConcat(a: seq<Kid>, b: seq<Kid>)
    ensures Total(a + b) == Total(a) + Total(b)
  {
    if a == [] { assert a + b == b; }
    else { assert (a + b)[1..] == a[1..] + b; TotalConcat(a[1..], b); }
  }

  // Counts of the first rank of an interval add up to the rest of the interval.
  lemma {:induction false} RootTotal(lo: int, hi: int)
    requires lo <= hi
    ensures Total(WalkKids(lo, lo, hi)) == hi - lo
    decreases hi - lo
  {
    if lo < hi {
      var mid := Mid(lo, hi);
      RootTotal(lo, mid - 1);
      TotalConcat([Kid(mid, hi - mid + 1)], WalkKids(lo, lo, mid - 1));
    }
  }

  ghost predicate Rank(n: nat, r: int) { 0 <= r < n }

  // The last rank of the subtree rooted at r, as r's own counts have it.
  function Last(n: nat, r: int): (v: int) { r + Total(Kids(n, r)) }

  ghost predicate Node(n: nat, lo: int, hi: int) { n >= 1 && lo <= hi && Visits(lo, hi, 0, n - 1) }

  lemma NodeInRange(n: nat, lo: int, hi: int)
    requires Node(n, lo, hi)
    ensures 0 <= lo <= hi < n
  {
    VisitsInside(lo, hi, 0, n - 1);
  }

  // One bisection: the left half keeps the first rank, the right half is that rank's child.
  lemma Split(n: nat, lo: int, hi: int)
    requires Node(n, lo, hi) && lo < hi
    ensures var mid := Mid(lo, hi);
      0 <= lo < mid <= hi < n && Node(n, lo, mid - 1) && Node(n, mid, hi) &&
      Kids(n, mid) == WalkKids(mid, mid, hi) && Last(n, mid) == hi && Parent(n, mid) == lo
  {
    NodeInRange(n, lo, hi);
    VisitsHalves(lo, hi, 0, n - 1);
    MidFacts(lo, hi, n);
    RootTotal(Mid(lo, hi), hi);
  }

  lemma {:induction false} SpanInside(me: int, low: int, high: int)
    requires low <= me <= high
    ensures 0 <= Total(WalkKids(me, low, high)) <= high - me
    decreases high - low
  {
    if low == me { RootTotal(low, high); }
    else if low < high {
      var mid := Mid(low, high);
      if mid <= me { SpanInside(me, mid, high); } else { SpanInside(me, low, mid - 1); }
    }
  }

  // Each rank roots one visited interval, and its whole child array comes from it.
  lemma {:induction false} OwnInterval(me: int, low: int, high: int)
    requires low <= me <= high
    ensures var hi := me + Total(WalkKids(me, low, high));
      me <= hi && Visits(me, hi, low, high) && WalkKids(me, low, high) == WalkKids(me, me, hi)
    decreases high - low
  {
    hide Total;
    if low == me { RootTotal(low, high); }
    else {
      var mid := Mid(low, high);
      SpanInside(me, low, high);
      if mid <= me { OwnInterval(me, mid, high); } else { OwnInterval(me, low, mid - 1); }
    }
  }

  ghost predicate Lists(kids: seq<Kid>, c: int) { exists i :: 0 <= i < |kids| && kids[i].rank == c }

  lemma {:induction false} KidsInRange(me: int, low: int, high: int)
    requires low <= me <= high
    ensures forall i :: 0 <= i < |WalkKids(me, low, high)| ==> me < WalkKids(me, low, high)[i].rank <= high
    decreases high - low
  {
    if low < high {
      var mid := Mid(low, high);
      if mid <= me { KidsInRange(me, mid, high); } else { KidsInRange(me, low, mid - 1); }
    }
  }

  lemma {:induction false} ParentInRange(c: int, low: int, high: int, parent: int)
    requires low < c <= high
    ensures low <= WalkParent(c, low, high, parent) < c
    decreases high - low
  {
    var mid := Mid(low, high);
    if mid == c { ParentOfLow(mid, high, low); }
    else if mid < c { ParentInRange(c, mid, high, parent); }
    else { ParentInRange(c, low, mid - 1, parent); }
  }

  // The children in the half with p in it, and the one that may come before them.
  lemma ListedInHalf(p: int, c: int, low: int, high: int)
    requires low <= p <= high && low < c <= high
    ensures var mid := Mid(low, high);
      Lists(WalkKids(p, low, high), c) <==>
      (low == p && c == mid) || Lists(if mid <= p then WalkKids(p, mid, high) else WalkKids(p, low, mid - 1), c)
  {
    hide Mid;
    var mid := Mid(low, high);
    var rest := if mid <= p then WalkKids(p, mid, high) else WalkKids(p, low, mid - 1);
    if low == p { ListsMore(Kid(mid, high - mid + 1), rest, c); }
  }

  lemma ListsMore(kid: Kid, rest: seq<Kid>, c: int)
    ensures Lists([kid] + rest, c) <==> kid.rank == c || Lists(rest, c)
  {
    var all := [kid] + rest;
    if kid.rank == c { assert all[0].rank == c; }
    if Lists(rest, c) {
      var i :| 0 <= i < |rest| && rest[i].rank == c;
      assert all[i + 1].rank == c;
    }
    if Lists(all, c) && kid.rank != c {
      var i :| 0 <= i < |all| && all[i].rank == c;
      assert rest[i - 1].rank == c;
    }
  }

  lemma NotListed(p: int, c: int, low: int, high: int)
    requires low <= p <= high && !(p < c <= high)
    ensures !Lists(WalkKids(p, low, high), c)
  {
    KidsInRange(p, low, high);
  }

  lemma {:induction false} ListedIffChild(p: int, c: int, low: int, high: int, parent: int)
    requires low <= p <= high && low < c <= high
    ensures Lists(WalkKids(p, low, high), c) <==> WalkParent(c, low, high, parent) == p
    decreases high - low
  {
    hide Lists, WalkKids, Mid;
    var mid := Mid(low, high);
    ListedInHalf(p, c, low, high);
    if c == mid {
      ParentOfLow(mid, high, low);
      if mid <= p { NotListed(p, c, mid, high); } else { NotListed(p, c, low, mid - 1); }
    } else if mid < c {
      ParentInRange(c, mid, high, parent);
      if mid <= p { ListedIffChild(p, c, mid, high, parent); } else { NotListed(p, c, low, mid - 1); }
    } else {
      ParentInRange(c, low, mid - 1, parent);
      if p < mid { ListedIffChild(p, c, low, mid - 1, parent); } else { NotListed(p, c, mid, high); }
    }
  }

  lemma OwnSpan(n: nat, r: int)
    requires Rank(n, r)
    ensures r <= Last(n, r) < n && Visits(r, Last(n, r), 0, n - 1) && Kids(n, r) == WalkKids(r, r, Last(n, r))
  {
    OwnInterval(r, 0, n - 1);
    VisitsInside(r, Last(n, r), 0, n - 1);
  }

  // Following parent pointers from c leads to p.
  ghost predicate Below(n: nat, p: int, c: int)
    requires Rank(n, c)
    decreases c
  {
    c == p || (c != 0 && (ParentInRange(c, 0, n - 1, 0); Below(n, p, Parent(n, c))))
  }

  // The subtree of a rank inside p's interval stays inside it.
  lemma SpansNest(n: nat, p: int, q: int)
    requires Rank(n, p) && p <= q <= Last(n, p)
    ensures q < n && Last(n, q) <= Last(n, p)
  {
    hide WalkKids, WalkParent, Visits, Total, Parent;
    OwnSpan(n, p);
    if q > p {
      DecidedInside(q, p, Last(n, p), 0, n - 1, 0);
      SpanInside(q, p, Last(n, p));
    }
  }

  lemma ChildInSpan(n: nat, p: int, c: int)
    requires Rank(n, p) && Rank(n, c) && c != 0 && Parent(n, c) == p
    ensures p < c <= Last(n, p)
  {
    ListedIffChild(p, c, 0, n - 1, 0);
    OwnSpan(n, p);
    KidsInRange(p, p, Last(n, p));
  }

  lemma ParentInSpan(n: nat, p: int, c: int)
    requires Rank(n, p) && p < c <= Last(n, p)
    ensures c < n && p <= Parent(n, c) < c
  {
    OwnSpan(n, p);
    DecidedInside(c, p, Last(n, p), 0, n - 1, 0);
    ParentInRange(c, p, Last(n, p), 0);
  }

  // The descendants of p are exactly the interval its counts describe.
  lemma {:induction false} SubtreeIsInterval(n: nat, p: int, c: int)
    requires Rank(n, p) && Rank(n, c)
    ensures Below(n, p, c) <==> p <= c <= Last(n, p)
    decreases c
  {
    OwnSpan(n, p);
    if c != p && c != 0 {
      ParentInRange(c, 0, n - 1, 0);
      var q := Parent(n, c);
      SubtreeIsInterval(n, p, q);
      if p <= q <= Last(n, p) {
        SpansNest(n, p, q);
        ChildInSpan(n, q, c);
      }
      if p < c <= Last(n, p) { ParentInSpan(n, p, c); }
    }
  }

  // The child arrays of the n tasks and their parent fields are two views of the same tree: c is
  // entered for p just when c, on its own, takes p for its parent.
  lemma ChildrenMatchParents(n: nat, p: int, c: int)
    requires Rank(n, p) && Rank(n, c)
    ensures Lists(Kids(n, p), c) <==> c != 0 && Parent(n, c) == p
  {
    if c == 0 {
      KidsInRange(p, 0, n - 1);
    } else {
      ListedIffChild(p, c, 0, n - 1, 0);
    }
  }

  lemma RootHasNoParent(n: nat)
    requires n >= 1
    ensures Parent(n, 0) == 0 && Last(n, 0) == n - 1
  {
    ParentOfLow(0, n - 1, 0);
    RootTotal(0, n - 1);
  }

  // Entry i of the child array: its rank starts where the later entries' subtrees end.
  lemma {:induction false} KidsTile(lo: int, hi: int, i: nat)
    requires lo <= hi && i < |WalkKids(lo, lo, hi)|
    ensures var kids := WalkKids(lo, lo, hi); kids[i].rank == lo + 1 + Total(kids[i + 1..]) && kids[i].count >= 1
    decreases hi - lo
  {
    var mid := Mid(lo, hi);
    var kids, rest := WalkKids(lo, lo, hi), WalkKids(lo, lo, mid - 1);
    assert kids == [Kid(mid, hi - mid + 1)] + rest;
    if i == 0 {
      assert kids[1..] == rest;
      RootTotal(lo, mid - 1);
    } else {
      KidsTile(lo, mid - 1, i - 1);
      assert kids[i + 1..] == rest[i..];
    }
  }

  lemma {:induction false} CountIsSubtree(n: nat, lo: int, hi: int, i: nat)
    requires Node(n, lo, hi) && i < |WalkKids(lo, lo, hi)|
    ensures var kid := WalkKids(lo, lo, hi)[i]; Rank(n, kid.rank) && kid.rank + kid.count - 1 == Last(n, kid.rank)
    decreases hi - lo
  {
    var mid := Mid(lo, hi);
    Split(n, lo, hi);
    if i == 0 {
      RootTotal(mid, hi);
    } else {
      assert WalkKids(lo, lo, hi)[i] == WalkKids(lo, lo, mid - 1)[i - 1];
      CountIsSubtree(n, lo, mid - 1, i - 1);
    }
  }

  // Each recorded child: it lies right before the span of the entry in front of it, and its recorded count
  // is the size of the subtree that the child computes for itself.
  lemma ChildEntry(n: nat, p: int, i: nat)
    requires Rank(n, p) && i < |Kids(n, p)|
    ensures var kids := Kids(n, p);
      kids[i].rank == p + 1 + Total(kids[i + 1..]) && kids[i].count == Last(n, kids[i].rank) - kids[i].rank + 1 >= 1
  {
    OwnSpan(n, p);
    KidsTile(p, Last(n, p), i);
    CountIsSubtree(n, p, Last(n, p), i);
  }

  lemma KidIs(n: nat, p: int, i: nat)
    requires Rank(n, p) && i < |Kids(n, p)|
    ensures var r := Kids(n, p)[i].rank; 0 <= p < r < n && Parent(n, r) == p
  {
    hide Parent;
    KidsInRange(p, 0, n - 1);
    assert Lists(Kids(n, p), Kids(n, p)[i].rank);
    ChildrenMatchParents(n, p, Kids(n, p)[i].rank);
  }

  lemma {:induction false} TotalDrops(kids: seq<Kid>, i: nat, j: nat)
    requires i <= j <= |kids| && forall k :: 0 <= k < |kids| ==> kids[k].count >= 1
    ensures Total(kids[i..]) >= Total(kids[j..]) + (j - i)
    decreases j - i
  {
    if i < j {
      TotalDrops(kids, i + 1, j);
      assert kids[i..][1..] == kids[i + 1..];
    }
  }

  lemma KidsDiffer(n: nat, p: int, i: nat, j: nat)
    requires Rank(n, p) && i < j < |Kids(n, p)|
    ensures Kids(n, p)[i].rank != Kids(n, p)[j].rank
  {
    var kids := Kids(n, p);
    forall k: nat | k < |kids|
      ensures kids[k].count >= 1
    {
      ChildEntry(n, p, k);
    }
    ChildEntry(n, p, i);
    ChildEntry(n, p, j);
    TotalDrops(kids, i + 1, j + 1);
  }

  // ----- logarithmic bounds

  function Pow2(k: nat): (v: nat) { if k == 0 then 1 else 2 * Pow2(k - 1) }

  // k is the least power of two that covers n.
  ghost predicate Covers(k: nat, n: int) { n <= Pow2(k) && (k > 0 ==> Pow2(k - 1) < n) }

  lemma {:induction false} Pow2Monotone(a: nat, b: nat)
    requires a <= b
    ensures Pow2(a) <= Pow2(b)
    decreases b
  {
    if a < b { Pow2Monotone(a, b - 1); }
  }

  // Both halves of a bisected interval fit the next smaller power of two.
  lemma HalvesFit(low: int, high: int, k: nat)
    requires low < high && high - low + 1 <= Pow2(k)
    ensures k >= 1
    ensures Mid(low, high) - low <= Pow2(k - 1) && high - Mid(low, high) + 1 <= Pow2(k - 1)
  {
  }

  lemma {:induction false} KidsAreFew(me: int, low: int, high: int, k: nat)
    requires high - low + 1 <= Pow2(k)
    ensures |WalkKids(me, low, high)| <= k
    decreases high - low
  {
    if low < high {
      HalvesFit(low, high, k);
      var mid := Mid(low, high);
      if mid <= me && low != me { KidsAreFew(me, mid, high, k - 1); } else { KidsAreFew(me, low, mid - 1, k - 1); }
    }
  }

  // Number of hops from c up to rank 0.
  ghost function Level(n: nat, c: int): (v: nat)
    requires Rank(n, c)
    decreases c
  {
    if c == 0 then 0 else
      ParentInRange(c, 0, n - 1, 0);
      1 + Level(n, Parent(n, c))
  }

  lemma {:induction false} LevelsInside(n: nat, lo: int, hi: int, c: int, k: nat)
    requires Node(n, lo, hi) && Rank(n, lo) && hi - lo + 1 <= Pow2(k) && lo <= c <= hi
    ensures Rank(n, c) && Level(n, c) <= Level(n, lo) + k
    decreases hi - lo
  {
    hide WalkKids, WalkParent, Visits, Total, Kids, Parent, Node;
    if lo < hi {
      var mid := Mid(lo, hi);
      HalvesFit(lo, hi, k);
      Split(n, lo, hi);
      if c < mid {
        LevelsInside(n, lo, mid - 1, c, k - 1);
      } else {
        assert Level(n, mid) == 1 + Level(n, lo);
        LevelsInside(n, mid, hi, c, k - 1);
      }
    }
  }

  // No task has more than k children and no task is more than k hops from rank 0.
  lemma LogarithmicTree(n: nat, c: int, k: nat)
    requires Rank(n, c) && n <= Pow2(k)
    ensures |Kids(n, c)| <= k && Level(n, c) <= k
  {
    KidsAreFew(c, 0, n - 1, k);
    assert Visits(0, n - 1, 0, n - 1);
    LevelsInside(n, 0, n - 1, c, k);
  }

  lemma Pow2At30()
    ensures Pow2(30) == 0x4000_0000 && Pow2(31) == 0x8000_0000
  {
    assert Pow2(10) == 0x400;
    assert Pow2(20) == 0x10_0000;
  }

  // The doubling that sizes the child arrays stays below 2^31 just for up to 2^30 tasks.
  lemma DoublingFitsInt(n: nat, k: nat)
    requires n >= 1 && Covers(k, n)
    ensures Pow2(k) < 0x8000_0000 <==> n <= 0x4000_0000
  {
    Pow2At30();
    if k >= 31 { Pow2Monotone(30, k - 1); Pow2Monotone(31, k); } else { Pow2Monotone(k, 30); }
  }

  // ----- the tree in closed form

  // The children of rank p in a span of m ranks: the upper half, rounded up, goes to the first child, and the lower
  // half
  // is split on.
  function Halving(p: int, m: nat): (list: seq<Kid>) {
    if m <= 1 then [] else [Kid(p + m / 2, m - m / 2)] + Halving(p, m / 2)
  }

  lemma MidOfSpan(low: int, high: int)
    requires low < high
    ensures Mid(low, high) == low + (high - low + 1) / 2
  {
  }

  lemma {:induction false} WalkHalves(p: int, high: int)
    requires p <= high
    ensures WalkKids(p, p, high) == Halving(p, high - p + 1)
    decreases high - p
  {
    hide Mid;
    if p < high {
      MidOfSpan(p, high);
      WalkHalves(p, Mid(p, high) - 1);
    }
  }

  // Every task's child array is the halving of its own span, which for rank 0 is the whole job.
  lemma KidsHalve(n: nat, p: int)
    requires Rank(n, p)
    ensures Total(Kids(n, p)) >= 0 && Kids(n, p) == Halving(p, Total(Kids(n, p)) + 1)
    ensures p == 0 ==> Total(Kids(n, p)) + 1 == n
  {
    hide Kids, Total, WalkKids, Halving;
    OwnSpan(n, p);
    WalkHalves(p, Last(n, p));
    if p == 0 { RootHasNoParent(n); }
  }

  // m halved k times, rounding down
  function Halved(m: nat, k: nat): (h: nat) {
    if k == 0 then m else Halved(m / 2, k - 1)
  }

  // The k-th child of a task whose span is m ranks.
  lemma {:induction false} HalvingAt(p: int, m: nat, k: nat)
    requires k < |Halving(p, m)|
    ensures Halving(p, m)[k] == Kid(p + Halved(m, k + 1), Halved(m, k) - Halved(m, k + 1))
    decreases k
  {
    if k > 0 { HalvingAt(p, m / 2, k - 1); }
  }

  // In closed form: which child stands at place k, and for how many ranks it answers.
  lemma ChildInClosedForm(n: nat, p: int, k: nat)
    requires Rank(n, p) && k < |Kids(n, p)|
    ensures Total(Kids(n, p)) >= 0 && (p == 0 ==> Total(Kids(n, p)) + 1 == n)
    ensures var m := Total(Kids(n, p)) + 1; Kids(n, p)[k] == Kid(p + Halved(m, k + 1), Halved(m, k) - Halved(m, k + 1))
  {
    hide Kids, Total, Halving, Halved;
    KidsHalve(n, p);
    HalvingAt(p, Total(Kids(n, p)) + 1, k);
  }
}
