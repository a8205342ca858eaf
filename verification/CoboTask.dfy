// One COBO task as the C file keeps it: file-level statics filled in place by a bisection loop.
module CoboTask {
  import opened Bytestream
  import opened CoboTree
  import opened Network
  import opened Collectives
  import opened LocalRun

  newtype Int32 = x: int | -0x8000_0000 <= x < 0x8000_0000

  function Zip(ranks: seq<Int32>, counts: seq<Int32>): (kids: seq<Kid>)
    requires |ranks| == |counts|
    ensures |kids| == |ranks|
  {
    seq(|ranks|, i requires 0 <= i < |ranks| => Kid(ranks[i] as int, counts[i] as int))
  }

  // What the bisection loop has established when [low, high] is left to look at, `done` holds the entries
  // made so far, and at most `room` more rounds are to come.
  ghost predicate Walking(n: nat, me: int, low: int, high: int, done: seq<Kid>, parent: int, room: nat)
  {
    0 <= low <= high < n && high - low + 1 <= Pow2(room) &&
    done + WalkKids(me, low, high) == Kids(n, me) &&
    WalkParent(me, low, high, parent) == Parent(n, me) &&
    0 <= Total(done) < n - (high - low)
  }

  lemma WalkOn(n: nat, me: int, low: int, high: int, done: seq<Kid>, parent: int, room: nat,
               low': int, high': int, done': seq<Kid>, parent': int)
    requires Walking(n, me, low, high, done, parent, room) && low < high
    requires done' == if low == me then done + [Kid(Mid(low, high), high - Mid(low, high) + 1)] else done
    requires parent' == if Mid(low, high) == me then low else parent
    requires low' == if Mid(low, high) <= me then Mid(low, high) else low
    requires high' == if Mid(low, high) <= me then high else Mid(low, high) - 1
    ensures room > 0 && Walking(n, me, low', high', done', parent', room - 1)
    ensures low == me ==> Total(done') == Total(done) + high - Mid(low, high) + 1
  {
    hide WalkKids, WalkParent, Total, Kids, Parent, Pow2;
    HalvesFit(low, high, room);
    WalkStep(me, low, high, parent);
    if low == me { OneMoreKid(done, Kid(Mid(low, high), high - Mid(low, high) + 1), WalkKids(me, low', high')); }
  }

  // Nothing is left to look at.
  lemma WalkDone(n: nat, me: int, low: int, done: seq<Kid>, parent: int, room: nat)
    requires Walking(n, me, low, low, done, parent, room)
    ensures done == Kids(n, me) && parent == Parent(n, me)
  {
    assert done + [] == done;
  }

  lemma Span(n: nat, p: int)
    requires Rank(n, p)
    ensures Total(Kids(n, p)) >= 0 && Kids(n, p) == Halving(p, Total(Kids(n, p)) + 1)
    ensures p == 0 ==> Total(Kids(n, p)) == n - 1
  {
    OwnSpan(n, p);
    KidsHalve(n, p);
  }

  // One round of the two walks.
  lemma WalkStep(me: int, low: int, high: int, parent: int)
    requires low < high
    ensures var mid := Mid(low, high);
      var l, h := if mid <= me then mid else low, if mid <= me then high else mid - 1;
      (WalkParent(me, low, high, parent) == WalkParent(me, l, h, if mid == me then low else parent) &&
       WalkKids(me, low, high) == (if low == me then [Kid(mid, high - mid + 1)] + WalkKids(me, l, h)
         else WalkKids(me, l, h)))
  {
    hide Mid;
  }

  lemma OneMoreKid(done: seq<Kid>, kid: Kid, rest: seq<Kid>)
    ensures done + ([kid] + rest) == (done + [kid]) + rest && Total(done + [kid]) == Total(done) + kid.count
  {
    TotalConcat(done, [kid]);
    assert Total([kid]) == kid.count + Total([]);
  }

  // The number of doublings that cover nprocs; above 2^30 tasks n leaves the range of an int.
  method MaxChildren(nprocs: Int32) returns (maxChildren: Int32)
    requires 1 <= nprocs <= 0x4000_0000
    ensures 0 <= maxChildren <= 30 && Covers(maxChildren as nat, nprocs as int)
  {
    var n: Int32 := 1;
    maxChildren := 0;
    while n < nprocs
      invariant 0 <= maxChildren <= 30 && n as int == Pow2(maxChildren as nat)
      invariant maxChildren > 0 ==> Pow2(maxChildren as nat - 1) < nprocs as int
      decreases nprocs as int - n as int
    {
      Pow2At30();
      if maxChildren == 30 { assert false; }
      n := n * 2;
      maxChildren := maxChildren + 1;
    }
  }

  lemma WrittenMore(outs: map<int, Bytes>, q: int, a: Bytes, b: Bytes)
    requires b != []
    ensures Written(outs, q, a + b) == Written(outs, q, a)[q := Stream(Written(outs, q, a), q) + b]
  {
    var o := Stream(outs, q);
    assert o + a + b == o + (a + b);
    if a == [] { assert a + b == b; }
    else { assert outs[q := o + a][q := o + a + b] == outs[q := o + a + b]; }
  }

  lemma TotalFrom(kids: seq<Kid>, i: nat)
    requires i < |kids|
    ensures Total(kids[i..]) == kids[i].count + Total(kids[i + 1..])
  {
    assert kids[i..][1..] == kids[i + 1..];
  }

  lemma ChildSpan(n: nat, me: int, i: nat)
    requires Rank(n, me) && i < |Kids(n, me)|
    ensures me < Kids(n, me)[i].rank && Last(n, Kids(n, me)[i].rank) <= Last(n, me)
  {
    var kid := Kids(n, me)[i].rank;
    OwnSpan(n, me);
    KidsInRange(me, 0, n - 1);
    assert Lists(Kids(n, me), kid);
    ChildrenMatchParents(n, me, kid);
    ChildInSpan(n, me, kid);
    SpansNest(n, me, kid);
  }

  // The later children of a rank, child i, and the earlier ones: how their counts add up.
  lemma CountsAdd(n: nat, me: int, i: nat)
    requires Rank(n, me) && i < |Kids(n, me)|
    ensures var kids := Kids(n, me);
      0 <= Total(kids[i + 1..]) && 0 <= kids[i].count &&
        Total(kids[i..]) == kids[i].count + Total(kids[i + 1..]) <= Total(kids)
  {
    TotalFrom(Kids(n, me), i);
    ChildSpan(n, me, i);
    ChildEntry(n, me, i);
  }

  // The block of child i fits behind the blocks of the later children.
  lemma RoomForChild(n: nat, me: int, count: nat, i: nat)
    requires Rank(n, me) && i < |Kids(n, me)|
    ensures var kids := Kids(n, me);
      0 <= Total(kids[i + 1..]) && 0 <= kids[i].count && 0 <= Total(kids[i..]) <= Total(kids) &&
      Size(count, 1 + Total(kids[i + 1..])) + Size(count, kids[i].count) == Size(count, 1 + Total(kids[i..])) &&
      Size(count, 1 + Total(kids[i..])) <= Size(count, 1 + Total(kids))
  {
    CountsAdd(n, me, i);
    var kids := Kids(n, me);
    SizeSum(count, 1 + Total(kids[i + 1..]), kids[i].count);
    SizeMonotone(count, 1 + Total(kids[i..]), 1 + Total(kids));
  }

  // base with data written over it at an offset
  function Overlay(base: Bytes, at: nat, data: Bytes): (b: Bytes)
    requires at + |data| <= |base|
    ensures |b| == |base|
  {
    base[..at] + data + base[at + |data|..]
  }

  lemma NothingOver(base: Bytes, at: nat)
    requires at <= |base|
    ensures Overlay(base, at, []) == base
  {
  }

  lemma OneMoreByte(base: Bytes, at: nat, data: Bytes, i: nat)
    requires i < |data| && at + |data| <= |base|
    ensures Overlay(base, at, data[..i])[at + i := data[i]] == Overlay(base, at, data[..i + 1])
  {
  }

  lemma OneMoreChunk(base: Bytes, at: nat, got: Bytes, chunk: Bytes)
    requires at + |got| + |chunk| <= |base|
    ensures Overlay(Overlay(base, at, got), at + |got|, chunk) == Overlay(base, at, got + chunk)
  {
  }

  // How a scatter begins.
  lemma ScatterAwaits(n: nat, me: int, buf: Bytes, count: nat, k: Kont)
    ensures var last := |Kids(n, me)| - 1;
      if me == 0 then Scatter(n, me, buf, count, k) == Spread(n, me, count, buf, last, count, k)
      else
        (Scatter(n, me, buf, count, k) ==
         Recv(Parent(n, me), Size(count, Total(Kids(n, me)) + 1), SpreadKont(n, me, count, k), EXIT) &&
         forall d :: SpreadKont(n, me, count, k)(d) == Spread(n, me, count, d, last, count, k))
  {
    hide Kids, Parent, Total, Size, Spread;
  }

  class Task {
    var me: Int32
    var nprocs: Int32
    var parent: Int32
    var child: array<Int32>
    var childIncl: array<Int32>
    var numChild: Int32
    var numChildIncl: Int32
    // The streams on the sockets to the other ranks: the bytes still to be read and the bytes written.
    var ins: map<int, Bytes>
    var outs: map<int, Bytes>

    constructor (rank: Int32, ranks: Int32)
      ensures me == rank && nprocs == ranks && numChild == 0
    {
      me, nprocs, parent := rank, ranks, -3;
      child, childIncl := new Int32[0], new Int32[0];
      numChild, numChildIncl := 0, 0;
      ins, outs := map[], map[];
    }

    // The filled part of the two child arrays, entry by entry.
    function Entries(): (list: seq<Kid>)
      requires 0 <= numChild as int <= child.Length && child.Length == childIncl.Length
      reads this`child, this`childIncl, this`numChild, child, childIncl
    {
      Zip(child[..numChild], childIncl[..numChild])
    }

    // The task's fields describe its place in the tree of nprocs ranks.
    ghost predicate Placed()
      reads this`me, this`nprocs, this`parent, this`child, this`childIncl, this`numChild, this`numChildIncl, child,
        childIncl
    {
      1 <= nprocs && 0 <= numChild as int <= child.Length && child.Length == childIncl.Length &&
      Entries() == Kids(nprocs as nat, me as int) &&
      numChildIncl as int == Total(Entries()) &&
      parent as int == Parent(nprocs as nat, me as int)
    }

    method AddChild(rank: Int32, count: Int32)
      requires 0 <= numChild as int < child.Length && child.Length == childIncl.Length && child != childIncl
      requires child.Length <= 30 && 0 <= count && 0 <= numChildIncl <= 0x4000_0000 - count
      modifies this`numChild, this`numChildIncl, child, childIncl
      ensures numChild == old(numChild) + 1 && numChildIncl == old(numChildIncl) + count
      ensures Entries() == old(Entries()) + [Kid(rank as int, count as int)]
    {
      ghost var ranks, counts := child[..numChild], childIncl[..numChild];
      child[numChild] := rank;
      childIncl[numChild] := count;
      assert child[..numChild + 1] == ranks + [rank];
      assert childIncl[..numChild + 1] == counts + [count];
      numChild := numChild + 1;
      numChildIncl := numChildIncl + count;
    }

    // The loop invariant of the bisection over [low, high].
    ghost predicate Bisecting(low: Int32, high: Int32, room: nat)
      reads this, child, childIncl
    {
      1 <= nprocs <= 0x4000_0000 && child != childIncl && child.Length == childIncl.Length <= 30 &&
      0 <= numChild as int <= child.Length - room &&
      Walking(nprocs as nat, me as int, low as int, high as int, Entries(), parent as int, room) &&
      numChildIncl as int == Total(Entries())
    }

    // One round: note the child or the parent that mid reveals and keep the half with me in it.
    method Halve(low0: Int32, high0: Int32, ghost room: nat) returns (low: Int32, high: Int32)
      requires low0 < high0 && Bisecting(low0, high0, room)
      modifies this`parent, this`numChild, this`numChildIncl, child, childIncl
      ensures room > 0 && Bisecting(low, high, room - 1) && 0 <= low <= high < nprocs
    {
      low, high := low0, high0;
      HalvesFit(low as int, high as int, room);
      ghost var done, parent0 := Entries(), parent;
      var mid := (high - low) / 2 + (high - low) % 2 + low;
      if low == me { AddChild(mid, high - mid + 1); }
      if mid == me { parent := low; }
      if mid <= me { low := mid; } else { high := mid - 1; }
      WalkOn(nprocs as nat, me as int, low0 as int, high0 as int, done, parent0 as int, room,
             low as int, high as int, Entries(), parent as int);
    }

    // Fresh child arrays for at most maxChildren entries.
    method Reset(maxChildren: Int32)
      requires 1 <= nprocs <= 0x4000_0000 && 0 <= maxChildren <= 30 && Covers(maxChildren as nat, nprocs as int)
      modifies this`parent, this`numChild, this`numChildIncl, this`child, this`childIncl
      ensures fresh(child) && fresh(childIncl) && child.Length == maxChildren as int
      ensures nprocs == old(nprocs) && Bisecting(0, nprocs - 1, maxChildren as nat)
    {
      parent := 0;
      numChild, numChildIncl := 0, 0;
      child := new Int32[maxChildren];
      childIncl := new Int32[maxChildren];
      assert Entries() == [];
      assert [] + Kids(nprocs as nat, me as int) == Kids(nprocs as nat, me as int);
    }

    method ComputeChildren()
      requires 1 <= nprocs <= 0x4000_0000
      modifies this`parent, this`numChild, this`numChildIncl, this`child, this`childIncl
      ensures Placed() && fresh(child) && fresh(childIncl) && Covers(child.Length, nprocs as int)
      ensures 0 <= me < nprocs ==> 0 <= numChildIncl && Entries() == Halving(me as int, numChildIncl as nat + 1)
      ensures me == 0 ==> numChildIncl == nprocs - 1
    {
      hide Walking, Covers, Kids, Parent, Halving, Total;
      var maxChildren := MaxChildren(nprocs);
      Reset(maxChildren);
      var low: Int32, high: Int32 := 0, nprocs - 1;
      ghost var room, ranks := maxChildren as nat, nprocs;
      while high - low > 0
        invariant fresh(child) && fresh(childIncl) && child.Length == maxChildren as int && nprocs == ranks
        invariant 0 <= low <= high < nprocs && Bisecting(low, high, room)
        decreases room
      {
        low, high := Halve(low, high, room);
        room := room - 1;
      }
      WalkDone(nprocs as nat, me as int, low as int, Entries(), parent as int, room);
      assert Covers(maxChildren as nat, ranks as int);
      if 0 <= me < nprocs { Span(nprocs as nat, me as int); }
    }

    ghost function Here(): (world: World)
      reads this`ins, this`outs
    {
      World(ins, outs)
    }

    // Reads size bytes into buf at offset, however they arrive in pieces; -1 at end of file.
    method ReadFd(from: int, buf: array<Byte>, offset: nat, size: nat) returns (rc: int)
      requires offset + size <= buf.Length
      modifies this`ins, buf
      ensures rc == (if size <= |Stream(old(ins), from)| then size else -1)
      ensures rc == size ==> ins == Taken(old(ins), from, size)
      ensures rc == size ==> buf[..] == Overlay(old(buf[..]), offset, Stream(old(ins), from)[..size])
    {
      hide Overlay;
      ghost var base, stream := buf[..], Stream(ins, from);
      var n := 0;
      NothingOver(base, offset);
      while n < size
        invariant 0 <= n <= size && n <= |stream| && ins == Taken(old(ins), from, n)
        invariant buf[..] == Overlay(base, offset, stream[..n])
      {
        var arrived := Stream(ins, from);
        assert arrived == stream[n..];
        if |arrived| == 0 { return -1; }
        var chunk :| 1 <= chunk <= size - n && chunk <= |arrived|;
        OneMoreChunk(base, offset, stream[..n], arrived[..chunk]);
        assert stream[..n] + arrived[..chunk] == stream[..n + chunk];
        CopyIn(arrived[..chunk], buf, offset + n);
        ins := ins[from := arrived[chunk..]];
        n := n + chunk;
      }
      rc := n;
    }

    // memcpy(buf + at, data)
    method CopyIn(data: Bytes, buf: array<Byte>, at: nat)
      requires at + |data| <= buf.Length
      modifies buf
      ensures buf[..] == Overlay(old(buf[..]), at, data)
    {
      hide Overlay;
      ghost var base := buf[..];
      NothingOver(base, at);
      for i := 0 to |data|
        invariant buf[..] == Overlay(base, at, data[..i])
      {
        OneMoreByte(base, at, data, i);
        buf[at + i] := data[i];
      }
      assert data[..|data|] == data;
    }

    // Writes size bytes of buf from offset on, in whatever pieces the socket takes them.
    method WriteFd(to: int, buf: array<Byte>, offset: nat, size: nat)
      requires offset + size <= buf.Length
      modifies this`outs
      ensures outs == Written(old(outs), to, buf[offset..offset + size])
    {
      var n := 0;
      while n < size
        invariant 0 <= n <= size && outs == Written(old(outs), to, buf[offset..offset + n])
      {
        var chunk :| 1 <= chunk <= size - n;
        WrittenMore(old(outs), to, buf[offset..offset + n], buf[offset + n..offset + n + chunk]);
        outs := outs[to := Stream(outs, to) + buf[offset + n..offset + n + chunk]];
        assert buf[offset..offset + n] + buf[offset + n..offset + n + chunk] == buf[offset..offset + n + chunk];
        n := n + chunk;
      }
    }

    // ----- the collectives, each against the program of its rank

    ghost function N(): (v: nat)
      reads this`nprocs
    {
      if nprocs < 0 then 0 else nprocs as nat
    }

    // Writes buf to all children, first to last.
    method FanOutLoop(buf: array<Byte>, size: nat, ghost k: Kont)
      requires Placed() && size <= buf.Length
      modifies this`outs
      ensures Plays(FanOut(N(), me as int, buf[..size], 0, k), old(Here()), k(buf[..size]), Here())
    {
      ghost var start, w := FanOut(N(), me as int, buf[..size], 0, k), Here();
      PlaysSelf(start, w);
      var i: Int32 := 0;
      while i < numChild
        invariant 0 <= i <= numChild && ins == w.ins
        invariant Plays(start, w, FanOut(N(), me as int, buf[..size], i as int, k), Here())
      {
        ghost var p, v := FanOut(N(), me as int, buf[..size], i as int, k), Here();
        assert Entries()[i].rank == child[i] as int;
        WriteFd(child[i] as int, buf, 0, size);
        PlaysStep(start, w, p, v, FanOut(N(), me as int, buf[..size], i as int + 1, k), Here());
        i := i + 1;
      }
    }

    // On ranks other than 0 the broadcast fills buf; false is exit(1).
    method BcastTree(buf: array<Byte>, size: nat, ghost k: Kont) returns (ok: bool)
      requires Placed() && size <= buf.Length
      modifies this`ins, this`outs, buf
      ensures ok ==> Plays(Bcast(N(), me as int, old(buf[..size]), size, k), old(Here()), k(buf[..size]), Here())
      ensures !ok ==> Starves(Bcast(N(), me as int, old(buf[..size]), size, k), old(Here()))
    {
      hide Plays, Starves, FanOut, Kids;
      ghost var start, w, sent := Bcast(N(), me as int, buf[..size], size, k), Here(), buf[..size];
      PlaysSelf(start, w);
      if me != 0 {
        assert start == Recv(parent as int, size, BcastKont(N(), me as int, k), EXIT);
        var rc := ReadFd(parent as int, buf, 0, size);
        if rc < 0 {
          StarvesHere(start, w);
          return false;
        }
        assert buf[..size] == Stream(w.ins, parent as int)[..size];
        PlaysStep(start, w, start, w, FanOut(N(), me as int, buf[..size], 0, k), Here());
      }
      ghost var v := Here();
      if me == 0 { assert Slice(sent, 0, size) == sent; }
      FanOutLoop(buf, size, k);
      PlaysThen(start, w, FanOut(N(), me as int, buf[..size], 0, k), v, k(buf[..size]), Here());
      ok := true;
    }

    method ReadInt(from: int) returns (ok: bool, value: int)
      modifies this`ins
      ensures ok == (INT_SIZE <= |Stream(old(ins), from)|)
      ensures ok ==> ins == Taken(old(ins), from, INT_SIZE) && value == DecodeInt(Stream(old(ins), from)[..INT_SIZE])
    {
      var cell := new Byte[INT_SIZE];
      var rc := ReadFd(from, cell, 0, INT_SIZE);
      ok, value := rc >= 0, DecodeInt(cell[..]);
    }

    method WriteInt(to: int, value: int)
      modifies this`outs
      ensures outs == Written(old(outs), to, EncodeInt(value))
    {
      var cell := new Byte[INT_SIZE];
      CopyIn(EncodeInt(value), cell, 0);
      WriteFd(to, cell, 0, INT_SIZE);
    }

    // Reads the children's maxima, last child first.
    method ReduceLoop(sendVal: Int32, ghost k: Kont) returns (ok: bool, maxVal: int)
      requires Placed()
      modifies this`ins
      ensures ok ==> Plays(Allreduce(N(), me as int, sendVal as int, k), old(Here()),
        Reduce(N(), me as int, -1, maxVal, k), Here())
      ensures !ok ==> Starves(Allreduce(N(), me as int, sendVal as int, k), old(Here()))
    {
      hide Plays, Starves;
      ghost var start, w := Allreduce(N(), me as int, sendVal as int, k), Here();
      PlaysSelf(start, w);
      maxVal := sendVal as int;
      var i := numChild - 1;
      while i >= 0
        invariant -1 <= i < numChild
        invariant Plays(start, w, Reduce(N(), me as int, i as int, maxVal, k), Here())
        decreases i as int
      {
        ghost var p, v := Reduce(N(), me as int, i as int, maxVal, k), Here();
        assert Entries()[i].rank == child[i] as int;
        assert p == Recv(child[i] as int, INT_SIZE, ReduceKont(N(), me as int, i as nat, maxVal, k), EXIT);
        var got, childVal := ReadInt(child[i] as int);
        if !got {
          StarvesHere(p, v);
          PlaysToStarving(start, w, p, v);
          return false, maxVal;
        }
        assert LocalStep(p, v) == Some((Reduce(N(), me as int, i as int - 1, Max(maxVal, childVal), k), Here()));
        if childVal > maxVal { maxVal := childVal; }
        PlaysStep(start, w, p, v, Reduce(N(), me as int, i as int - 1, maxVal, k), Here());
        i := i - 1;
      }
      ok := true;
    }

    // Every rank passes its int and finds the largest in recvbuf.
    method AllreduceMaxIntTree(sendVal: Int32, recvbuf: array<Byte>, ghost k: Kont) returns (ok: bool)
      requires Placed() && recvbuf.Length == INT_SIZE
      modifies this`ins, this`outs, recvbuf
      ensures ok ==> Plays(Allreduce(N(), me as int, sendVal as int, k), old(Here()), k(recvbuf[..]), Here())
      ensures !ok ==> Starves(Allreduce(N(), me as int, sendVal as int, k), old(Here()))
    {
      hide Plays, Starves, Kids, FanOut, EncodeInt;
      ghost var start, w := Allreduce(N(), me as int, sendVal as int, k), Here();
      var maxVal;
      ok, maxVal := ReduceLoop(sendVal, k);
      if !ok { return; }
      ghost var p, v := Reduce(N(), me as int, -1, maxVal, k), Here();
      if me != 0 {
        WriteInt(parent as int, maxVal);
        PlaysStep(start, w, p, v, Bcast(N(), me as int, [], INT_SIZE, k), Here());
      } else {
        UnsignedRoundTrip(maxVal);
        CopyIn(EncodeInt(maxVal), recvbuf, 0);
        assert recvbuf[..INT_SIZE] == EncodeInt(maxVal);
      }
      ghost var q, u := Bcast(N(), me as int, recvbuf[..INT_SIZE], INT_SIZE, k), Here();
      assert Plays(start, w, q, u);
      ok := BcastTree(recvbuf, INT_SIZE, k);
      assert recvbuf[..INT_SIZE] == recvbuf[..];
      if ok { PlaysThen(start, w, q, u, k(recvbuf[..]), Here()); } else { PlaysToStarving(start, w, q, u); }
    }

    // Bytes in the buffer that holds one block for every rank of the subtree.
    ghost function BigCount(count: nat): (v: nat)
      reads this`numChildIncl
    {
      Size(count, numChildIncl as int + 1)
    }

    ghost predicate Offset(count: nat, i: int, offset: nat)
      requires Placed() && -1 <= i < numChild as int
      reads this`me, this`nprocs, this`parent, this`child, this`childIncl, this`numChild, this`numChildIncl, child,
        childIncl
    {
      0 <= Total(Entries()[i + 1..]) && offset == Size(count, 1 + Total(Entries()[i + 1..])) <= BigCount(count)
    }

    // The part of a subtree buffer that belongs to child i starts at offset and ends before BigCount.
    method ChildBlock(count: nat, i: Int32, offset: nat) returns (len: nat)
      requires Placed() && 0 <= me < nprocs && 0 <= i < numChild && Offset(count, i as int, offset)
      ensures len == Size(count, Kids(N(), me as int)[i].count) && Kids(N(), me as int)[i].rank == child[i] as int
      ensures Offset(count, i as int - 1, offset + len)
    {
      RoomForChild(N(), me as int, count, i as nat);
      assert Entries()[i] == Kid(child[i] as int, childIncl[i] as int);
      len := count * childIncl[i] as nat;
    }

    lemma OwnBlock(count: nat)
      requires Placed() && 0 <= me < nprocs
      ensures 0 <= numChildIncl && count <= BigCount(count) && Offset(count, numChild as int - 1, count)
    {
      OwnSpan(N(), me as int);
      SizeMonotone(count, 1, numChildIncl as int + 1);
      assert Entries()[numChild as int..] == [];
      assert Size(count, 1) == count;
    }

    lemma AllBlocks(count: nat, offset: nat)
      requires Placed() && Offset(count, -1, offset)
      ensures offset == BigCount(count)
    {
      assert Entries()[0..] == Entries();
    }

    // Reads the block of child i to its place in big.
    method CollectOne(big: array<Byte>, count: nat, i: Int32, offset: nat, ghost k: Kont) returns (ok: bool, next: nat)
      requires Placed() && 0 <= me < nprocs && 0 <= i < numChild && Offset(count, i as int, offset) &&
        BigCount(count) <= big.Length
      modifies this`ins, big
      ensures Offset(count, i as int - 1, next) && (ok ==>
        LocalStep(Collect(N(), me as int, count, i as int, old(big[..offset]), k), old(Here())) ==
        Some((Collect(N(), me as int, count, i as int - 1, big[..next], k), Here())))
      ensures !ok ==> Starves(Collect(N(), me as int, count, i as int, old(big[..offset]), k), old(Here()))
    {
      ghost var p, v, before := Collect(N(), me as int, count, i as int, big[..offset], k), Here(), big[..offset];
      PlaysSelf(p, v);
      var len := ChildBlock(count, i, offset);
      next := offset + len;
      var rc := ReadFd(child[i] as int, big, offset, len);
      ok := rc >= 0;
      if ok { assert big[..next] == before + Stream(v.ins, child[i] as int)[..len]; }
    }

    // Fills big, which starts with the rank's own block, with the children's blocks, last child first.
    method CollectLoop(big: array<Byte>, count: nat, ghost k: Kont) returns (ok: bool)
      requires Placed() && 0 <= me < nprocs && count <= BigCount(count) <= big.Length
      modifies this`ins, big
      ensures ok ==> Plays(Collect(N(), me as int, count, numChild as int - 1, old(big[..count]), k), old(Here()),
                           Collect(N(), me as int, count, -1, big[..BigCount(count)], k), Here())
      ensures !ok ==> Starves(Collect(N(), me as int, count, numChild as int - 1, old(big[..count]), k), old(Here()))
    {
      hide Collect, LocalStep, Plays, Starves;
      ghost var start, w := Collect(N(), me as int, count, numChild as int - 1, big[..count], k), Here();
      PlaysSelf(start, w);
      OwnBlock(count);
      var offset: nat, i := count, numChild - 1;
      while i >= 0
        invariant -1 <= i < numChild && Offset(count, i as int, offset)
        invariant Plays(start, w, Collect(N(), me as int, count, i as int, big[..offset], k), Here())
        decreases i as int
      {
        ghost var p, v := Collect(N(), me as int, count, i as int, big[..offset], k), Here();
        ok, offset := CollectOne(big, count, i, offset, k);
        if !ok {
          PlaysToStarving(start, w, p, v);
          return;
        }
        PlaysStep(start, w, p, v, Collect(N(), me as int, count, i as int - 1, big[..offset], k), Here());
        i := i - 1;
      }
      AllBlocks(count, offset);
      ok := true;
    }

    // The buffer the blocks are collected in: rank 0 uses the caller's.
    method GatherBuffer(sendbuf: array<Byte>, count: nat, recvbuf: array<Byte>) returns (big: array<Byte>)
      requires Placed() && 0 <= me < nprocs && count <= sendbuf.Length && sendbuf != recvbuf
      requires me == 0 ==> recvbuf.Length >= BigCount(count)
      modifies recvbuf
      ensures count <= BigCount(count) <= big.Length && big[..count] == Slice(old(sendbuf[..]), 0, count)
      ensures if me == 0 then big == recvbuf
        else fresh(big) && big.Length == BigCount(count) && recvbuf[..] == old(recvbuf[..])
    {
      hide Size, Kids, Total, Zip;
      OwnBlock(count);
      big := recvbuf;
      if me != 0 {
        var len := BigSize(count);
        big := new Byte[len];
      }
      CopyIn(sendbuf[..count], big, 0);
    }

    // Every rank passes count bytes; rank 0 finds all blocks in recvbuf, the others send theirs up.
    method GatherTree(sendbuf: array<Byte>, count: nat, recvbuf: array<Byte>, ghost k: Kont) returns (ok: bool)
      requires Placed() && 0 <= me < nprocs && count <= sendbuf.Length && sendbuf != recvbuf
      requires me == 0 ==> recvbuf.Length >= BigCount(count)
      modifies this`ins, this`outs, recvbuf
      ensures me != 0 ==> recvbuf[..] == old(recvbuf[..])
      ensures ok ==> Plays(Gather(N(), me as int, old(sendbuf[..]), count, k), old(Here()),
                           k(if me == 0 then recvbuf[..BigCount(count)] else []), Here())
      ensures !ok ==> Starves(Gather(N(), me as int, old(sendbuf[..]), count, k), old(Here()))
    {
      hide Plays, Starves, Kids, Total, WalkKids, WalkParent, Zip;
      ghost var start, w := Gather(N(), me as int, sendbuf[..], count, k), Here();
      var big := GatherBuffer(sendbuf, count, recvbuf);
      assert start == Collect(N(), me as int, count, numChild as int - 1, big[..count], k);
      ok := CollectLoop(big, count, k);
      if ok && me != 0 {
        ghost var p, v := Collect(N(), me as int, count, -1, big[..big.Length], k), Here();
        WriteFd(parent as int, big, 0, big.Length);
        assert big[0..0 + big.Length] == big[..big.Length];
        PlaysStep(start, w, p, v, k([]), Here());
      }
    }

    // Writes child i its part of big.
    method SpreadOne(big: array<Byte>, count: nat, i: Int32, offset: nat, ghost k: Kont) returns (next: nat)
      requires Placed() && 0 <= me < nprocs && 0 <= i < numChild && Offset(count, i as int, offset) &&
        BigCount(count) <= big.Length
      modifies this`outs
      ensures Offset(count, i as int - 1, next)
      ensures LocalStep(Spread(N(), me as int, count, big[..], i as int, offset, k), old(Here())) ==
              Some((Spread(N(), me as int, count, big[..], i as int - 1, next, k), Here()))
    {
      hide Plays, Kids, Total;
      var len := ChildBlock(count, i, offset);
      assert big[offset..offset + len] == Slice(big[..], offset, len);
      WriteFd(child[i] as int, big, offset, len);
      next := offset + len;
    }

    // Writes every child its part of big, last child first.
    method SpreadLoop(big: array<Byte>, count: nat, ghost k: Kont)
      requires Placed() && 0 <= me < nprocs && count <= BigCount(count) <= big.Length
      modifies this`outs
      ensures Plays(Spread(N(), me as int, count, big[..], numChild as int - 1, count, k), old(Here()), k(big[..count]),
        Here())
    {
      ghost var start, w := Spread(N(), me as int, count, big[..], numChild as int - 1, count, k), Here();
      PlaysSelf(start, w);
      OwnBlock(count);
      var offset: nat, i := count, numChild - 1;
      while i >= 0
        invariant -1 <= i < numChild && Offset(count, i as int, offset)
        invariant Plays(start, w, Spread(N(), me as int, count, big[..], i as int, offset, k), Here())
        decreases i as int
      {
        ghost var p, v := Spread(N(), me as int, count, big[..], i as int, offset, k), Here();
        offset := SpreadOne(big, count, i, offset, k);
        PlaysStep(start, w, p, v, Spread(N(), me as int, count, big[..], i as int - 1, offset, k), Here());
        i := i - 1;
      }
      assert big[..count] == Slice(big[..], 0, count);
    }

    // The blocks of the subtree: rank 0 has them, the others read them from their parent.
    method ScatterBuffer(sendbuf: array<Byte>, count: nat, ghost k: Kont) returns (ok: bool, big: array<Byte>)
      requires Placed() && 0 <= me < nprocs && (me == 0 ==> sendbuf.Length >= BigCount(count))
      modifies this`ins
      ensures ok ==> count <= BigCount(count) <= big.Length && (big == sendbuf || fresh(big))
      ensures ok ==> Plays(Scatter(N(), me as int, old(sendbuf[..]), count, k), old(Here()),
                           Spread(N(), me as int, count, big[..], numChild as int - 1, count, k), Here())
      ensures !ok ==> Starves(Scatter(N(), me as int, old(sendbuf[..]), count, k), old(Here()))
    {
      hide Plays, Starves, Spread, Kids, Total, Zip, Scatter, Size, Taken;
      ghost var start, w := Scatter(N(), me as int, sendbuf[..], count, k), Here();
      ghost var last := numChild as int - 1;
      PlaysSelf(start, w);
      OwnBlock(count);
      ScatterAwaits(N(), me as int, sendbuf[..], count, k);
      ok, big := true, sendbuf;
      if me != 0 {
        var len := BigSize(count);
        ok, big := ReadBuffer(parent as int, len);
        if !ok {
          StarvesHere(start, w);
          return;
        }
        PlaysStep(start, w, start, w, Spread(N(), me as int, count, big[..], last, count, k), Here());
      }
    }

    method BigSize(count: nat) returns (len: nat)
      requires 0 <= numChildIncl
      ensures len == BigCount(count)
    {
      len := count * (numChildIncl as nat + 1);
    }

    // A new buffer filled from one stream.
    method ReadBuffer(from: int, size: nat) returns (ok: bool, buf: array<Byte>)
      modifies this`ins
      ensures ok == (size <= |Stream(old(ins), from)|) && fresh(buf) && buf.Length == size
      ensures ok ==> ins == Taken(old(ins), from, size) && buf[..] == Stream(old(ins), from)[..size]
    {
      hide Taken;
      buf := new Byte[size];
      var rc := ReadFd(from, buf, 0, size);
      ok := rc >= 0;
    }

    // Rank 0 passes one block for every rank; each rank finds its block in recvbuf.
    method ScatterTree(sendbuf: array<Byte>, count: nat, recvbuf: array<Byte>, ghost k: Kont) returns (ok: bool)
      requires Placed() && 0 <= me < nprocs && count <= recvbuf.Length && sendbuf != recvbuf
      requires me == 0 ==> sendbuf.Length >= BigCount(count)
      modifies this`ins, this`outs, recvbuf
      ensures ok ==> Plays(Scatter(N(), me as int, old(sendbuf[..]), count, k), old(Here()), k(recvbuf[..count]),
        Here())
      ensures !ok ==> Starves(Scatter(N(), me as int, old(sendbuf[..]), count, k), old(Here()))
    {
      hide Plays, Starves, Spread, Kids, Scatter;
      ghost var start, w := Scatter(N(), me as int, sendbuf[..], count, k), Here();
      var big;
      ok, big := ScatterBuffer(sendbuf, count, k);
      if !ok { return; }
      ghost var p, v, mine := Spread(N(), me as int, count, big[..], numChild as int - 1, count, k), Here(),
        big[..count];
      SpreadLoop(big, count, k);
      PlaysThen(start, w, p, v, k(mine), Here());
      CopyIn(big[..count], recvbuf, 0);
      assert recvbuf[..count] == mine;
    }
  }
}
