// A whole client program: every task makes the same sequence of collective calls, each with its own
// arguments, and tasks may run ahead of one another as far as the bytes let them.
module CoboProgram {
  import opened Bytestream
  import opened CoboTree
  import opened Network
  import opened Collectives
  import opened TreeRuns
  import opened CollectiveRuns

  // One collective call, with the arguments of all ranks.
  datatype Call =
    | BarrierCall
    | AllreduceCall(values: seq<int>)
    | BcastCall(bufs: seq<Bytes>, size: nat)
    | GatherCall(parts: seq<Bytes>, count: nat)
    | ScatterCall(bufs: seq<Bytes>, count: nat)
    | AllgatherCall(parts: seq<Bytes>, count: nat)
    | AllgatherStrCall(strs: seq<Bytes>)

  // What callers owe: one argument per rank, of the announced size.
  ghost predicate Consistent(n: nat, call: Call) {
    match call
    case BarrierCall => true
    case AllreduceCall(values) => Int32s(values, n)
    case BcastCall(bufs, size) => |bufs| == n >= 1 && |bufs[0]| == size
    case GatherCall(parts, count) => Blocks(parts, n, count)
    case ScatterCall(bufs, count) => |bufs| == n >= 1 && |bufs[0]| == Size(count, n)
    case AllgatherCall(parts, count) => Blocks(parts, n, count)
    case AllgatherStrCall(strs) => CStrings(strs, n)
  }

  function Issue(n: nat, me: int, call: Call, k: Kont): (p: Proc)
    requires 0 <= me < n
  {
    match call
    case BarrierCall => Barrier(n, me, k)
    case AllreduceCall(values) => if me < |values| then Allreduce(n, me, values[me], k) else EXIT
    case BcastCall(bufs, size) => if me < |bufs| then Bcast(n, me, bufs[me], size, k) else EXIT
    case GatherCall(parts, count) => if me < |parts| then Gather(n, me, parts[me], count, k) else EXIT
    case ScatterCall(bufs, count) => if me < |bufs| then Scatter(n, me, bufs[me], count, k) else EXIT
    case AllgatherCall(parts, count) => if me < |parts| then Allgather(n, me, parts[me], count, k) else EXIT
    case AllgatherStrCall(strs) => if me < |strs| then AllgatherStr(n, me, strs[me], k) else EXIT
  }

  // The meaning of a call: what rank me finds in its receive buffer.
  function Meaning(n: nat, call: Call, me: int): (b: Bytes)
    requires 0 <= me < n && Consistent(n, call)
  {
    match call
    case BarrierCall => []
    case AllreduceCall(values) => EncodeInt(MaxOf(values))
    case BcastCall(bufs, _) => bufs[0]
    case GatherCall(parts, _) => if me == 0 then Concat(parts) else []
    case ScatterCall(bufs, count) => Slice(bufs[0], Size(count, me), count)
    case AllgatherCall(parts, _) => Concat(parts)
    case AllgatherStrCall(strs) => Concat(Padded(strs, SlotSize(strs)))
  }

  // Calls no rank can leave before every rank has entered.
  predicate Synchronizes(call: Call) { call.BarrierCall? || call.AllreduceCall? || call.AllgatherStrCall? }

  function Chop(buf: Bytes, n: nat, count: nat): (list: seq<Bytes>) {
    seq(n, q requires 0 <= q < n => Slice(buf, Size(count, q), count))
  }

  lemma SliceOfFront(buf: Bytes, len: nat, from: nat, count: nat)
    requires from + count <= len <= |buf|
    ensures Slice(buf[..len], from, count) == Slice(buf, from, count) && |Slice(buf, from, count)| == count
  {
  }

  lemma {:induction false} ChopConcat(buf: Bytes, n: nat, count: nat)
    requires |buf| == Size(count, n)
    ensures Concat(Chop(buf, n, count)) == buf && Blocks(Chop(buf, n, count), n, count)
    decreases n
  {
    var parts := Chop(buf, n, count);
    if n > 0 {
      SizeStep(count, n - 1);
      var len := Size(count, n - 1);
      var front, last := buf[..len], parts[n - 1];
      ChopConcat(front, n - 1, count);
      forall q | 0 <= q < n - 1
        ensures parts[q] == Chop(front, n - 1, count)[q] && |parts[q]| == count
      {
        SizeStep(count, q);
        SizeMonotone(count, q + 1, n - 1);
        SliceOfFront(buf, len, Size(count, q), count);
      }
      assert parts == Chop(front, n - 1, count) + [last];
      ConcatAppend(Chop(front, n - 1, count), [last]);
      assert Concat([last]) == last + Concat([]);
      assert buf == front + last;
    }
  }

  // Scattering a buffer and gathering what the ranks have received restores it.
  lemma ScatterThenGather(n: nat, bufs: seq<Bytes>, count: nat)
    requires n >= 1 && Consistent(n, ScatterCall(bufs, count))
    ensures var received := seq(n, q requires 0 <= q < n => Meaning(n, ScatterCall(bufs, count), q));
      Consistent(n, GatherCall(received, count)) && Meaning(n, GatherCall(received, count), 0) == bufs[0]
  {
    ChopConcat(bufs[0], n, count);
    assert seq(n, q requires 0 <= q < n => Meaning(n, ScatterCall(bufs, count), q)) == Chop(bufs[0], n, count);
  }

  lemma CallRuns(s: State, n: nat, call: Call, ks: seq<Kont>) returns (t: State)
    requires 1 <= n <= |s.procs| && Shape(s) && UpQuiet(s, n) && DownQuiet(s, n) && |ks| == n && Consistent(n, call)
    requires forall q :: 0 <= q < n ==> s.procs[q] == Issue(n, q, call, ks[q])
    ensures Quiet(s, t, n, 0, n - 1)
    ensures forall q :: 0 <= q < n ==> t.procs[q] == ks[q](Meaning(n, call, q))
    ensures Synchronizes(call) ==> forall p, q :: 0 <= p < n && 0 <= q < n ==> s.know[p] <= t.know[q]
  {
    match call {
      case BarrierCall => t := BarrierRuns(s, n, ks);
      case AllreduceCall(values) => t := AllreduceRuns(s, n, values, ks);
      case BcastCall(bufs, _) => t := BcastRuns(s, n, bufs[0], bufs, ks);
      case GatherCall(parts, count) => t := GatherRuns(s, n, count, parts, ks);
      case ScatterCall(bufs, count) =>
        ChopConcat(bufs[0], n, count);
        t := ScatterRuns(s, n, count, Chop(bufs[0], n, count), bufs, ks);
      case AllgatherCall(parts, count) => t := AllgatherRuns(s, n, count, parts, ks);
      case AllgatherStrCall(strs) => t := AllgatherStrRuns(s, n, strs, ks);
    }
  }

  // ----- the program of one task

  function Program(n: nat, me: int, calls: seq<Call>, j: nat, results: seq<Bytes>): (p: Proc)
    requires 0 <= me < n
    decreases |calls| - j, 0
  {
    if j >= |calls| then Done(Value(results))
    else Mark(Entered(j), Issue(n, me, calls[j], ReturnKont(n, me, calls, j, results)))
  }

  function ReturnKont(n: nat, me: int, calls: seq<Call>, j: nat, results: seq<Bytes>): (k: Kont)
    requires 0 <= me < n && j < |calls|
    decreases |calls| - j - 1, 1
  {
    res => Mark(Returned(j), Program(n, me, calls, j + 1, results + [res]))
  }

  ghost function Init(n: nat, calls: seq<Call>): (s: State) {
    State(seq(n, q requires 0 <= q < n => Program(n, q, calls, 0, [])), seq(n, _ => {}), seq(n, _ => 0),
          map[], {}, false)
  }

  ghost predicate AllConsistent(n: nat, calls: seq<Call>) { forall j :: 0 <= j < |calls| ==> Consistent(n, calls[j]) }

  // The meanings of the first j calls.
  function Meanings(n: nat, calls: seq<Call>, j: nat, me: int): (list: seq<Bytes>)
    requires 0 <= me < n && j <= |calls| && AllConsistent(n, calls)
  {
    seq(j, i requires 0 <= i < j => Meaning(n, calls[i], me))
  }

  // Whoever is back from a synchronizing call knows that everybody has entered it.
  ghost predicate Ordered(n: nat, calls: seq<Call>, log: set<Entry>) {
    forall x, p :: (x in log && x.stamp.event.Returned? && x.stamp.event.call < |calls| &&
                    Synchronizes(calls[x.stamp.event.call]) && 0 <= p < n) ==>
      Stamp(p, Entered(x.stamp.event.call)) in x.past
  }

  // Everybody stands before call j with all earlier results, and the channels are empty.
  ghost predicate Between(s: State, n: nat, calls: seq<Call>, j: nat) {
    AllConsistent(n, calls) && j <= |calls| && Shape(s) && |s.procs| == n && (forall e :: Chan(s, e) == []) &&
      !s.crossed &&
    Ordered(n, calls, s.log) &&
    forall q :: 0 <= q < n ==> s.procs[q] == Program(n, q, calls, j, Meanings(n, calls, j, q))
  }

  // ----- one call after the other

  lemma EnterCall(s: State, n: nat, calls: seq<Call>, j: nat) returns (t: State)
    requires n >= 1 && Between(s, n, calls, j) && j < |calls|
    ensures Announced(s, t, n, Entered(j)) && SameEpoch(t, n) && Ordered(n, calls, t.log)
    ensures forall q :: 0 <= q < n ==>
      t.procs[q] == Issue(n, q, calls[j], ReturnKont(n, q, calls, j, Meanings(n, calls, j, q)))
  {
    t := Announce(s, n, Entered(j));
  }

  lemma MeaningsNext(n: nat, calls: seq<Call>, j: nat, me: int)
    requires 0 <= me < n && j < |calls| && AllConsistent(n, calls)
    ensures Meanings(n, calls, j, me) + [Meaning(n, calls[j], me)] == Meanings(n, calls, j + 1, me)
  {
  }

  lemma MakeCall(s: State, n: nat, calls: seq<Call>, j: nat) returns (t: State)
    requires 1 <= n == |s.procs| && Shape(s) && AllConsistent(n, calls) && j < |calls| && (forall e :: Chan(s, e) == [])
    requires forall q :: 0 <= q < n ==>
      s.procs[q] == Issue(n, q, calls[j], ReturnKont(n, q, calls, j, Meanings(n, calls, j, q)))
    ensures Quiet(s, t, n, 0, n - 1)
    ensures forall q :: 0 <= q < n ==>
      t.procs[q] == Mark(Returned(j), Program(n, q, calls, j + 1, Meanings(n, calls, j + 1, q)))
    ensures Synchronizes(calls[j]) ==> forall p, q :: 0 <= p < n && 0 <= q < n ==> s.know[p] <= t.know[q]
  {
    var ks := seq(n, q requires 0 <= q < n => ReturnKont(n, q, calls, j, Meanings(n, calls, j, q)));
    t := CallRuns(s, n, calls[j], ks);
    forall q | 0 <= q < n
      ensures t.procs[q] == Mark(Returned(j), Program(n, q, calls, j + 1, Meanings(n, calls, j + 1, q)))
    {
      MeaningsNext(n, calls, j, q);
    }
  }

  lemma LeaveCall(s: State, n: nat, calls: seq<Call>, j: nat) returns (t: State)
    requires 1 <= n == |s.procs| && Shape(s) && AllConsistent(n, calls) && j < |calls| && (forall e :: Chan(s, e) == [])
    requires forall q :: 0 <= q < n ==>
      s.procs[q] == Mark(Returned(j), Program(n, q, calls, j + 1, Meanings(n, calls, j + 1, q)))
    requires !s.crossed && Ordered(n, calls, s.log)
    requires Synchronizes(calls[j]) ==> forall p, q :: 0 <= p < n && 0 <= q < n ==> Stamp(p, Entered(j)) in s.know[q]
    ensures Reaches(s, t) && Between(t, n, calls, j + 1)
  {
    t := Announce(s, n, Returned(j));
  }

  lemma OneCall(s: State, n: nat, calls: seq<Call>, j: nat) returns (t: State)
    requires n >= 1 && Between(s, n, calls, j) && j < |calls|
    ensures Reaches(s, t) && Between(t, n, calls, j + 1)
  {
    var a := EnterCall(s, n, calls, j);
    var b := MakeCall(a, n, calls, j);
    t := LeaveCall(b, n, calls, j);
    ReachesTransitive(s, a, b);
    ReachesTransitive(s, b, t);
  }

  lemma {:induction false} AllCalls(s: State, n: nat, calls: seq<Call>, j: nat) returns (t: State)
    requires n >= 1 && Between(s, n, calls, j)
    ensures Reaches(s, t) && Between(t, n, calls, |calls|)
    decreases |calls| - j
  {
    if j == |calls| {
      ReachesSelf(s);
      t := s;
    } else {
      var u := OneCall(s, n, calls, j);
      t := AllCalls(u, n, calls, j + 1);
      ReachesTransitive(s, u, t);
    }
  }

  // Everybody has returned with the meaning of every call, and no byte is left anywhere.
  ghost predicate Complete(f: State, n: nat, calls: seq<Call>) {
    AllConsistent(n, calls) && |f.procs| == n && (forall e :: Chan(f, e) == []) &&
    forall q :: 0 <= q < n ==> f.procs[q] == Done(Value(Meanings(n, calls, |calls|, q)))
  }

  // Any task that is back from a synchronizing call, so far, has been preceded by all tasks' entries.
  ghost predicate Synchronized(n: nat, calls: seq<Call>, log: set<Entry>) {
    forall p, q, j :: (0 <= p < n && 0 <= q < n && 0 <= j < |calls| && Synchronizes(calls[j]) &&
                       Stamp(q, Returned(j)) in Stamps(log)) ==>
      Stamp(p, Entered(j)) in Stamps(log)
  }

  lemma InitIsBetween(n: nat, calls: seq<Call>)
    requires AllConsistent(n, calls)
    ensures Between(Init(n, calls), n, calls, 0) && Truthful(Init(n, calls))
  {
    forall q | 0 <= q < n
      ensures Init(n, calls).procs[q] == Program(n, q, calls, 0, Meanings(n, calls, 0, q))
    {
      assert Meanings(n, calls, 0, q) == [];
    }
  }

  lemma LogIsSynchronized(n: nat, calls: seq<Call>, log: set<Entry>, all: set<Entry>)
    requires Ordered(n, calls, all) && log <= all && forall x :: x in log ==> x.past <= Stamps(log)
    ensures Synchronized(n, calls, log)
  {
    forall p, q, j | 0 <= p < n && 0 <= q < n && 0 <= j < |calls| && Synchronizes(calls[j]) &&
        Stamp(q, Returned(j)) in Stamps(log)
      ensures Stamp(p, Entered(j)) in Stamps(log)
    {
      var x :| x in log && x.stamp == Stamp(q, Returned(j));
      assert Stamp(p, Entered(j)) in x.past;
    }
  }

  // What holds of a state reached by `steps` steps when every run takes `total` steps to f.
  ghost predicate OnTrack(t: State, steps: nat, n: nat, calls: seq<Call>, total: nat, f: State) {
    steps <= total && Reaches(t, f) && !t.crossed && Synchronized(n, calls, t.log) &&
      (Stuck(t) ==> t == f && steps == total)
  }

  // For any number of tasks and any sequence of calls with consistent arguments, all interleavings take
  // the same number of steps and end in the same complete state; none gets stuck before; at no time has a
  // byte been read in another call than the one it was written in; and at no time is a task back from a
  // synchronizing call that some task has not entered.
  lemma EveryInterleaving(n: nat, calls: seq<Call>) returns (total: nat, f: State)
    requires n >= 1 && AllConsistent(n, calls)
    ensures Complete(f, n, calls)
    ensures forall sched, t :: Run(Init(n, calls), sched) == Some(t) ==> OnTrack(t, |sched|, n, calls, total, f)
  {
    var s := Init(n, calls);
    InitIsBetween(n, calls);
    f := AllCalls(s, n, calls, 0);
    var good :| Run(s, good) == Some(f);
    total := |good|;
    forall sched, t | Run(s, sched) == Some(t)
      ensures OnTrack(t, |sched|, n, calls, total, f)
    {
      var rest := EveryRun(s, good, f, sched, t);
      LogIsSynchronized(n, calls, t.log, f.log);
    }
  }
}
