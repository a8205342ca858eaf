// One collective call by all tasks of a job, and the imperative code of one of the tasks in it.
module CoboJob {
  import opened Bytestream
  import opened CoboTree
  import opened Network
  import opened Collectives
  import opened TreeRuns
  import opened CoboProgram
  import opened LocalRun
  import opened Tracking
  import opened CoboTask
  import CollectiveRuns

  // The task returns with what it has been given.
  function Finish(): (k: Kont) { d => Done(Value([d])) }

  ghost function Job(n: nat, call: Call): (s: State) {
    State(seq(n, q requires 0 <= q < n => Issue(n, q, call, Finish())), seq(n, _ => {}), seq(n, _ => 0),
          map[], {}, false)
  }

  // ----- no task of a job that completes has met end of file

  ghost function ExitTerms(): (terms: Terms) { Terms((p: Proc, q: Proc) => p.Done?, -1, (e: Event) => false) }

  // End of file makes the program exit.
  ghost predicate ExitsAtEof(p: Proc) { Tracks(ExitTerms(), p, p) }

  lemma GatherExits(n: nat, me: int, send: Bytes, count: nat, k: Kont)
    requires 0 <= me < n && forall d :: ExitsAtEof(k(d))
    ensures ExitsAtEof(Gather(n, me, send, count, k))
  {
    hide Tracks, Gather;
    GatherTracks(ExitTerms(), n, me, send, count, k, k);
  }

  lemma BcastExits(n: nat, me: int, buf: Bytes, size: nat, k: Kont)
    requires 0 <= me < n && forall d :: ExitsAtEof(k(d))
    ensures ExitsAtEof(Bcast(n, me, buf, size, k))
  {
    hide Tracks, Bcast;
    BcastTracks(ExitTerms(), n, me, buf, size, k, k);
  }

  lemma AllreduceExits(n: nat, me: int, value: int, k: Kont)
    requires 0 <= me < n && forall d :: ExitsAtEof(k(d))
    ensures ExitsAtEof(Allreduce(n, me, value, k))
  {
    hide Tracks, Reduce, Kids;
    ReduceTracks(ExitTerms(), n, me, |Kids(n, me)| - 1, value, k, k);
  }

  lemma AllgatherExits(n: nat, me: int, send: Bytes, count: nat, k: Kont)
    requires 0 <= me < n && forall d :: ExitsAtEof(k(d))
    ensures ExitsAtEof(Allgather(n, me, send, count, k))
  {
    hide Tracks, Gather, Bcast, Size;
    forall d
      ensures ExitsAtEof(AllgatherKont(n, me, count, k)(d))
    {
      BcastExits(n, me, d, Size(count, n), k);
    }
    GatherExits(n, me, send, count, AllgatherKont(n, me, count, k));
  }

  lemma AllgatherStrExits(n: nat, me: int, str: Bytes, k: Kont)
    requires 0 <= me < n && forall d :: ExitsAtEof(k(d))
    ensures ExitsAtEof(AllgatherStr(n, me, str, k))
  {
    hide Tracks, Allreduce, Allgather, DecodeInt, Pad;
    forall d
      ensures ExitsAtEof(AllgatherStrKont(n, me, str, k)(d))
    {
      var maxlen := DecodeInt(d);
      if maxlen < 0 { DoneExits(EXIT); } else { AllgatherExits(n, me, Pad(str, maxlen), maxlen, k); }
    }
    AllreduceExits(n, me, |str| + 1, AllgatherStrKont(n, me, str, k));
  }

  lemma DoneExits(p: Proc)
    requires p.Done?
    ensures ExitsAtEof(p)
  {
  }

  lemma IssueExits(n: nat, me: int, call: Call)
    requires 0 <= me < n
    ensures ExitsAtEof(Issue(n, me, call, Finish()))
  {
    hide Tracks, Reduce, Bcast, Gather, Scatter, Allgather, AllgatherStr, ExitsAtEof, Kids;
    var k := Finish();
    forall d
      ensures ExitsAtEof(k(d))
    {
      DoneExits(k(d));
    }
    DoneExits(EXIT);
    match call {
      case BarrierCall => BarrierExits(n, me, k);
      case AllreduceCall(values) => if me < |values| { AllreduceExits(n, me, values[me], k); }
      case BcastCall(bufs, size) => if me < |bufs| { BcastExits(n, me, bufs[me], size, k); }
      case GatherCall(parts, count) => if me < |parts| { GatherExits(n, me, parts[me], count, k); }
      case ScatterCall(bufs, count) => if me < |bufs| { ScatterExits(n, me, bufs[me], count, k); }
      case AllgatherCall(parts, count) => if me < |parts| { AllgatherExits(n, me, parts[me], count, k); }
      case AllgatherStrCall(strs) => if me < |strs| { AllgatherStrExits(n, me, strs[me], k); }
    }
  }

  lemma BarrierExits(n: nat, me: int, k: Kont)
    requires 0 <= me < n && forall d :: ExitsAtEof(k(d))
    ensures ExitsAtEof(Barrier(n, me, k))
  {
    hide Tracks, Barrier;
    BarrierTracks(ExitTerms(), n, me, k, k);
  }

  lemma ScatterExits(n: nat, me: int, buf: Bytes, count: nat, k: Kont)
    requires 0 <= me < n && forall d :: ExitsAtEof(k(d))
    ensures ExitsAtEof(Scatter(n, me, buf, count, k))
  {
    hide Tracks, Scatter;
    ScatterTracks(ExitTerms(), n, me, buf, count, k, k);
  }

  lemma {:induction false} DoneStays(s: State, sched: seq<int>, t: State, p: int)
    requires Run(s, sched) == Some(t) && 0 <= p < |s.procs| == |t.procs| && s.procs[p].Done?
    ensures t.procs[p] == s.procs[p]
    decreases |sched|
  {
    if sched != [] { DoneStays(Step(s, sched[0]), sched[1..], t, p); }
  }

  lemma ExitsOn(s: State, p: int)
    requires Served(s, p) && ExitsAtEof(s.procs[p])
    ensures ExitsAtEof(Step(s, p).procs[p])
  {
    hide Payload, Chan;
    assert Step(s, p).procs[p] == Next(s.procs[p], Reading(s, p));
  }

  lemma {:induction false} CompletesWithoutEof(s: State, sched: seq<int>, t: State, p: int)
    requires Run(s, sched) == Some(t) && 0 <= p < |s.procs| == |t.procs|
    requires ExitsAtEof(s.procs[p]) && t.procs[p].Done? && t.procs[p] != EXIT
    ensures MeetsNoEof(s, sched, p)
    decreases |sched|
  {
    hide Step, ExitsAtEof;
    if sched != [] {
      RunSplits(s, sched, t);
      var u, rest := Step(s, sched[0]), sched[1..];
      if sched[0] != p {
        StepMovesOne(s, sched[0], p);
        CompletesWithoutEof(u, rest, t, p);
      } else if Served(s, p) {
        ExitsOn(s, p);
        CompletesWithoutEof(u, rest, t, p);
      } else {
        EofExits(s, p);
        DoneStays(u, rest, t, p);
      }
    }
  }

  lemma EofExits(s: State, p: int)
    requires Ready(s, p) && !Served(s, p) && ExitsAtEof(s.procs[p])
    ensures Step(s, p).procs[p] == EXIT
  {
    Unserved(s, p);
  }

  // ----- what a task finds and writes in a job that completes

  ghost predicate Completed(t: State, n: nat, call: Call) {
    Consistent(n, call) && |t.procs| == n && (forall e :: Chan(t, e) == []) &&
    forall q :: 0 <= q < n ==> t.procs[q] == Done(Value([Meaning(n, call, q)]))
  }

  lemma JobStarts(n: nat, call: Call)
    ensures Truthful(Job(n, call)) && UpQuiet(Job(n, call), n) && DownQuiet(Job(n, call), n)
  {
    hide Parent;
  }

  // Every run of the job that has come to its end has completed the call.
  lemma JobCompletes(n: nat, call: Call, sched: seq<int>, t: State)
    requires n >= 1 && Consistent(n, call) && Run(Job(n, call), sched) == Some(t) && Stuck(t)
    ensures Completed(t, n, call)
  {
    hide Issue, Consistent, Meaning, Truthful, UpQuiet, DownQuiet, Finish;
    var s := Job(n, call);
    JobStarts(n, call);
    var f := CallRuns(s, n, call, seq(n, _ => Finish()));
    forall q | 0 <= q < n
      ensures f.procs[q] == Done(Value([Meaning(n, call, q)]))
    {
      assert f.procs[q] == Finish()(Meaning(n, call, q));
      Finishes(Meaning(n, call, q));
    }
    QuietChannels(s, f, n);
    assert Stuck(f);
    var good :| Run(s, good) == Some(f);
    var rest := EveryRun(s, good, f, sched, t);
  }

  lemma Finishes(d: Bytes)
    ensures Finish()(d) == Done(Value([d]))
  {
  }

  lemma QuietChannels(s: State, f: State, n: nat)
    requires Quiet(s, f, n, 0, n - 1) && s.chans == map[]
    ensures forall e :: Chan(f, e) == []
  {
    hide Reaches, Grows;
    forall e
      ensures Chan(f, e) == []
    {
      assert Chan(s, e) == [];
    }
  }

  // A completed run of a job, and the streams of task `me` in it.
  ghost predicate Serves(n: nat, call: Call, sched: seq<int>, t: State, me: int, ins: map<int, Bytes>) {
    n >= 1 && Consistent(n, call) && 0 <= me < n && Run(Job(n, call), sched) == Some(t) && Stuck(t) &&
    Supplied(Job(n, call), sched, me, ins)
  }

  // The task has read all it was sent, and written what the run has carried away from it.
  ghost predicate Accounts(n: nat, call: Call, sched: seq<int>, t: State, me: int, w: World, v: World)
    requires Run(Job(n, call), sched) == Some(t)
  {
    (forall q :: Stream(v.ins, q) == []) &&
    forall q :: Stream(v.outs, q) == Stream(w.outs, q) + Traffic(Job(n, call), sched, Edge(me, q))
  }

  // The task's way through a completed run.
  lemma TaskPlays(n: nat, call: Call, sched: seq<int>, t: State, me: int, w: World) returns (v: World)
    requires Serves(n, call, sched, t, me, w.ins)
    ensures Plays(Issue(n, me, call, Finish()), w, Done(Value([Meaning(n, call, me)])), v)
    ensures Accounts(n, call, sched, t, me, w, v)
  {
    hide Issue, Consistent, Meaning, Stuck, Supplied, Finish, Traffic, Starves, Plays, ExitsAtEof, Stream;
    var s, p := Job(n, call), Issue(n, me, call, Finish());
    JobCompletes(n, call, sched, t);
    IssueExits(n, me, call);
    CompletesWithoutEof(s, sched, t, me);
    v := RunIsLocal(s, sched, t, me, w);
    NothingLeft(t, me, v);
  }

  lemma TaskEnds(n: nat, call: Call, sched: seq<int>, t: State, me: int, w: World, d: Bytes, u: World)
    requires Serves(n, call, sched, t, me, w.ins) && Plays(Issue(n, me, call, Finish()), w, Finish()(d), u)
    ensures d == Meaning(n, call, me) && Accounts(n, call, sched, t, me, w, u)
  {
    hide Issue, Consistent, Meaning, Stuck, Supplied, Finish, Traffic, Starves, Plays, Accounts;
    var v := TaskPlays(n, call, sched, t, me, w);
    Finishes(d);
    SameEnd(Issue(n, me, call, Finish()), w, Done(Value([Meaning(n, call, me)])), v, Done(Value([d])), u);
    assert [d][0] == [Meaning(n, call, me)][0];
  }

  // On its own, fed with the bytes any completed run of the job has sent it, a task's program does not starve, ends
  // with the meaning of the call and nothing else, has read all those bytes, and has written those the run has carried
  // away from it.
  lemma TaskInJob(n: nat, call: Call, sched: seq<int>, t: State, me: int, w: World)
    requires Serves(n, call, sched, t, me, w.ins)
    ensures !Starves(Issue(n, me, call, Finish()), w)
    ensures forall r, v :: Plays(Issue(n, me, call, Finish()), w, r, v) && r.Done? ==>
      r == Finish()(Meaning(n, call, me)) && Accounts(n, call, sched, t, me, w, v)
  {
    hide Issue, Consistent, Meaning, Stuck, Supplied, Finish, Traffic, Starves, Plays, Accounts;
    var v := TaskPlays(n, call, sched, t, me, w);
    Finishes(Meaning(n, call, me));
    OneEnd(Issue(n, me, call, Finish()), w, Done(Value([Meaning(n, call, me)])), v);
  }

  // And every task is served: there are such streams for every completed run and every rank, and on them the task's
  // program ends.
  lemma EveryTaskEnds(n: nat, call: Call, sched: seq<int>, t: State, me: int) returns (w: World, v: World)
    requires n >= 1 && Consistent(n, call) && 0 <= me < n && Run(Job(n, call), sched) == Some(t) && Stuck(t)
    ensures Serves(n, call, sched, t, me, w.ins) && w.outs == map[]
    ensures Plays(Issue(n, me, call, Finish()), w, Finish()(Meaning(n, call, me)), v)
    ensures Accounts(n, call, sched, t, me, w, v)
  {
    hide Issue, Consistent, Meaning, Stuck, Finish, Traffic, Plays, Stream, Accounts;
    NothingUnderway(n, call);
    var ins := SupplyExists(Job(n, call), sched, me);
    w := World(ins, map[]);
    v := TaskPlays(n, call, sched, t, me, w);
    Finishes(Meaning(n, call, me));
  }

  lemma NothingUnderway(n: nat, call: Call)
    ensures forall e :: Chan(Job(n, call), e) == []
  {
  }

  lemma NothingLeft(t: State, me: int, v: World)
    requires (forall e :: Chan(t, e) == []) && forall q :: Stream(v.ins, q) == Payload(Chan(t, Edge(q, me)))
    ensures forall q :: Stream(v.ins, q) == []
  {
  }

  // ----- the imperative collectives in a job: they succeed, and leave the meaning of the call in the buffer

  // The task of a job of n tasks, with the streams of its rank in a completed run.
  ghost predicate InJob(task: Task, call: Call, sched: seq<int>, t: State)
    reads task, task.child, task.childIncl
  {
    task.Placed() && Serves(task.nprocs as nat, call, sched, t, task.me as int, task.ins)
  }

  method BcastInJob(task: Task, buf: array<Byte>, size: nat, ghost bufs: seq<Bytes>, ghost sched: seq<int>,
                    ghost t: State)
    returns (ok: bool)
    requires size <= buf.Length && InJob(task, BcastCall(bufs, size), sched, t) && bufs[task.me] == buf[..size]
    modifies task`ins, task`outs, buf
    ensures ok && buf[..size] == bufs[0]
    ensures Accounts(task.nprocs as nat, BcastCall(bufs, size), sched, t, task.me as int, old(task.Here()), task.Here())
  {
    hide Supplied, Stuck, Bcast, Plays, Starves, Accounts, Stream, Traffic;
    TaskInJob(task.nprocs as nat, BcastCall(bufs, size), sched, t, task.me as int, task.Here());
    ok := task.BcastTree(buf, size, Finish());
    TaskEnds(task.nprocs as nat, BcastCall(bufs, size), sched, t, task.me as int, old(task.Here()), buf[..size],
      task.Here());
  }

  method AllreduceInJob(task: Task, value: Int32, recvbuf: array<Byte>, ghost values: seq<int>, ghost sched: seq<int>,
                        ghost t: State)
    returns (ok: bool)
    requires recvbuf.Length == INT_SIZE && InJob(task, AllreduceCall(values), sched, t) &&
      values[task.me] == value as int
    modifies task`ins, task`outs, recvbuf
    ensures ok && recvbuf[..] == EncodeInt(CollectiveRuns.MaxOf(values))
    ensures Accounts(task.nprocs as nat, AllreduceCall(values), sched, t, task.me as int, old(task.Here()), task.Here())
  {
    hide Supplied, Stuck, Allreduce, Plays, Starves, Accounts, Stream, Traffic, EncodeInt;
    TaskInJob(task.nprocs as nat, AllreduceCall(values), sched, t, task.me as int, task.Here());
    ok := task.AllreduceMaxIntTree(value, recvbuf, Finish());
    TaskEnds(task.nprocs as nat, AllreduceCall(values), sched, t, task.me as int, old(task.Here()), recvbuf[..],
      task.Here());
  }

  method GatherInJob(task: Task, sendbuf: array<Byte>, count: nat, recvbuf: array<Byte>,
                     ghost parts: seq<Bytes>, ghost sched: seq<int>, ghost t: State)
    returns (ok: bool)
    requires InJob(task, GatherCall(parts, count), sched, t) && parts[task.me] == sendbuf[..]
    requires sendbuf != recvbuf && (task.me == 0 ==> recvbuf.Length >= task.BigCount(count))
    modifies task`ins, task`outs, recvbuf
    ensures ok && (task.me == 0 ==> recvbuf[..task.BigCount(count)] == Concat(parts))
    ensures task.me != 0 ==> recvbuf[..] == old(recvbuf[..])
    ensures Accounts(task.nprocs as nat, GatherCall(parts, count), sched, t, task.me as int, old(task.Here()),
      task.Here())
  {
    hide Supplied, Stuck, Gather, Plays, Starves, Accounts, Stream, Traffic, Concat;
    TaskInJob(task.nprocs as nat, GatherCall(parts, count), sched, t, task.me as int, task.Here());
    ok := task.GatherTree(sendbuf, count, recvbuf, Finish());
    ghost var got := if task.me == 0 then recvbuf[..task.BigCount(count)] else [];
    TaskEnds(task.nprocs as nat, GatherCall(parts, count), sched, t, task.me as int, old(task.Here()), got,
      task.Here());
  }

  method ScatterInJob(task: Task, sendbuf: array<Byte>, count: nat, recvbuf: array<Byte>,
                      ghost bufs: seq<Bytes>, ghost sched: seq<int>, ghost t: State)
    returns (ok: bool)
    requires InJob(task, ScatterCall(bufs, count), sched, t) && bufs[task.me] == sendbuf[..]
    requires count <= recvbuf.Length && sendbuf != recvbuf && (task.me == 0 ==> sendbuf.Length >= task.BigCount(count))
    modifies task`ins, task`outs, recvbuf
    ensures ok && recvbuf[..count] == Slice(bufs[0], Size(count, task.me as int), count)
    ensures Accounts(task.nprocs as nat, ScatterCall(bufs, count), sched, t, task.me as int, old(task.Here()),
      task.Here())
  {
    hide Supplied, Stuck, Scatter, Plays, Starves, Accounts, Stream, Traffic;
    TaskInJob(task.nprocs as nat, ScatterCall(bufs, count), sched, t, task.me as int, task.Here());
    ok := task.ScatterTree(sendbuf, count, recvbuf, Finish());
    TaskEnds(task.nprocs as nat, ScatterCall(bufs, count), sched, t, task.me as int, old(task.Here()), recvbuf[..count],
      task.Here());
  }
}
