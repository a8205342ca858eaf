// Concurrent processes joined by sockets. A process is a deterministic program that computes,
// writes, blocks until it has read an exact number of bytes, and finally returns. Every ordered pair
// of processes has one FIFO byte channel. Any process that can move may move next.
//
// Beside the bytes a state carries bookkeeping no program can look at: what each process knows to
// have happened, which collective call each byte was written in, and a log of the announced events.
module Network {
  import opened Bytestream

  datatype Option<T> = None | Some(value: T)

  datatype Event =
    | Entered(call: nat)    // the task starts its call number `call`
    | Returned(call: nat)   // that call has returned
    | ControlReady          // the daemon's process-control initialization has returned
    | LauncherReleased      // the front end tells the engine to continue the job launcher

  datatype Outcome = Value(results: seq<Bytes>) | Code(code: int)

  datatype Proc =
    | Done(outcome: Outcome)
    | Send(to: int, data: Bytes, next: Proc)
    | Recv(from: int, size: nat, onData: Bytes -> Proc, onEof: Proc)
    | Mark(event: Event, after: Proc)

  datatype Edge = Edge(src: int, dst: int)
  datatype Stamp = Stamp(task: int, event: Event)
  // A byte in flight, the call its writer was in, and all the writer knew when writing it.
  datatype Cell = Cell(byte: Byte, epoch: nat, past: set<Stamp>)
  // A logged event with everything its task knew to have happened before.
  datatype Entry = Entry(stamp: Stamp, past: set<Stamp>)

  datatype State = State(
    procs: seq<Proc>,
    know: seq<set<Stamp>>,
    epochs: seq<nat>,
    chans: map<Edge, seq<Cell>>,
    log: set<Entry>,
    crossed: bool)  // some byte was read in another call than the one it was written in

  ghost predicate Shape(s: State) { |s.know| == |s.procs| && |s.epochs| == |s.procs| }

  function Chan(s: State, e: Edge): (list: seq<Cell>) { if e in s.chans then s.chans[e] else [] }

  function Payload(c: seq<Cell>): (b: Bytes) { seq(|c|, i requires 0 <= i < |c| => c[i].byte) }
  function Pasts(c: seq<Cell>): (all: set<Stamp>) { set i, x | 0 <= i < |c| && x in c[i].past :: x }
  function Stamped(data: Bytes, epoch: nat, past: set<Stamp>): (list: seq<Cell>) {
    seq(|data|, i requires 0 <= i < |data| => Cell(data[i], epoch, past))
  }
  ghost predicate FromCall(c: seq<Cell>, epoch: nat) { forall i :: 0 <= i < |c| ==> c[i].epoch == epoch }

  ghost predicate Ready(s: State, p: int) {
    Shape(s) && 0 <= p < |s.procs| &&
    match s.procs[p]
    case Done(_) => false
    case Send(_, _, _) => true
    case Recv(q, size, _, _) => size <= |Chan(s, Edge(q, p))| || Departed(s, q)
    case Mark(_, _) => true
  }

  // A process that has returned writes nothing more: its peers read end of file.
  ghost predicate Departed(s: State, p: int) { 0 <= p < |s.procs| && s.procs[p].Done? }

  ghost function Step(s: State, p: int): (t: State)
    requires Ready(s, p)
    ensures Shape(t) && |t.procs| == |s.procs|
  {
    match s.procs[p]
    case Send(q, data, next) =>
      var e := Edge(p, q);
      s.(procs := s.procs[p := next],
         chans := s.chans[e := Chan(s, e) + Stamped(data, s.epochs[p], s.know[p])])
    case Recv(q, size, onData, onEof) =>
      var e := Edge(q, p);
      var c := Chan(s, e);
      if size <= |c| then
        s.(procs := s.procs[p := onData(Payload(c[..size]))],
           know := s.know[p := s.know[p] + Pasts(c[..size])],
           chans := s.chans[e := c[size..]],
           crossed := s.crossed || !FromCall(c[..size], s.epochs[p]))
      else s.(procs := s.procs[p := onEof])
    case Mark(event, after) =>
      var stamp := Stamp(p, event);
      s.(procs := s.procs[p := after],
         know := s.know[p := s.know[p] + {stamp}],
         epochs := if event.Entered? then s.epochs[p := event.call] else s.epochs,
         log := s.log + {Entry(stamp, s.know[p])})
  }

  ghost predicate Stuck(s: State) { forall p :: !Ready(s, p) }

  ghost function Run(s: State, sched: seq<int>): (r: Option<State>)
    decreases |sched|
  {
    if sched == [] then Some(s)
    else if Ready(s, sched[0]) then Run(Step(s, sched[0]), sched[1..])
    else None
  }

  ghost predicate Reaches(s: State, t: State) { exists sched :: Run(s, sched) == Some(t) }

  lemma ReachesSelf(s: State)
    ensures Reaches(s, s)
  {
    assert Run(s, []) == Some(s);
  }

  lemma {:induction false} RunConcat(s: State, a: seq<int>, t: State, b: seq<int>)
    requires Run(s, a) == Some(t)
    ensures Run(s, a + b) == Run(t, b)
    decreases |a|
  {
    if a == [] {
      assert a + b == b;
    } else {
      assert (a + b)[1..] == a[1..] + b;
      RunConcat(Step(s, a[0]), a[1..], t, b);
    }
  }

  lemma ReachesTransitive(s: State, t: State, u: State)
    requires Reaches(s, t) && Reaches(t, u)
    ensures Reaches(s, u)
  {
    var a :| Run(s, a) == Some(t);
    var b :| Run(t, b) == Some(u);
    RunConcat(s, a, t, b);
  }

  lemma ReachesStep(s: State, p: int)
    requires Ready(s, p)
    ensures Reaches(s, Step(s, p))
  {
    assert Run(Step(s, p), []) == Some(Step(s, p));
    assert Run(s, [p]) == Some(Step(s, p));
  }

  // ----- what a step does to a channel and to the log

  // p can move, and does not meet end of file.
  ghost predicate Served(s: State, p: int) {
    Ready(s, p) && (s.procs[p].Recv? ==> s.procs[p].size <= |Chan(s, Edge(s.procs[p].from, p))|)
  }

  ghost function Reading(s: State, p: int): (d: Bytes)
    requires Served(s, p)
  {
    if s.procs[p].Recv? then Payload(Chan(s, Edge(s.procs[p].from, p))[..s.procs[p].size]) else []
  }

  lemma OtherChannel(s: State, p: int, e: Edge)
    requires Ready(s, p) && (s.procs[p].Send? ==> e != Edge(p, s.procs[p].to))
    requires s.procs[p].Recv? ==> e != Edge(s.procs[p].from, p)
    ensures Chan(Step(s, p), e) == Chan(s, e)
  {
  }

  lemma WroteChannel(s: State, p: int)
    requires Ready(s, p) && s.procs[p].Send?
    ensures var e := Edge(p, s.procs[p].to); Payload(Chan(Step(s, p), e)) == Payload(Chan(s, e)) + s.procs[p].data
  {
  }

  lemma ReadChannel(s: State, p: int)
    requires Served(s, p) && s.procs[p].Recv?
    ensures |Reading(s, p)| == s.procs[p].size
    ensures var e := Edge(s.procs[p].from, p); Payload(Chan(s, e)) == Reading(s, p) + Payload(Chan(Step(s, p), e))
  {
  }

  // At end of file a process moves alone.
  lemma Unserved(s: State, p: int)
    requires Ready(s, p) && !Served(s, p)
    ensures s.procs[p].Recv? && Departed(s, s.procs[p].from) && |Chan(s, Edge(s.procs[p].from, p))| < s.procs[p].size
    ensures Step(s, p) == s.(procs := s.procs[p := s.procs[p].onEof])
  {
  }

  lemma LogAfter(s: State, p: int)
    requires Ready(s, p)
    ensures forall x :: x in Step(s, p).log && x !in s.log ==> s.procs[p].Mark? && x.stamp == Stamp(p, s.procs[p].event)
  {
  }

  // ----- the order of independent steps does not matter

  lemma StaysReady(s: State, p: int, q: int)
    requires p != q && Ready(s, p) && Ready(s, q)
    ensures Ready(Step(s, q), p)
  {
  }

  lemma SendsTo(s: State, p: int)
    requires Ready(s, p) && s.procs[p].Send?
    ensures var e := Edge(p, s.procs[p].to);
      Step(s, p).chans == s.chans[e := Chan(s, e) + Stamped(s.procs[p].data, s.epochs[p], s.know[p])]
  {
  }

  lemma RecvsFrom(s: State, p: int)
    requires Ready(s, p) && s.procs[p].Recv?
    ensures var e := Edge(s.procs[p].from, p);
      Step(s, p).chans ==
      if s.procs[p].size <= |Chan(s, e)| then s.chans[e := Chan(s, e)[s.procs[p].size..]] else s.chans
  {
  }

  lemma SameSender(s: State, p: int, q: int)
    requires p != q && Ready(s, p) && Ready(s, q)
    ensures var t := Step(s, q); t.procs[p] == s.procs[p] && t.know[p] == s.know[p] && t.epochs[p] == s.epochs[p]
  {
  }

  lemma TailBehind<T>(c: seq<T>, d: seq<T>, size: nat)
    requires size <= |c|
    ensures (c + d)[..size] == c[..size] && (c + d)[size..] == c[size..] + d
  {
  }

  lemma ReadFirst(s: State, p: int, q: int)
    requires p != q && Ready(s, p) && Ready(s, q) && s.procs[p].Send? && s.procs[q].Recv?
    requires Ready(Step(s, q), p) && Ready(Step(s, p), q)
    requires Edge(p, s.procs[p].to) == Edge(s.procs[q].from, q)
    ensures s.procs[q].size <= |Chan(s, Edge(p, q))|
  {
    hide Stamped, Pasts, Payload, FromCall;
  }

  // A write behind what is read, or on another channel, does not disturb the reading, nor the reading the write.
  lemma SendAndRecvChannels(s: State, p: int, q: int)
    requires p != q && Ready(s, p) && Ready(s, q) && s.procs[p].Send? && s.procs[q].Recv?
    requires Ready(Step(s, q), p) && Ready(Step(s, p), q)
    ensures Step(Step(s, q), p).chans == Step(Step(s, p), q).chans
  {
    hide Step, Stamped, Departed;
    SameSender(s, p, q);
    SameSender(s, q, p);
    SendsTo(s, p);
    SendsTo(Step(s, q), p);
    RecvsFrom(s, q);
    RecvsFrom(Step(s, p), q);
    if Edge(p, s.procs[p].to) == Edge(s.procs[q].from, q) {
      ReadFirst(s, p, q);
      TailBehind(Chan(s, Edge(p, q)), Stamped(s.procs[p].data, s.epochs[p], s.know[p]), s.procs[q].size);
    }
  }

  lemma SendAndRecvCommute(s: State, p: int, q: int)
    requires p != q && Ready(s, p) && Ready(s, q) && s.procs[p].Send? && s.procs[q].Recv?
    ensures Ready(Step(s, q), p) && Ready(Step(s, p), q)
    ensures Step(Step(s, q), p) == Step(Step(s, p), q)
  {
    hide Pasts, Payload, FromCall, Stamped;
    StaysReady(s, p, q);
    StaysReady(s, q, p);
    SendAndRecvChannels(s, p, q);
    var c := Chan(s, Edge(s.procs[q].from, q));
    if s.procs[q].size <= |c| {
      TailBehind(c, Stamped(s.procs[p].data, s.epochs[p], s.know[p]), s.procs[q].size);
    }
    var pq, qp := Step(Step(s, p), q), Step(Step(s, q), p);
    assert pq.procs == qp.procs && pq.know == qp.know;
  }

  lemma RecvsChannels(s: State, p: int, q: int)
    requires p != q && Ready(s, p) && Ready(s, q) && s.procs[p].Recv? && s.procs[q].Recv?
    requires Ready(Step(s, q), p) && Ready(Step(s, p), q)
    ensures Chan(Step(s, p), Edge(s.procs[q].from, q)) == Chan(s, Edge(s.procs[q].from, q))
    ensures Chan(Step(s, q), Edge(s.procs[p].from, p)) == Chan(s, Edge(s.procs[p].from, p))
    ensures Step(Step(s, q), p).chans == Step(Step(s, p), q).chans
  {
    hide Step, Ready;
    SameSender(s, p, q);
    SameSender(s, q, p);
    RecvsFrom(s, p);
    RecvsFrom(Step(s, q), p);
    RecvsFrom(s, q);
    RecvsFrom(Step(s, p), q);
  }

  lemma RecvsCommute(s: State, p: int, q: int)
    requires p != q && Ready(s, p) && Ready(s, q) && s.procs[p].Recv? && s.procs[q].Recv?
    ensures Ready(Step(s, q), p) && Ready(Step(s, p), q)
    ensures Step(Step(s, q), p) == Step(Step(s, p), q)
  {
    hide Pasts, FromCall, Payload, Chan;
    StaysReady(s, p, q);
    StaysReady(s, q, p);
    RecvsChannels(s, p, q);
    var pq, qp := Step(Step(s, p), q), Step(Step(s, q), p);
    assert pq.procs == qp.procs;
    assert pq.know == qp.know;
  }

  lemma SendsChannels(s: State, p: int, q: int)
    requires p != q && Ready(s, p) && Ready(s, q) && s.procs[p].Send? && s.procs[q].Send?
    requires Ready(Step(s, q), p) && Ready(Step(s, p), q)
    ensures Step(Step(s, q), p).chans == Step(Step(s, p), q).chans
  {
    hide Step, Ready, Stamped;
    SameSender(s, p, q);
    SameSender(s, q, p);
    SendsTo(s, p);
    SendsTo(Step(s, q), p);
    SendsTo(s, q);
    SendsTo(Step(s, p), q);
  }

  lemma SendsCommute(s: State, p: int, q: int)
    requires p != q && Ready(s, p) && Ready(s, q) && s.procs[p].Send? && s.procs[q].Send?
    ensures Ready(Step(s, q), p) && Ready(Step(s, p), q)
    ensures Step(Step(s, q), p) == Step(Step(s, p), q)
  {
    hide Stamped, Chan;
    SendsReady(s, p, q);
    SendsChannels(s, p, q);
    var pq, qp := Step(Step(s, p), q), Step(Step(s, q), p);
    assert pq.procs == qp.procs;
  }

  lemma SendsReady(s: State, p: int, q: int)
    requires p != q && Ready(s, p) && Ready(s, q)
    ensures Ready(Step(s, q), p) && Ready(Step(s, p), q)
  {
    hide Step, Ready;
    StaysReady(s, p, q);
    StaysReady(s, q, p);
  }

  lemma MarkWritesNothing(s: State, p: int)
    requires Ready(s, p) && s.procs[p].Mark?
    ensures forall e :: Chan(Step(s, p), e) == Chan(s, e)
  {
  }

  lemma MarkCommutes(s: State, p: int, q: int)
    requires p != q && Ready(s, p) && Ready(s, q) && s.procs[p].Mark?
    ensures Ready(Step(s, q), p) && Ready(Step(s, p), q)
    ensures Step(Step(s, q), p) == Step(Step(s, p), q)
  {
    hide Pasts, FromCall, Payload, Stamped, Chan;
    StaysReady(s, p, q);
    StaysReady(s, q, p);
    MarkWritesNothing(s, p);
    var pq, qp := Step(Step(s, p), q), Step(Step(s, q), p);
    assert pq.procs == qp.procs;
    assert pq.know == qp.know;
    assert pq.epochs == qp.epochs;
    assert pq.log == qp.log;
  }

  lemma StepsCommute(s: State, p: int, q: int)
    requires p != q && Ready(s, p) && Ready(s, q)
    ensures Ready(Step(s, q), p) && Ready(Step(s, p), q)
    ensures Step(Step(s, q), p) == Step(Step(s, p), q)
  {
    if s.procs[p].Mark? {
      MarkCommutes(s, p, q);
    } else if s.procs[q].Mark? {
      MarkCommutes(s, q, p);
    } else if s.procs[p].Send? && s.procs[q].Recv? {
      SendAndRecvCommute(s, p, q);
    } else if s.procs[p].Recv? && s.procs[q].Send? {
      SendAndRecvCommute(s, q, p);
    } else if s.procs[p].Send? {
      SendsCommute(s, p, q);
    } else {
      RecvsCommute(s, p, q);
    }
  }

  function Without(sched: seq<int>, p: int): (r: seq<int>)
    requires p in sched
    ensures |r| == |sched| - 1
  {
    if sched[0] == p then sched[1..] else [sched[0]] + Without(sched[1..], p)
  }

  // A process that can move now has to move before the system is stuck, and moving first is harmless.
  lemma {:induction false} MoveToFront(s: State, sched: seq<int>, f: State, p: int)
    requires Run(s, sched) == Some(f) && Stuck(f) && Ready(s, p)
    ensures p in sched && Run(Step(s, p), Without(sched, p)) == Some(f)
    decreases |sched|
  {
    if sched != [] && sched[0] != p {
      var q, rest := sched[0], sched[1..];
      StepsCommute(s, p, q);
      MoveToFront(Step(s, q), rest, f, p);
      assert Without(sched, p) == [q] + Without(rest, p);
    }
  }

  // If one schedule gets stuck in f, then every schedule is on its way to f, and the two take the same
  // number of steps in all.
  lemma {:induction false} RunsConverge(s: State, good: seq<int>, f: State, sched: seq<int>, t: State)
    returns (rest: seq<int>)
    requires Run(s, good) == Some(f) && Stuck(f) && Run(s, sched) == Some(t)
    ensures Run(t, rest) == Some(f) && |sched| + |rest| == |good|
    decreases |sched|
  {
    if sched == [] {
      rest := good;
    } else {
      MoveToFront(s, good, f, sched[0]);
      rest := RunsConverge(Step(s, sched[0]), Without(good, sched[0]), f, sched[1..], t);
    }
  }

  // ----- what a run only adds to, and what the bookkeeping says is true

  function Stamps(log: set<Entry>): (all: set<Stamp>) { set e | e in log :: e.stamp }

  // Nobody knows, and no byte in flight carries, an event that has not been logged.
  ghost predicate Truthful(s: State) {
    Shape(s) &&
    (forall p :: 0 <= p < |s.procs| ==> s.know[p] <= Stamps(s.log)) &&
    (forall e, i :: e in s.chans && 0 <= i < |s.chans[e]| ==> s.chans[e][i].past <= Stamps(s.log)) &&
    (forall x :: x in s.log ==> x.past <= Stamps(s.log))
  }

  ghost predicate Grows(s: State, t: State) {
    |t.procs| == |s.procs| && Shape(s) && Shape(t) && s.log <= t.log && (s.crossed ==> t.crossed) &&
    forall p :: 0 <= p < |s.procs| ==> s.know[p] <= t.know[p]
  }

  lemma StepKeepsTruth(s: State, p: int)
    requires Ready(s, p) && Truthful(s)
    ensures Truthful(Step(s, p))
  {
    var t := Step(s, p);
    assert Stamps(s.log) <= Stamps(t.log);
    if s.procs[p].Mark? {
      assert Entry(Stamp(p, s.procs[p].event), s.know[p]) in t.log;
      assert Stamp(p, s.procs[p].event) in Stamps(t.log);
    }
  }

  lemma {:induction false} RunGrows(s: State, sched: seq<int>, t: State)
    requires Shape(s) && Run(s, sched) == Some(t)
    ensures Grows(s, t)
    decreases |sched|
  {
    if sched != [] { RunGrows(Step(s, sched[0]), sched[1..], t); }
  }

  lemma {:induction false} RunKeepsTruth(s: State, sched: seq<int>, t: State)
    requires Truthful(s) && Run(s, sched) == Some(t)
    ensures Truthful(t)
    decreases |sched|
  {
    if sched != [] {
      StepKeepsTruth(s, sched[0]);
      RunKeepsTruth(Step(s, sched[0]), sched[1..], t);
    }
  }

  lemma ReachesGrows(s: State, t: State)
    requires Shape(s) && Reaches(s, t)
    ensures Grows(s, t)
  {
    var sched :| Run(s, sched) == Some(t);
    RunGrows(s, sched, t);
  }

  // All that a stuck state reached by one schedule says about every other schedule: it is bounded, it can
  // be completed to the same state, its log and its flag agree with that state's, and the past recorded
  // with each of its log entries has already been logged.
  lemma EveryRun(s: State, good: seq<int>, f: State, sched: seq<int>, t: State) returns (rest: seq<int>)
    requires Truthful(s) && Run(s, good) == Some(f) && Stuck(f) && Run(s, sched) == Some(t)
    ensures Run(t, rest) == Some(f) && |sched| + |rest| == |good|
    ensures Stuck(t) ==> t == f && |sched| == |good|
    ensures t.log <= f.log && (t.crossed ==> f.crossed)
    ensures forall x :: x in t.log ==> x.past <= Stamps(t.log)
  {
    rest := RunsConverge(s, good, f, sched, t);
    RunKeepsTruth(s, sched, t);
    RunGrows(t, rest, f);
  }

  // ----- processes that wait for one another

  // Each of them waits for bytes of another one of them, or of nobody.
  ghost predicate Deadlocked(s: State, w: set<int>) {
    forall p :: p in w ==>
      0 <= p < |s.procs| && s.procs[p].Recv? && |Chan(s, Edge(s.procs[p].from, p))| < s.procs[p].size &&
      (s.procs[p].from in w || !(0 <= s.procs[p].from < |s.procs|))
  }

  lemma StepKeepsDeadlock(s: State, w: set<int>, q: int)
    requires Deadlocked(s, w) && Ready(s, q)
    ensures q !in w && Deadlocked(Step(s, q), w)
  {
    hide Step, Chan;
    var t := Step(s, q);
    forall p | p in w
      ensures p < |t.procs| == |s.procs| && t.procs[p] == s.procs[p]
      ensures Chan(t, Edge(s.procs[p].from, p)) == Chan(s, Edge(s.procs[p].from, p))
    {
      StepMovesOne(s, q, p);
      OtherChannel(s, q, Edge(s.procs[p].from, p));
    }
  }

  lemma StepMovesOne(s: State, q: int, p: int)
    requires Ready(s, q) && p != q && 0 <= p < |s.procs|
    ensures |Step(s, q).procs| == |s.procs| && Step(s, q).procs[p] == s.procs[p]
  {
  }

  // They wait for ever.
  lemma {:induction false} DeadlockStays(s: State, w: set<int>, sched: seq<int>, t: State)
    requires Deadlocked(s, w) && Run(s, sched) == Some(t)
    ensures Deadlocked(t, w)
    decreases |sched|
  {
    hide Deadlocked, Step;
    if sched != [] {
      StepKeepsDeadlock(s, w, sched[0]);
      DeadlockStays(Step(s, sched[0]), w, sched[1..], t);
    }
  }

  // If no run is longer than `bound`, any of them can be completed.
  lemma {:induction false} RunOut(s: State, sched: seq<int>, t: State, bound: nat) returns (good: seq<int>, f: State)
    requires Run(s, sched) == Some(t) && forall more, u :: Run(s, more) == Some(u) ==> |more| <= bound
    ensures Run(s, good) == Some(f) && Stuck(f)
    decreases bound - |sched|
  {
    hide Step, Ready;
    if Stuck(t) {
      good, f := sched, t;
    } else {
      var p :| Ready(t, p);
      OneMoreStep(s, sched, t, p);
      good, f := RunOut(s, sched + [p], Step(t, p), bound);
    }
  }

  lemma OneMoreStep(s: State, sched: seq<int>, t: State, p: int)
    requires Run(s, sched) == Some(t) && Ready(t, p)
    ensures Run(s, sched + [p]) == Some(Step(t, p))
  {
    RunConcat(s, sched, t, [p]);
    assert Run(Step(t, p), []) == Some(Step(t, p));
    assert [p][1..] == [];
  }

  // ----- the step pair all canonical schedules are made of

  ghost predicate SameChannels(s: State, t: State) { forall e :: Chan(t, e) == Chan(s, e) }

  lemma PayloadOfStamped(data: Bytes, epoch: nat, past: set<Stamp>)
    ensures Payload(Stamped(data, epoch, past)) == data
    ensures FromCall(Stamped(data, epoch, past), epoch)
    ensures Pasts(Stamped(data, epoch, past)) <= past
    ensures data != [] ==> Pasts(Stamped(data, epoch, past)) == past
  {
    var c := Stamped(data, epoch, past);
    if data != [] {
      assert c[0].past == past;
      assert past <= Pasts(c);
    }
  }

  // p writes a message to q on an empty channel, and q, waiting for just that size, reads it.
  lemma HandOver(s: State, p: int, q: int) returns (t: State)
    requires Shape(s) && 0 <= p < |s.procs| && 0 <= q < |s.procs| && p != q
    requires s.procs[p].Send? && s.procs[p].to == q
    requires s.procs[q].Recv? && s.procs[q].from == p && s.procs[q].size == |s.procs[p].data|
    requires Chan(s, Edge(p, q)) == []
    ensures Reaches(s, t) && Grows(s, t) && SameChannels(s, t)
    ensures t.procs == s.procs[p := s.procs[p].next][q := s.procs[q].onData(s.procs[p].data)]
    ensures s.procs[p].data != [] ==> s.know[p] <= t.know[q]
    ensures t.epochs == s.epochs && t.log == s.log
    ensures s.epochs[p] == s.epochs[q] ==> t.crossed == s.crossed
  {
    var data := s.procs[p].data;
    var c := Stamped(data, s.epochs[p], s.know[p]);
    var u := Step(s, p);
    var e := Edge(p, q);
    assert Chan(u, e) == c && c[..|data|] == c;
    PayloadOfStamped(data, s.epochs[p], s.know[p]);
    t := Step(u, q);
    ReachesStep(s, p);
    ReachesStep(u, q);
    ReachesTransitive(s, u, t);
    ReachesGrows(s, t);
    forall x
      ensures Chan(t, x) == Chan(s, x)
    {
      if x == e { assert Chan(t, x) == c[|data|..] == []; }
    }
  }

  // ----- everybody announces an event

  function EpochAfter(s: State, q: int, event: Event): (v: nat)
    requires 0 <= q < |s.epochs|
  {
    if event.Entered? then event.call else s.epochs[q]
  }

  // Tasks 0 .. m-1 have announced the event, the others have not moved.
  ghost predicate Announced(s: State, t: State, m: int, event: Event) {
    Reaches(s, t) && Grows(s, t) && SameChannels(s, t) && t.crossed == s.crossed && 0 <= m <= |s.procs| &&
    (forall q :: 0 <= q < m ==> s.procs[q].Mark? && t.procs[q] == s.procs[q].after) &&
    (forall q :: 0 <= q < m ==> Stamp(q, event) in t.know[q] && t.epochs[q] == EpochAfter(s, q, event)) &&
    (forall q :: m <= q < |s.procs| ==>
      t.procs[q] == s.procs[q] && t.know[q] == s.know[q] && t.epochs[q] == s.epochs[q]) &&
    forall x :: x in t.log && x !in s.log ==> exists q :: 0 <= q < m && x == Entry(Stamp(q, event), s.know[q])
  }

  lemma AnnounceOne(s: State, t: State, m: nat, event: Event) returns (u: State)
    requires Announced(s, t, m, event) && m < |s.procs| && s.procs[m].Mark? && s.procs[m].event == event
    ensures Announced(s, u, m + 1, event)
  {
    hide Stamped, Payload, Pasts, Reaches, FromCall;
    u := Step(t, m);
    ReachesStep(t, m);
    ReachesTransitive(s, t, u);
    ReachesGrows(s, u);
    forall e
      ensures Chan(u, e) == Chan(s, e)
    {
      assert Chan(u, e) == Chan(t, e);
    }
  }

  lemma {:induction false} Announce(s: State, m: nat, event: Event) returns (t: State)
    requires Shape(s) && m <= |s.procs|
    requires forall q :: 0 <= q < m ==> s.procs[q].Mark? && s.procs[q].event == event
    ensures Announced(s, t, m, event)
  {
    if m == 0 {
      ReachesSelf(s);
      t := s;
    } else {
      var u := Announce(s, m - 1, event);
      t := AnnounceOne(s, u, m - 1, event);
    }
  }
}
