// One process on its own: it consumes the byte streams that reach it and produces the byte streams that
// leave it. This is the view a single task has of a run of the network.
module LocalRun {
  import opened Bytestream
  import opened Network

  datatype World = World(ins: map<int, Bytes>, outs: map<int, Bytes>)

  function Stream(m: map<int, Bytes>, q: int): (b: Bytes) { if q in m then m[q] else [] }

  // The streams after size bytes have been read from q, and after data has been written to q.
  function Taken(ins: map<int, Bytes>, q: int, size: nat): (m: map<int, Bytes>)
    requires size <= |Stream(ins, q)|
  {
    if size == 0 then ins else ins[q := Stream(ins, q)[size..]]
  }

  function Written(outs: map<int, Bytes>, q: int, data: Bytes): (m: map<int, Bytes>) {
    if data == [] then outs else outs[q := Stream(outs, q) + data]
  }

  ghost function LocalStep(p: Proc, w: World): (o: Option<(Proc, World)>) {
    match p
    case Done(_) => None
    case Send(q, data, next) => Some((next, w.(outs := Written(w.outs, q, data))))
    case Recv(q, size, onData, _) =>
      var c := Stream(w.ins, q);
      if size <= |c| then Some((onData(c[..size]), w.(ins := Taken(w.ins, q, size)))) else None
    case Mark(_, after) => Some((after, w))
  }

  ghost function Local(p: Proc, w: World, steps: nat): (o: Option<(Proc, World)>) {
    if steps == 0 then Some((p, w))
    else
      match Local(p, w, steps - 1)
      case None => None
      case Some(v) => LocalStep(v.0, v.1)
  }

  ghost predicate Plays(p: Proc, w: World, q: Proc, v: World) {
    exists steps: nat :: Local(p, w, steps) == Some((q, v))
  }

  // p comes to a read its incoming stream cannot serve.
  ghost predicate Starves(p: Proc, w: World) {
    exists q, v :: Plays(p, w, q, v) && q.Recv? && |Stream(v.ins, q.from)| < q.size
  }

  lemma PlaysSelf(p: Proc, w: World)
    ensures Plays(p, w, p, w)
  {
    assert Local(p, w, 0) == Some((p, w));
  }

  lemma PlaysStep(p: Proc, w: World, q: Proc, v: World, r: Proc, u: World)
    requires Plays(p, w, q, v) && LocalStep(q, v) == Some((r, u))
    ensures Plays(p, w, r, u)
  {
    var steps: nat :| Local(p, w, steps) == Some((q, v));
    assert Local(p, w, steps + 1) == Some((r, u));
  }

  lemma {:induction false} LocalConcat(p: Proc, w: World, a: nat, q: Proc, v: World, b: nat)
    requires Local(p, w, a) == Some((q, v))
    ensures Local(p, w, a + b) == Local(q, v, b)
    decreases b
  {
    if b > 0 { LocalConcat(p, w, a, q, v, b - 1); }
  }

  lemma PlaysThen(p: Proc, w: World, q: Proc, v: World, r: Proc, u: World)
    requires Plays(p, w, q, v) && Plays(q, v, r, u)
    ensures Plays(p, w, r, u)
  {
    var a: nat :| Local(p, w, a) == Some((q, v));
    var b: nat :| Local(q, v, b) == Some((r, u));
    LocalConcat(p, w, a, q, v, b);
  }

  // p stands at such a read.
  lemma StarvesHere(p: Proc, w: World)
    requires p.Recv? && |Stream(w.ins, p.from)| < p.size
    ensures Starves(p, w)
  {
    PlaysSelf(p, w);
  }

  lemma PlaysToStarving(p: Proc, w: World, q: Proc, v: World)
    requires Plays(p, w, q, v) && Starves(q, v)
    ensures Starves(p, w)
  {
    var r, u :| Plays(q, v, r, u) && r.Recv? && |Stream(u.ins, r.from)| < r.size;
    PlaysThen(p, w, q, v, r, u);
  }

  // ----- a process on its own ends in one way

  ghost predicate Halted(p: Proc, w: World) { LocalStep(p, w) == None }

  lemma {:induction false} NothingAfterHalt(p: Proc, w: World, steps: nat)
    requires Halted(p, w) && steps > 0
    ensures Local(p, w, steps) == None
  {
    if steps > 1 {
      NothingAfterHalt(p, w, steps - 1);
    } else {
      assert Local(p, w, 0) == Some((p, w));
    }
  }

  lemma OneHalt(p: Proc, w: World, q: Proc, v: World, r: Proc, u: World)
    requires Plays(p, w, q, v) && Halted(q, v) && Plays(p, w, r, u) && Halted(r, u)
    ensures q == r && v == u
  {
    var a: nat :| Local(p, w, a) == Some((q, v));
    var b: nat :| Local(p, w, b) == Some((r, u));
    if a < b {
      LocalConcat(p, w, a, q, v, b - a);
      NothingAfterHalt(q, v, b - a);
    } else if b < a {
      LocalConcat(p, w, b, r, u, a - b);
      NothingAfterHalt(r, u, a - b);
    }
  }

  lemma SameEnd(p: Proc, w: World, end: Proc, v: World, r: Proc, u: World)
    requires Plays(p, w, end, v) && end.Done? && Plays(p, w, r, u) && r.Done?
    ensures r == end && u == v
  {
    OneHalt(p, w, end, v, r, u);
  }

  // A process that comes to its end does not starve on the way, and has no other end.
  lemma OneEnd(p: Proc, w: World, end: Proc, v: World)
    requires Plays(p, w, end, v) && end.Done?
    ensures !Starves(p, w)
    ensures forall r, u :: Plays(p, w, r, u) && r.Done? ==> r == end && u == v
  {
    forall r, u | Plays(p, w, r, u) && Halted(r, u)
      ensures r == end && u == v
    {
      OneHalt(p, w, end, v, r, u);
    }
  }

  // ----- a process in a run of the network

  // The bytes a run writes on an edge.
  ghost function Traffic(s: State, sched: seq<int>, e: Edge): (b: Bytes)
    requires Run(s, sched).Some?
    decreases |sched|
  {
    if sched == [] then []
    else
      var p := s.procs[sched[0]];
      (if p.Send? && e == Edge(sched[0], p.to) then p.data else []) + Traffic(Step(s, sched[0]), sched[1..], e)
  }

  // p meets no end of file in the run.
  ghost predicate MeetsNoEof(s: State, sched: seq<int>, p: int)
    requires Run(s, sched).Some?
    decreases |sched|
  {
    sched != [] ==> (sched[0] == p ==> Served(s, p)) && MeetsNoEof(Step(s, sched[0]), sched[1..], p)
  }

  // The streams hold, for p, what is under way to it and all that the run will send it.
  ghost predicate Supplied(s: State, sched: seq<int>, p: int, ins: map<int, Bytes>)
    requires Run(s, sched).Some?
  {
    forall q :: Stream(ins, q) == Payload(Chan(s, Edge(q, p))) + Traffic(s, sched, Edge(q, p))
  }

  // ... and these are such streams.
  lemma {:induction false} OnlyTasksWrite(s: State, sched: seq<int>, e: Edge)
    requires Run(s, sched).Some? && !(0 <= e.src < |s.procs|)
    ensures Traffic(s, sched, e) == []
    decreases |sched|
  {
    if sched != [] { OnlyTasksWrite(Step(s, sched[0]), sched[1..], e); }
  }

  lemma SupplyExists(s: State, sched: seq<int>, p: int) returns (ins: map<int, Bytes>)
    requires Run(s, sched).Some? && forall q :: !(0 <= q < |s.procs|) ==> Chan(s, Edge(q, p)) == []
    ensures Supplied(s, sched, p, ins)
  {
    ins := map q: int | 0 <= q < |s.procs| :: Payload(Chan(s, Edge(q, p))) + Traffic(s, sched, Edge(q, p));
    forall q | !(0 <= q < |s.procs|)
      ensures Traffic(s, sched, Edge(q, p)) == []
    {
      OnlyTasksWrite(s, sched, Edge(q, p));
    }
  }

  lemma RunSplits(s: State, sched: seq<int>, t: State)
    requires Run(s, sched) == Some(t) && sched != []
    ensures Ready(s, sched[0]) && Run(Step(s, sched[0]), sched[1..]) == Some(t)
    ensures |Step(s, sched[0]).procs| == |s.procs|
  {
  }

  lemma AlongJoins(a: Bytes, b: Bytes, x: Bytes)
    ensures (a + b) + x == a + (b + x)
  {
  }

  // What one process writes on an edge in its next step.
  ghost function Puts(s: State, r: int, e: Edge): (b: Bytes)
    requires Ready(s, r)
  {
    if s.procs[r].Send? && e == Edge(r, s.procs[r].to) then s.procs[r].data else []
  }

  lemma PutsElsewhere(s: State, r: int, e: Edge)
    requires Ready(s, r) && e.src != r
    ensures Puts(s, r, e) == []
  {
  }

  lemma TrafficSplits(s: State, sched: seq<int>, e: Edge)
    requires Run(s, sched).Some? && sched != []
    ensures Traffic(s, sched, e) == Puts(s, sched[0], e) + Traffic(Step(s, sched[0]), sched[1..], e)
  {
  }

  // A step of another process moves bytes from what will be sent to what is under way.
  lemma ChannelGrows(s: State, r: int, p: int, q: int)
    requires Ready(s, r) && (r == p ==> !s.procs[r].Recv?)
    ensures Payload(Chan(Step(s, r), Edge(q, p))) == Payload(Chan(s, Edge(q, p))) + Puts(s, r, Edge(q, p))
  {
    hide Step, Payload, Chan;
    if s.procs[r].Send? && Edge(q, p) == Edge(r, s.procs[r].to) {
      WroteChannel(s, r);
    } else {
      OtherChannel(s, r, Edge(q, p));
      assert Payload(Chan(s, Edge(q, p))) + [] == Payload(Chan(s, Edge(q, p)));
    }
  }

  lemma StillSuppliedBy(s: State, sched: seq<int>, p: int, q: int)
    requires sched != [] && Ready(s, sched[0]) && Run(s, sched).Some? && Run(Step(s, sched[0]), sched[1..]).Some?
    requires sched[0] == p ==> !s.procs[p].Recv?
    ensures Payload(Chan(s, Edge(q, p))) + Traffic(s, sched, Edge(q, p)) ==
            Payload(Chan(Step(s, sched[0]), Edge(q, p))) + Traffic(Step(s, sched[0]), sched[1..], Edge(q, p))
  {
    hide Step, Payload, Chan, Traffic, Puts, Run;
    var r, e := sched[0], Edge(q, p);
    TrafficSplits(s, sched, e);
    ChannelGrows(s, r, p, q);
    AlongJoins(Payload(Chan(s, e)), Puts(s, r, e), Traffic(Step(s, r), sched[1..], e));
  }

  lemma StillSupplied(s: State, sched: seq<int>, p: int, ins: map<int, Bytes>)
    requires Run(s, sched).Some? && sched != [] && Supplied(s, sched, p, ins) &&
      Run(Step(s, sched[0]), sched[1..]).Some?
    requires sched[0] == p ==> !s.procs[p].Recv?
    ensures Supplied(Step(s, sched[0]), sched[1..], p, ins)
  {
    hide Step, Payload, Chan, Traffic, Stream;
    forall q
      ensures Stream(ins, q) == Payload(Chan(Step(s, sched[0]), Edge(q, p))) +
        Traffic(Step(s, sched[0]), sched[1..], Edge(q, p))
    {
      StillSuppliedBy(s, sched, p, q);
    }
  }

  lemma FrontTaken(d: Bytes, x: Bytes, y: Bytes)
    ensures ((d + x) + y)[..|d|] == d && ((d + x) + y)[|d|..] == x + y
  {
  }

  lemma ReadTraffic(s: State, sched: seq<int>, e: Edge)
    requires Run(s, sched).Some? && sched != [] && s.procs[sched[0]].Recv? && Run(Step(s, sched[0]), sched[1..]).Some?
    ensures Traffic(s, sched, e) == Traffic(Step(s, sched[0]), sched[1..], e)
  {
    hide Step;
  }

  // A read of p takes from the front of one stream.
  lemma ReadIsLocal(s: State, sched: seq<int>, p: int, w: World) returns (v: World)
    requires Run(s, sched).Some? && sched != [] && Run(Step(s, sched[0]), sched[1..]).Some?
    requires sched[0] == p && Served(s, p) && s.procs[p].Recv? && Supplied(s, sched, p, w.ins)
    ensures LocalStep(s.procs[p], w) == Some((s.procs[p].onData(Reading(s, p)), v)) && v.outs == w.outs
    ensures Supplied(Step(s, p), sched[1..], p, v.ins)
  {
    hide Payload, Traffic, Chan, Run, Reading, Step;
    var from, size, d := s.procs[p].from, s.procs[p].size, Reading(s, p);
    var t, rest, own := Step(s, p), sched[1..], Edge(from, p);
    ReadChannel(s, p);
    ReadTraffic(s, sched, own);
    FrontTaken(d, Payload(Chan(t, own)), Traffic(t, rest, own));
    v := w.(ins := Taken(w.ins, from, size));
    forall q
      ensures Stream(v.ins, q) == Payload(Chan(t, Edge(q, p))) + Traffic(t, rest, Edge(q, p))
    {
      ReadTraffic(s, sched, Edge(q, p));
      if q != from { OtherChannel(s, p, Edge(q, p)); }
    }
  }

  // Every other step of p leaves its incoming streams alone.
  lemma OwnStep(s: State, sched: seq<int>, p: int, w: World) returns (v: World)
    requires Run(s, sched).Some? && sched != [] && Run(Step(s, sched[0]), sched[1..]).Some?
    requires sched[0] == p && Served(s, p) && Supplied(s, sched, p, w.ins)
    ensures LocalStep(s.procs[p], w) == Some((Step(s, p).procs[p], v))
    ensures Supplied(Step(s, p), sched[1..], p, v.ins)
    ensures forall q :: Stream(v.outs, q) == Stream(w.outs, q) + Puts(s, p, Edge(p, q))
  {
    hide Payload, Traffic, Chan, Run, Supplied, Taken;
    if s.procs[p].Recv? {
      v := ReadIsLocal(s, sched, p, w);
    } else {
      StillSupplied(s, sched, p, w.ins);
      v := if s.procs[p].Send? then w.(outs := Written(w.outs, s.procs[p].to, s.procs[p].data)) else w;
    }
  }

  lemma {:induction false} PlaysBefore(p: Proc, w: World, q: Proc, v: World, r: Proc, u: World)
    requires LocalStep(p, w) == Some((q, v)) && Plays(q, v, r, u)
    ensures Plays(p, w, r, u)
  {
    PlaysSelf(p, w);
    PlaysStep(p, w, p, w, q, v);
    PlaysThen(p, w, q, v, r, u);
  }

  lemma NoTraffic(s: State, p: int, outs: map<int, Bytes>)
    ensures forall q :: Stream(outs, q) == Stream(outs, q) + Traffic(s, [], Edge(p, q))
  {
    hide Stream;
    forall q
      ensures Stream(outs, q) == Stream(outs, q) + Traffic(s, [], Edge(p, q))
    {
      assert Traffic(s, [], Edge(p, q)) == [];
    }
  }

  lemma NothingToCome(s: State, p: int, ins: map<int, Bytes>)
    requires Supplied(s, [], p, ins)
    ensures forall q :: Stream(ins, q) == Payload(Chan(s, Edge(q, p)))
  {
    hide Stream, Payload, Chan;
    forall q
      ensures Stream(ins, q) == Payload(Chan(s, Edge(q, p)))
    {
      assert Traffic(s, [], Edge(q, p)) == [];
    }
  }

  // In any run in which p meets no end of file, p does what it does on its own, fed with what is under way to it and
  // all the run sends it: what remains of its streams is what it has left on its channels, and what it has written
  // is what the run has carried away from it.
  lemma {:induction false} RunIsLocal(s: State, sched: seq<int>, t: State, p: int, w: World) returns (v: World)
    requires Run(s, sched) == Some(t) && 0 <= p < |s.procs| == |t.procs|
    requires MeetsNoEof(s, sched, p) && Supplied(s, sched, p, w.ins)
    ensures Plays(s.procs[p], w, t.procs[p], v)
    ensures forall q :: Stream(v.ins, q) == Payload(Chan(t, Edge(q, p)))
    ensures forall q :: Stream(v.outs, q) == Stream(w.outs, q) + Traffic(s, sched, Edge(p, q))
    decreases |sched|
  {
    hide Payload, Chan, Plays, Puts, LocalStep, Served, Step, Stream, Traffic, Supplied;
    if sched == [] {
      PlaysSelf(s.procs[p], w);
      v := w;
      NoTraffic(s, p, w.outs);
      NothingToCome(s, p, w.ins);
    } else {
      RunSplits(s, sched, t);
      var u, rest := Step(s, sched[0]), sched[1..];
      if sched[0] == p {
        var x := OwnStep(s, sched, p, w);
        v := RunIsLocal(u, rest, t, p, x);
        PlaysBefore(s.procs[p], w, u.procs[p], x, t.procs[p], v);
      } else {
        StillSupplied(s, sched, p, w.ins);
        StepMovesOne(s, sched[0], p);
        v := RunIsLocal(u, rest, t, p, w);
      }
      forall q
        ensures Stream(v.outs, q) == Stream(w.outs, q) + Traffic(s, sched, Edge(p, q))
      {
        TrafficSplits(s, sched, Edge(p, q));
        AlongJoins(Stream(w.outs, q), Puts(s, sched[0], Edge(p, q)), Traffic(u, rest, Edge(p, q)));
        if sched[0] != p { PutsElsewhere(s, sched[0], Edge(p, q)); }
      }
    }
  }
}
