// Two programs side by side: one does what the other does as long as it is served, and may stop at the places agreed.
module Tracking {
  import opened Bytestream
  import opened CoboTree
  import opened Network
  import opened Collectives

  // ----- one step of the same process in two states

  // Two programs that do the same next, unless the first meets end of file.
  ghost predicate SameHead(p: Proc, q: Proc) {
    match p
    case Done(_) => false
    case Send(to, data, _) => q.Send? && q.to == to && q.data == data
    case Recv(from, size, _, _) => q.Recv? && q.from == from && q.size == size
    case Mark(event, _) => q.Mark? && q.event == event
  }

  // The program after its next step, in which it reads d if it reads.
  function Next(p: Proc, d: Bytes): (q: Proc) {
    match p
    case Done(_) => p
    case Send(_, _, next) => next
    case Recv(_, _, onData, _) => onData(d)
    case Mark(_, after) => after
  }

  // All but the programs is the same.
  ghost predicate SameBooks(s: State, t: State) {
    Shape(s) && Shape(t) && |s.procs| == |t.procs| &&
    s.know == t.know && s.epochs == t.epochs && s.chans == t.chans && s.log == t.log
  }

  lemma Mirror(s: State, t: State, p: int)
    requires SameBooks(s, t) && Served(s, p) && SameHead(s.procs[p], t.procs[p])
    ensures Ready(t, p) && SameBooks(Step(s, p), Step(t, p))
    ensures Step(s, p).procs == s.procs[p := Next(s.procs[p], Reading(s, p))]
    ensures Step(t, p).procs == t.procs[p := Next(t.procs[p], Reading(s, p))]
  {
    hide Payload, Pasts, Stamped, FromCall;
  }

  // ----- whole programs

  // Where the two programs may be left, a process they never listen to, and the events they may announce.
  datatype Terms = Terms(stop: (Proc, Proc) -> bool, deaf: int, may: Event -> bool)

  // Up to the stops the programs do the same, and end of file makes the first one exit.
  greatest predicate Tracks(terms: Terms, p: Proc, q: Proc) {
    terms.stop(p, q) ||
    (SameHead(p, q) && (p.Mark? ==> terms.may(p.event)) && (p.Recv? ==> p.from != terms.deaf && p.onEof == EXIT) &&
     forall d :: Tracks(terms, Next(p, d), Next(q, d)))
  }

  ghost predicate Follows(terms: Terms, k: Kont, l: Kont) { forall d :: Tracks(terms, k(d), l(d)) }

  lemma Sends(terms: Terms, to: int, data: Bytes, p: Proc, q: Proc)
    requires Tracks(terms, p, q)
    ensures Tracks(terms, Send(to, data, p), Send(to, data, q))
  {
  }

  lemma Recvs(terms: Terms, from: int, size: nat, k: Kont, l: Kont)
    requires from != terms.deaf && Follows(terms, k, l)
    ensures Tracks(terms, Recv(from, size, k, EXIT), Recv(from, size, l, EXIT))
  {
  }

  lemma Marks(terms: Terms, event: Event, p: Proc, q: Proc)
    requires terms.may(event) && Tracks(terms, p, q)
    ensures Tracks(terms, Mark(event, p), Mark(event, q))
  {
  }

  // ----- the collectives

  // The terms name no task of the job.
  ghost predicate Outside(terms: Terms, n: nat) { !(0 <= terms.deaf < n) }

  lemma KidHeard(terms: Terms, n: nat, me: int, i: nat)
    requires Outside(terms, n) && 0 <= me < n && i < |Kids(n, me)|
    ensures Kids(n, me)[i].rank != terms.deaf
  {
    KidsInRange(me, 0, n - 1);
    assert Lists(Kids(n, me), Kids(n, me)[i].rank);
  }

  lemma ParentHeard(terms: Terms, n: nat, me: int)
    requires Outside(terms, n) && 0 < me < n
    ensures Parent(n, me) != terms.deaf
  {
    ParentInRange(me, 0, n - 1, 0);
  }

  lemma {:induction false} FanOutTracks(terms: Terms, n: nat, me: int, data: Bytes, i: nat, k: Kont, l: Kont)
    requires Follows(terms, k, l)
    ensures Tracks(terms, FanOut(n, me, data, i, k), FanOut(n, me, data, i, l))
    decreases |Kids(n, me)| - i
  {
    hide Tracks, Kids;
    if i < |Kids(n, me)| {
      FanOutTracks(terms, n, me, data, i + 1, k, l);
      Sends(terms, Kids(n, me)[i].rank, data, FanOut(n, me, data, i + 1, k), FanOut(n, me, data, i + 1, l));
    }
  }

  lemma BcastTracks(terms: Terms, n: nat, me: int, buf: Bytes, size: nat, k: Kont, l: Kont)
    requires Outside(terms, n) && 0 <= me < n && Follows(terms, k, l)
    ensures Tracks(terms, Bcast(n, me, buf, size, k), Bcast(n, me, buf, size, l))
  {
    hide Tracks, FanOut, Parent;
    forall d
      ensures Tracks(terms, BcastKont(n, me, k)(d), BcastKont(n, me, l)(d))
    {
      FanOutTracks(terms, n, me, d, 0, k, l);
    }
    FanOutTracks(terms, n, me, Slice(buf, 0, size), 0, k, l);
    if me != 0 {
      ParentHeard(terms, n, me);
      Recvs(terms, Parent(n, me), size, BcastKont(n, me, k), BcastKont(n, me, l));
    }
  }

  lemma {:induction false} ReduceTracks(terms: Terms, n: nat, me: int, i: int, max: int, k: Kont, l: Kont)
    requires Outside(terms, n) && 0 <= me < n && Follows(terms, k, l)
    ensures Tracks(terms, Reduce(n, me, i, max, k), Reduce(n, me, i, max, l))
    decreases i + 1
  {
    hide Tracks, Parent, Kids, Bcast, EncodeInt, DecodeInt;
    if 0 <= i < |Kids(n, me)| {
      forall d
        ensures Tracks(terms, ReduceKont(n, me, i, max, k)(d), ReduceKont(n, me, i, max, l)(d))
      {
        ReduceTracks(terms, n, me, i - 1, Max(max, DecodeInt(d)), k, l);
      }
      KidHeard(terms, n, me, i);
      Recvs(terms, Kids(n, me)[i].rank, INT_SIZE, ReduceKont(n, me, i, max, k), ReduceKont(n, me, i, max, l));
    } else if me != 0 {
      BcastTracks(terms, n, me, [], INT_SIZE, k, l);
      Sends(terms, Parent(n, me), EncodeInt(max), Bcast(n, me, [], INT_SIZE, k), Bcast(n, me, [], INT_SIZE, l));
    } else {
      BcastTracks(terms, n, me, EncodeInt(max), INT_SIZE, k, l);
    }
  }

  lemma BarrierTracks(terms: Terms, n: nat, me: int, k: Kont, l: Kont)
    requires Outside(terms, n) && 0 <= me < n && Follows(terms, k, l)
    ensures Tracks(terms, Barrier(n, me, k), Barrier(n, me, l))
  {
    hide Tracks, Reduce, Kids;
    assert Follows(terms, Discard(k), Discard(l));
    ReduceTracks(terms, n, me, |Kids(n, me)| - 1, 1, Discard(k), Discard(l));
  }

  lemma {:induction false} CollectTracks(terms: Terms, n: nat, me: int, count: nat, i: int, big: Bytes, k: Kont,
                                         l: Kont)
    requires Outside(terms, n) && 0 <= me < n && Follows(terms, k, l)
    ensures Tracks(terms, Collect(n, me, count, i, big, k), Collect(n, me, count, i, big, l))
    decreases i + 1
  {
    hide Tracks, Parent, Kids, Size;
    if 0 <= i < |Kids(n, me)| {
      var kid := Kids(n, me)[i];
      forall d
        ensures Tracks(terms, CollectKont(n, me, count, i, big, k)(d), CollectKont(n, me, count, i, big, l)(d))
      {
        CollectTracks(terms, n, me, count, i - 1, big + d, k, l);
      }
      KidHeard(terms, n, me, i);
      Recvs(terms, kid.rank, Size(count, kid.count), CollectKont(n, me, count, i, big, k),
        CollectKont(n, me, count, i, big, l));
    } else if me != 0 {
      Sends(terms, Parent(n, me), big, k([]), l([]));
    }
  }

  lemma GatherTracks(terms: Terms, n: nat, me: int, send: Bytes, count: nat, k: Kont, l: Kont)
    requires Outside(terms, n) && 0 <= me < n && Follows(terms, k, l)
    ensures Tracks(terms, Gather(n, me, send, count, k), Gather(n, me, send, count, l))
  {
    hide Tracks, Collect, Kids;
    CollectTracks(terms, n, me, count, |Kids(n, me)| - 1, Slice(send, 0, count), k, l);
  }

  lemma {:induction false} SpreadTracks(terms: Terms, n: nat, me: int, count: nat, big: Bytes, i: int, offset: nat,
                                        k: Kont, l: Kont)
    requires Follows(terms, k, l)
    ensures Tracks(terms, Spread(n, me, count, big, i, offset, k), Spread(n, me, count, big, i, offset, l))
    decreases i + 1
  {
    hide Tracks, Kids, Size, Slice;
    if 0 <= i < |Kids(n, me)| {
      var len := Size(count, Kids(n, me)[i].count);
      SpreadTracks(terms, n, me, count, big, i - 1, offset + len, k, l);
      Sends(terms, Kids(n, me)[i].rank, Slice(big, offset, len),
            Spread(n, me, count, big, i - 1, offset + len, k), Spread(n, me, count, big, i - 1, offset + len, l));
    }
  }

  lemma ScatterTracks(terms: Terms, n: nat, me: int, buf: Bytes, count: nat, k: Kont, l: Kont)
    requires Outside(terms, n) && 0 <= me < n && Follows(terms, k, l)
    ensures Tracks(terms, Scatter(n, me, buf, count, k), Scatter(n, me, buf, count, l))
  {
    hide Tracks, Spread, Parent, Kids, Size, Total;
    var last := |Kids(n, me)| - 1;
    forall d
      ensures Tracks(terms, SpreadKont(n, me, count, k)(d), SpreadKont(n, me, count, l)(d))
    {
      SpreadTracks(terms, n, me, count, d, last, count, k, l);
    }
    SpreadTracks(terms, n, me, count, buf, last, count, k, l);
    if me != 0 {
      ParentHeard(terms, n, me);
      Recvs(terms, Parent(n, me), Size(count, Total(Kids(n, me)) + 1), SpreadKont(n, me, count, k),
        SpreadKont(n, me, count, l));
    }
  }
}
