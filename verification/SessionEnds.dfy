// Every session comes to an end: whatever fails, end of file reaches whoever waits for a party that has returned, so
// that all return in the end, and nobody waits for ever.
module SessionEnds {
  import opened Network
  import opened Tracking
  import opened Session
  import opened SessionRuns
  import opened SessionSafety

  // ----- a session that is stuck is over

  lemma StuckWaits(s: State, p: int)
    requires Stuck(s) && Shape(s) && 0 <= p < |s.procs| && !s.procs[p].Done?
    ensures s.procs[p].Recv? && |Chan(s, Edge(s.procs[p].from, p))| < s.procs[p].size && !Departed(s, s.procs[p].from)
  {
    hide Chan, Departed;
    assert !Ready(s, p);
  }

  lemma MasterAgrees(c: Config, s: State, t: State, v: View)
    requires WellFormed(c) && Beside(c, s, t, v) && !s.procs[0].Done?
    ensures SameHead(s.procs[0], t.procs[0])
  {
    hide WellFormed, Lags, BeAt, Unwritten, Unread, Balanced, Chan, FeAt, Honest;
    if Listening(v.be) {
      MastersHear(c, v.be);
    } else if v.be == Early && s.procs[0] == BeTable(c) {
      StartsListening(c, s, t, v);
      TableIsListening();
      MastersHear(c, AtTable);
    } else {
      LagsOn(c, 0, v.be == Early, s.procs[0], t.procs[0]);
    }
  }

  lemma DesertedIsReady(c: Config, s: State, t: State, v: View)
    requires Beside(c, s, t, v) && v.fe.Deserted? && !s.procs[c.n].Done?
    ensures Ready(s, c.n)
  {
    hide KeyKont, HostKont, Chan, Lags, BeAt, Unwritten, Unread, Balanced, Honest;
  }

  // In a stuck state whoever has not returned stands where it stands in the session in which nothing fails.
  lemma HeadsAgree(c: Config, s: State, t: State, v: View, p: int)
    requires WellFormed(c) && Beside(c, s, t, v) && Stuck(s) && 0 <= p <= c.n && |s.procs| == c.n + 1 &&
      !s.procs[p].Done?
    ensures SameHead(s.procs[p], t.procs[p])
  {
    hide WellFormed, Lags, BeAt, FeAt, Unwritten, Unread, Balanced, Chan, Ready, Honest;
    if p == c.n {
      if v.fe.Deserted? {
        DesertedIsReady(c, s, t, v);
        assert false;
      }
      FrontEndSame(c, v.fe);
    } else if p == 0 {
      MasterAgrees(c, s, t, v);
    } else {
      LagsOn(c, p, false, s.procs[p], t.procs[p]);
    }
  }

  // Those who have not returned wait for one another, and so they do in the other session, which could never end.
  lemma WaitersDeadlock(c: Config, s: State, t: State, v: View, w: set<int>)
    requires WellFormed(c) && Beside(c, s, t, v) && Stuck(s) && |s.procs| == |t.procs| == c.n + 1 && Shape(s)
    requires s.chans == t.chans && forall p :: p in w <==> 0 <= p <= c.n && !s.procs[p].Done?
    ensures Deadlocked(t, w)
  {
    hide WellFormed, Beside, Stuck;
    forall p | p in w
      ensures t.procs[p].Recv? && |Chan(t, Edge(t.procs[p].from, p))| < t.procs[p].size
      ensures t.procs[p].from in w || !(0 <= t.procs[p].from < |t.procs|)
    {
      HeadsAgree(c, s, t, v, p);
      StuckWaits(s, p);
    }
  }

  lemma BooksAgree(c: Config, s: State, t: State, v: View)
    requires Beside(c, s, t, v)
    ensures |s.procs| == |t.procs| == c.n + 1 && Shape(s) && s.chans == t.chans
  {
  }

  lemma StuckIsOver(c: Config, s: State, t: State, v: View, more: seq<int>, end: State)
    requires WellFormed(c) && Beside(c, s, t, v) && Stuck(s) && Run(t, more) == Some(end) && AllReturned(end, c.n)
    ensures AllReturned(s, c.n)
  {
    hide WellFormed, Beside, Stuck, Deadlocked, Run;
    BooksAgree(c, s, t, v);
    var w := set p | 0 <= p <= c.n && !s.procs[p].Done?;
    WaitersDeadlock(c, s, t, v, w);
    DeadlockStays(t, w, more, end);
    forall p | 0 <= p <= c.n
      ensures s.procs[p].Done?
    {
      if p in w { WaitsStill(end, w, p); }
    }
  }

  lemma WaitsStill(end: State, w: set<int>, p: int)
    requires Deadlocked(end, w) && p in w
    ensures 0 <= p < |end.procs| && end.procs[p].Recv?
  {
  }

  // ----- every session ends

  // What one run of a session owes to the session in which nothing fails.
  lemma RunEnds(c: Config, total: nat, end: State, sched: seq<int>, t: State)
    requires WellFormed(c) && Run(Init(c), sched) == Some(t) && AllReturned(end, c.n) && |Init(c).procs| == c.n + 1
    requires forall more, u :: Run(Init(Mended(c)), more) == Some(u) ==> OnTrack(u, |more|, Mended(c), total, end)
    ensures |sched| <= total + EofsLeft(c, Init(c), View(AtKeys(0, []), 0, Early))
    ensures Stuck(t) ==> AllReturned(t, c.n)
  {
    hide WellFormed, Init, Beside, ReleasedLast, Mended, EofsLeft, AllReturned, Stuck;
    InitBeside(c);
    var shadow, u, v := RunBeside(c, Init(c), Init(Mended(c)), View(AtKeys(0, []), 0, Early), sched, t);
    assert OnTrack(u, |shadow|, Mended(c), total, end);
    var more :| Run(u, more) == Some(end);
    if Stuck(t) { StuckIsOver(c, t, u, v, more, end); }
  }

  // What holds of a state reached by `steps` steps when every run takes `total` steps to f.
  ghost predicate OnItsWay(t: State, steps: nat, c: Config, total: nat, f: State) {
    steps <= total && Reaches(t, f) && ReleasedSafely(c, t.log) && (Stuck(t) ==> t == f && steps == total)
  }

  lemma InitIsTruthful(c: Config)
    ensures Truthful(Init(c)) && |Init(c).procs| == c.n + 1
  {
    hide BeStart, FeKeys;
  }

  // Whatever the key, the callbacks, the process table and process control on each daemon come to: all interleavings of
  // a session take the same number of steps to the same end, in which all have returned; and at no time has the
  // launcher been released while some daemon has not initialized process control.
  lemma EveryEnding(c: Config) returns (total: nat, f: State)
    requires WellFormed(c)
    ensures AllReturned(f, c.n)
    ensures forall sched, t :: Run(Init(c), sched) == Some(t) ==> OnItsWay(t, |sched|, c, total, f)
  {
    hide WellFormed, Healthy, Init, OnTrack, AllReturned, Run, Mended, Stuck, Truthful, ReleasedSafely, EofsLeft,
         Reaches;
    MendedIsHealthy(c);
    MendedSize(c);
    InitIsTruthful(c);
    var s, slack := Init(c), EofsLeft(c, Init(c), View(AtKeys(0, []), 0, Early));
    var most, end := HealthySession(Mended(c));
    forall more, u | Run(s, more) == Some(u)
      ensures |more| <= most + slack
    {
      RunEnds(c, most, end, more, u);
    }
    var good;
    good, f := RunFromStart(s, most + slack);
    RunEnds(c, most, end, good, f);
    total := |good|;
    forall sched, t | Run(s, sched) == Some(t)
      ensures OnItsWay(t, |sched|, c, total, f)
    {
      var rest := EveryRun(s, good, f, sched, t);
      RunIsSafe(c, most, end, sched, t);
      RunReaches(t, rest, f);
    }
  }

  lemma RunFromStart(s: State, bound: nat) returns (good: seq<int>, f: State)
    requires forall more, u :: Run(s, more) == Some(u) ==> |more| <= bound
    ensures Run(s, good) == Some(f) && Stuck(f)
  {
    assert Run(s, []) == Some(s);
    good, f := RunOut(s, [], s, bound);
  }

  lemma RunReaches(s: State, sched: seq<int>, t: State)
    requires Run(s, sched) == Some(t)
    ensures Reaches(s, t)
  {
  }
}
