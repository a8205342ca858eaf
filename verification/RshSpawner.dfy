// Starting daemons by remote shell: a spawner starts two of its hosts and hands each of them a part of the
// remaining ones, joined into one command-line argument.
module RshSpawner {
  import CoboTree

  const HOST_DELIM: char := ':'
  const NO_HOST: string := "nohost"
  const SPAWNER_OPT: string := "--lmon-rsh"

  function Join(list: seq<string>): (text: string) {
    if list == [] then "" else if |list| == 1 then list[0] else list[0] + [HOST_DELIM] + Join(list[1..])
  }

  // The list as it travels in the argument.
  function Argument(list: seq<string>): (text: string) { if list == [] then NO_HOST else Join(list) }

  // The first token: strtok skips delimiters and stops at the next one.
  function Token(s: string): (t: string)
    ensures |t| <= |s|
  {
    if s == "" || s[0] == HOST_DELIM then "" else [s[0]] + Token(s[1..])
  }

  function Tokens(s: string): (list: seq<string>)
    decreases |s|
  {
    if s == "" then []
    else if s[0] == HOST_DELIM then Tokens(s[1..])
    else [Token(s)] + Tokens(s[|Token(s)|..])
  }

  function Hosts(tokens: seq<string>): (list: seq<string>) {
    if tokens == [] then []
    else (if tokens[0] == NO_HOST then [] else [tokens[0]]) + Hosts(tokens[1..])
  }

  // The hosts a spawner finds in its argument.
  function Parse(argument: string): (list: seq<string>) { Hosts(Tokens(argument)) }

  ghost predicate HostName(s: string) { s != "" && HOST_DELIM !in s }

  lemma {:induction false} TokenOf(name: string, rest: string)
    requires HOST_DELIM !in name && (rest == "" || rest[0] == HOST_DELIM)
    ensures Token(name + rest) == name
  {
    if name == "" {
      assert name + rest == rest;
    } else {
      assert (name + rest)[1..] == name[1..] + rest;
      TokenOf(name[1..], rest);
    }
  }

  lemma {:induction false} TokensOfJoin(list: seq<string>)
    requires forall i :: 0 <= i < |list| ==> HostName(list[i])
    ensures Tokens(Join(list)) == list
  {
    if list != [] {
      var rest := if |list| == 1 then "" else [HOST_DELIM] + Join(list[1..]);
      assert Join(list) == list[0] + rest;
      TokenOf(list[0], rest);
      assert (list[0] + rest)[|list[0]|..] == rest;
      TokensOfJoin(list[1..]);
      assert rest != "" ==> rest[1..] == Join(list[1..]);
    }
  }

  lemma {:induction false} HostsKeep(tokens: seq<string>)
    ensures |Hosts(tokens)| <= |tokens|
    ensures Hosts(tokens) == tokens <==> NO_HOST !in tokens
  {
    if tokens != [] {
      HostsKeep(tokens[1..]);
      if tokens[0] != NO_HOST {
        assert Hosts(tokens) == [tokens[0]] + Hosts(tokens[1..]);
        assert Hosts(tokens)[1..] == Hosts(tokens[1..]);
        assert NO_HOST in tokens <==> NO_HOST in tokens[1..];
      } else {
        assert |Hosts(tokens)| < |tokens|;
      }
    }
  }

  // Names that survive the journey: not empty, without a delimiter, and not the word for none.
  ghost predicate Settled(hosts: seq<string>) { forall x :: x in hosts ==> HostName(x) && x != NO_HOST }

  lemma {:induction false} TokenIsName(s: string)
    requires s != "" && s[0] != HOST_DELIM
    ensures HostName(Token(s))
  {
    if |s| > 1 && s[1] != HOST_DELIM { TokenIsName(s[1..]); }
  }

  lemma {:induction false} TokensAreNames(s: string)
    ensures forall x :: x in Tokens(s) ==> HostName(x)
    decreases |s|
  {
    if s != "" {
      if s[0] == HOST_DELIM {
        TokensAreNames(s[1..]);
      } else {
        TokenIsName(s);
        TokensAreNames(s[|Token(s)|..]);
      }
    }
  }

  lemma {:induction false} HostsAreTokens(tokens: seq<string>)
    ensures |Hosts(tokens)| <= |tokens| && NO_HOST !in Hosts(tokens)
    ensures forall x :: x in Hosts(tokens) ==> x in tokens
  {
    if tokens != [] { HostsAreTokens(tokens[1..]); }
  }

  // Whatever is taken apart, a spawner finds such names only.
  lemma ParseSettles(argument: string)
    ensures Settled(Parse(argument))
  {
    TokensAreNames(argument);
    HostsAreTokens(Tokens(argument));
  }

  // A list arrives as it was sent just if all its names survive.
  lemma ArgumentRoundTrip(list: seq<string>)
    ensures Parse(Argument(list)) == list <==> Settled(list)
  {
    ParseSettles(Argument(list));
    if Settled(list) {
      var sent := if list == [] then [NO_HOST] else list;
      TokensOfJoin(sent);
      HostsKeep(sent);
      assert list == [] ==> Join(sent) == NO_HOST;
    }
  }

  // ----- one spawner

  // A remote shell that starts the daemon on a host with an argument.
  datatype Command = Command(host: string, argument: string)

  function Half(n: nat): (v: nat) { n / 2 }
  function LeftList(hosts: seq<string>): (list: seq<string>) {
    if Half(|hosts|) <= 1 then [] else hosts[1..Half(|hosts|)]
  }
  function RightList(hosts: seq<string>): (list: seq<string>) {
    if Half(|hosts|) + 1 >= |hosts| then [] else hosts[Half(|hosts|) + 1..]
  }

  lemma {:induction false} JoinAppend(list: seq<string>, host: string)
    ensures Join(list + [host]) == if list == [] then host else Join(list) + [HOST_DELIM] + host
  {
    if |list| == 1 {
      assert (list + [host])[1..] == [host];
    } else if list != [] {
      assert (list + [host])[1..] == list[1..] + [host];
      JoinAppend(list[1..], host);
    }
  }

  // The list behind the option, as the spawner on the other side takes it apart.
  function Option(list: seq<string>): (text: string) { SPAWNER_OPT + "=" + Argument(list) }
  function ParseOption(option: string): (list: seq<string>) {
    if |SPAWNER_OPT| + 1 <= |option| then Parse(option[|SPAWNER_OPT| + 1..]) else []
  }

  // What a spawner starts: at most two daemons.
  function Commands(hosts: seq<string>): (list: seq<Command>) {
    if hosts == [] then []
    else
      [Command(hosts[0], Option(LeftList(hosts)))] +
      if |hosts| == 1 then [] else [Command(hosts[Half(|hosts|)], Option(RightList(hosts)))]
  }

  // The list is cut in the middle: the first host gets the hosts before the middle one, and the host in the middle
  // those behind it.
  ghost predicate Halves(hosts: seq<string>, part: seq<Command>) {
    var half := |hosts| / 2;
    |part| == (if |hosts| < 2 then |hosts| else 2) &&
    (|hosts| == 1 ==> part[0] == Command(hosts[0], "--lmon-rsh=nohost")) &&
    (|hosts| >= 2 ==> part[0] == Command(hosts[0], "--lmon-rsh=" + Argument(hosts[1..half]))) &&
    (|hosts| >= 2 ==> part[1] == Command(hosts[half], "--lmon-rsh=" + Argument(hosts[half + 1..])))
  }

  lemma CommandsHalve(hosts: seq<string>)
    ensures Halves(hosts, Commands(hosts))
  {
    hide Join;
    var half := |hosts| / 2;
    assert SPAWNER_OPT + "=" == "--lmon-rsh=";
    if |hosts| == 1 {
      assert "--lmon-rsh=" + NO_HOST == "--lmon-rsh=nohost";
    } else if hosts != [] {
      assert LeftList(hosts) == hosts[1..half] && RightList(hosts) == hosts[half + 1..];
    }
  }

  // The hosts list[..i] with a delimiter behind each of them.
  function Prefix(list: seq<string>): (text: string) { if list == [] then "" else Join(list) + [HOST_DELIM] }

  lemma NothingYet()
    ensures Prefix([]) == "" && Argument([]) == NO_HOST
  {
  }

  lemma PrefixGrows(hosts: seq<string>, first: nat, i: nat)
    requires first <= i < |hosts|
    ensures Prefix(hosts[first..i + 1]) == Prefix(hosts[first..i]) + hosts[i] + [HOST_DELIM]
  {
    hide Join;
    JoinAppend(hosts[first..i], hosts[i]);
    assert hosts[first..i + 1] == hosts[first..i] + [hosts[i]];
  }

  lemma PrefixEnds(hosts: seq<string>, first: nat, i: nat)
    requires first <= i < |hosts|
    ensures Argument(hosts[first..i + 1]) == Prefix(hosts[first..i]) + hosts[i]
  {
    hide Join;
    JoinAppend(hosts[first..i], hosts[i]);
    assert hosts[first..i + 1] == hosts[first..i] + [hosts[i]];
  }

  class Spawner {
    var hosts: seq<string>
    var started: seq<Command>

    constructor (list: seq<string>)
      ensures hosts == list && started == []
    {
      hosts, started := list, [];
    }

    // A spawner that was itself started by another one.
    constructor FromArgument(argument: string)
      ensures hosts == Parse(argument) && started == []
    {
      hosts, started := Parse(argument), [];
    }

    // The hosts from `first` up to `last`, or the word for none.
    method Collect(first: nat, last: int) returns (argument: string)
      requires first >= 1 && last <= |hosts|
      ensures argument == Argument(if first < last then hosts[first..last] else [])
    {
      hide Join, Prefix, Argument;
      argument := "";
      var i := first;
      NothingYet();
      assert first <= |hosts| ==> hosts[first..first] == [];
      while i + 1 < last
        invariant first <= i && (i == first || i < last)
        invariant i <= |hosts| ==> argument == Prefix(hosts[first..i])
        invariant i > |hosts| ==> argument == "" && i == first
      {
        PrefixGrows(hosts, first, i);
        argument := argument + hosts[i] + [HOST_DELIM];
        i := i + 1;
      }
      if i + 1 == last {
        PrefixEnds(hosts, first, i);
        argument := argument + hosts[i];
        i := i + 1;
      }
      if i == first { argument := argument + NO_HOST; }
    }

    method Spawn() returns (ok: bool)
      modifies this`started
      ensures ok == (hosts != [])
      ensures started == old(started) + Commands(hosts) && Halves(hosts, started[|old(started)|..])
    {
      CommandsHalve(hosts);
      ghost var before := started;
      if hosts == [] { return false; }
      var half := |hosts| / 2;
      var right, left := "", "";
      if half > 0 {
        right := Collect(half + 1, |hosts|);
        assert hosts[half + 1..|hosts|] == hosts[half + 1..];
      }
      left := Collect(1, half);
      started := started + [Command(hosts[0], SPAWNER_OPT + "=" + left)];
      if half > 0 { started := started + [Command(hosts[half], SPAWNER_OPT + "=" + right)]; }
      assert started[|before|..] == Commands(hosts);
      return true;
    }
  }

  // ----- all spawners

  // The part of the list behind each of the two commands, and what becomes of it.
  function ListFor(hosts: seq<string>, i: nat): (list: seq<string>) {
    if i == 0 then LeftList(hosts) else RightList(hosts)
  }
  function Arriving(hosts: seq<string>, i: nat): (list: seq<string>) { Parse(Argument(ListFor(hosts, i))) }

  lemma OptionArrives(list: seq<string>)
    ensures ParseOption(Option(list)) == Parse(Argument(list))
  {
    hide Parse, Argument;
    assert Option(list)[|SPAWNER_OPT| + 1..] == Argument(list);
  }

  lemma PartsOf(hosts: seq<string>, i: nat)
    requires i < |Commands(hosts)|
    ensures |ListFor(hosts, i)| < |hosts| && forall x :: x in ListFor(hosts, i) ==> x in hosts
    ensures Commands(hosts)[i].argument == Option(ListFor(hosts, i))
  {
    hide Option;
  }

  // Both commands hand over their part unchanged just if all its names survive, and it is shorter. In any case names
  // survive the next time.
  lemma CommandArrives(hosts: seq<string>, i: nat)
    requires i < |Commands(hosts)|
    ensures ParseOption(Commands(hosts)[i].argument) == Arriving(hosts, i) && Settled(Arriving(hosts, i))
    ensures Arriving(hosts, i) == ListFor(hosts, i) <==> Settled(ListFor(hosts, i))
    ensures |ListFor(hosts, i)| < |hosts| && (Settled(hosts) ==> Settled(ListFor(hosts, i)))
  {
    hide Option, ParseOption, Commands, ListFor, Parse, Argument;
    PartsOf(hosts, i);
    OptionArrives(ListFor(hosts, i));
    ParseSettles(Argument(ListFor(hosts, i)));
    ArgumentRoundTrip(ListFor(hosts, i));
  }

  // The hosts on which daemons are started from a list on, each followed by those it starts in turn.
  function Reached(hosts: seq<string>): (all: seq<string>)
    decreases if Settled(hosts) then 0 else 1, |hosts|, 1
  {
    ReachedBy(hosts, 0) + ReachedBy(hosts, 1)
  }

  function ReachedBy(hosts: seq<string>, i: nat): (all: seq<string>)
    decreases if Settled(hosts) then 0 else 1, |hosts|, 0
  {
    if i < |Commands(hosts)| then
      CommandArrives(hosts, i);
      [Commands(hosts)[i].host] + Reached(ParseOption(Commands(hosts)[i].argument))
    else []
  }

  // How many remote shells there are in a row.
  function Depth(hosts: seq<string>): (depth: nat)
    decreases if Settled(hosts) then 0 else 1, |hosts|, 1
  {
    if hosts == [] then 0 else 1 + Larger(DepthBy(hosts, 0), DepthBy(hosts, 1))
  }

  function Larger(a: nat, b: nat): (c: nat) { if a < b then b else a }

  function DepthBy(hosts: seq<string>, i: nat): (depth: nat)
    decreases if Settled(hosts) then 0 else 1, |hosts|, 0
  {
    if i < |Commands(hosts)| then
      CommandArrives(hosts, i);
      Depth(ParseOption(Commands(hosts)[i].argument))
    else 0
  }

  lemma Split(hosts: seq<string>)
    requires hosts != []
    ensures hosts == [hosts[0]] + ListFor(hosts, 0) +
      if |hosts| == 1 then [] else [hosts[Half(|hosts|)]] + ListFor(hosts, 1)
    ensures |hosts| >= 2 * |ListFor(hosts, 0)| + 1 && |hosts| >= 2 * |ListFor(hosts, 1)| + 1
    ensures forall i :: i < 2 && Settled(hosts) ==> Settled(ListFor(hosts, i))
  {
  }

  lemma ReachedIs(hosts: seq<string>)
    requires hosts != []
    ensures Reached(hosts) == [hosts[0]] + Reached(Arriving(hosts, 0)) +
      if |hosts| == 1 then [] else [hosts[Half(|hosts|)]] + Reached(Arriving(hosts, 1))
    ensures Depth(hosts) == 1 + Larger(Depth(Arriving(hosts, 0)), if |hosts| == 1 then 0 else Depth(Arriving(hosts, 1)))
  {
    hide Option, ParseOption, Arriving, LeftList, RightList, Settled;
    CommandArrives(hosts, 0);
    if |hosts| > 1 { CommandArrives(hosts, 1); }
  }

  // From a list whose names survive, every host is started exactly once.
  lemma {:induction false} EachHostOnce(hosts: seq<string>)
    requires Settled(hosts)
    ensures Reached(hosts) == hosts
    decreases |hosts|
  {
    hide Reached, Depth, ListFor, Parse, Argument, Settled;
    if hosts == [] {
      NobodyReached();
    } else {
      ReachedIs(hosts);
      Split(hosts);
      ArgumentRoundTrip(ListFor(hosts, 0));
      EachHostOnce(ListFor(hosts, 0));
      ArgumentRoundTrip(ListFor(hosts, 1));
      EachHostOnce(ListFor(hosts, 1));
    }
  }

  lemma NobodyReached()
    ensures Reached([]) == []
  {
  }

  lemma SettledPart(a: seq<string>, b: seq<string>, c: seq<string>)
    requires Settled(a) && (a == b + c || a == c + b)
    ensures Settled(b)
  {
    forall x | x in b
      ensures x in a
    {
    }
  }

  // If two lists of survivors stand for two parts of a list without changing it, they are those parts.
  lemma SamePlaces(a: string, l: seq<string>, m: string, r: seq<string>, l': seq<string>, r': seq<string>)
    requires [a] + l + ([m] + r) == [a] + l' + ([m] + r') && Settled(l') && Settled(r')
    ensures Settled(l) || Settled(r)
    ensures |l| == |l'| ==> l == l' && r == r'
  {
    var x, y := [a] + l + ([m] + r), [a] + l' + ([m] + r');
    if |l| <= |l'| {
      assert l == x[1..1 + |l|] && l' == y[1..1 + |l'|];
      assert l' == l + l'[|l|..];
      SettledPart(l', l, l'[|l|..]);
    } else {
      assert r == x[|x| - |r|..] && r' == y[|y| - |r'|..];
      assert r' == r'[..|r'| - |r|] + r;
      SettledPart(r', r, r'[..|r'| - |r|]);
    }
    assert r == x[2 + |l|..] && r' == y[2 + |l'|..];
  }

  // Any list given to the first spawner is covered, every host once and in its order, just if all names that are
  // passed on survive.
  lemma EveryListIsCovered(hosts: seq<string>)
    requires hosts != []
    ensures Reached(hosts) == [hosts[0]] + Arriving(hosts, 0) +
      if |hosts| == 1 then [] else [hosts[Half(|hosts|)]] + Arriving(hosts, 1)
    ensures Reached(hosts) == hosts <==> Settled(LeftList(hosts)) && Settled(RightList(hosts))
  {
    hide Reached, Depth, LeftList, RightList, Parse, Argument, Settled;
    ReachedIs(hosts);
    Split(hosts);
    var left, right := ListFor(hosts, 0), ListFor(hosts, 1);
    ParseSettles(Argument(left));
    ParseSettles(Argument(right));
    EachHostOnce(Arriving(hosts, 0));
    EachHostOnce(Arriving(hosts, 1));
    ArgumentRoundTrip(left);
    ArgumentRoundTrip(right);
    if |hosts| == 1 {
      NothingPassedOn(hosts);
    } else if Reached(hosts) == hosts {
      var head, mid := hosts[0], hosts[Half(|hosts|)];
      assert [head] + left + ([mid] + right) == [head] + Arriving(hosts, 0) + ([mid] + Arriving(hosts, 1));
      SamePlaces(head, left, mid, right, Arriving(hosts, 0), Arriving(hosts, 1));
    }
  }

  lemma ThirdOfThree(a: string, b: string, x: string)
    ensures Reached([a, b, x]) == [a, b] + Parse(x)
  {
    hide Reached, Parse;
    EveryListIsCovered([a, b, x]);
    ArgumentRoundTrip([]);
    assert ListFor([a, b, x], 0) == [] && ListFor([a, b, x], 1) == [x];
    assert Argument([x]) == x;
  }

  // So a host may be left out ...
  lemma NoHostIsLost()
    ensures Reached(["a", "b", NO_HOST]) == ["a", "b"]
  {
    hide Reached;
    ThirdOfThree("a", "b", NO_HOST);
    TokensOfJoin([NO_HOST]);
    assert Join([NO_HOST]) == NO_HOST && Hosts([NO_HOST]) == [];
  }

  // ... and hosts may be started that nobody has asked for.
  lemma ColonSplits()
    ensures Reached(["a", "b", "c:d"]) == ["a", "b", "c", "d"]
  {
    hide Reached;
    ThirdOfThree("a", "b", "c:d");
    assert Join(["c", "d"]) == "c" + [HOST_DELIM] + Join(["d"]) == "c:d";
    TokensOfJoin(["c", "d"]);
    HostsKeep(["c", "d"]);
  }

  lemma NothingPassedOn(hosts: seq<string>)
    requires |hosts| == 1
    ensures ListFor(hosts, 0) == [] && ListFor(hosts, 1) == [] && Settled([])
  {
  }

  lemma Pow2Step(k: nat)
    ensures CoboTree.Pow2(k + 1) == 2 * CoboTree.Pow2(k)
  {
  }

  lemma NoDepth()
    ensures Depth([]) == 0 && CoboTree.Pow2(0) == 1
  {
  }

  // The remote shells form a tree of logarithmic depth: in the number of hosts if their names survive, and otherwise
  // in the number of names found on the way to the second spawners.
  lemma {:induction false} LogarithmicDepth(hosts: seq<string>)
    ensures Settled(hosts) ==> CoboTree.Pow2(Depth(hosts)) <= |hosts| + 1
    ensures hosts != [] ==> CoboTree.Pow2(Depth(hosts)) <= 2 * (Larger(|Arriving(hosts, 0)|, |Arriving(hosts, 1)|) + 1)
    decreases if Settled(hosts) then 0 else 1, |hosts|
  {
    hide Reached, ListFor, CoboTree.Pow2, Depth, Parse, Argument, Settled;
    if hosts == [] {
      NoDepth();
    } else {
      ReachedIs(hosts);
      Split(hosts);
      Pow2Step(Depth(hosts) - 1);
      ParseSettles(Argument(ListFor(hosts, 0)));
      ParseSettles(Argument(ListFor(hosts, 1)));
      ArgumentRoundTrip(ListFor(hosts, 0));
      ArgumentRoundTrip(ListFor(hosts, 1));
      LogarithmicDepth(Arriving(hosts, 0));
      LogarithmicDepth(Arriving(hosts, 1));
      NoDepth();
    }
  }
}
