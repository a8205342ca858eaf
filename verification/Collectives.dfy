// The program each rank runs for each COBO collective: a loop of blocking reads and writes on the edges
// of the tree, followed by the rest of the caller's program (`k`, given what the call left in its receive
// buffer). A read that meets end of file makes the process exit(1).
module Collectives {
  import opened Bytestream
  import opened CoboTree
  import opened Network

  type Kont = Bytes -> Proc

  const EXIT: Proc := Done(Code(1))

  function Max(a: int, b: int): (v: int) { if a < b then b else a }

  // len bytes of b from offset `from`
  function Slice(b: Bytes, from: nat, len: nat): (r: Bytes) {
    if from + len <= |b| then b[from..from + len] else []
  }

  function Size(count: nat, ranks: int): (v: nat) { if ranks < 0 then 0 else count * ranks }

  lemma SizeStep(count: nat, ranks: nat)
    ensures Size(count, ranks + 1) == Size(count, ranks) + count
  {
    assert count * (ranks + 1) == count * ranks + count;
  }

  lemma SizeSum(count: nat, a: nat, b: nat)
    ensures Size(count, a + b) == Size(count, a) + Size(count, b)
  {
    assert count * (a + b) == count * a + count * b;
  }

  lemma {:induction false} SizeMonotone(count: nat, a: nat, b: nat)
    requires a <= b
    ensures Size(count, a) <= Size(count, b)
    decreases b
  {
    if a < b {
      SizeMonotone(count, a, b - 1);
      SizeStep(count, b - 1);
    }
  }

  // ----- broadcast from rank 0

  function FanOut(n: nat, me: int, data: Bytes, i: int, k: Kont): (p: Proc)
    decreases |Kids(n, me)| - i
  {
    if 0 <= i < |Kids(n, me)| then Send(Kids(n, me)[i].rank, data, FanOut(n, me, data, i + 1, k)) else k(data)
  }

  function BcastKont(n: nat, me: int, k: Kont): (r: Kont) { d => FanOut(n, me, d, 0, k) }

  function Bcast(n: nat, me: int, buf: Bytes, size: nat, k: Kont): (p: Proc) {
    if me != 0 then Recv(Parent(n, me), size, BcastKont(n, me, k), EXIT)
    else FanOut(n, me, Slice(buf, 0, size), 0, k)
  }

  // ----- maximum over all ranks, delivered to all ranks

  function ReduceKont(n: nat, me: int, i: nat, max: int, k: Kont): (r: Kont)
    decreases i, 1
  {
    d => Reduce(n, me, i - 1, Max(max, DecodeInt(d)), k)
  }

  // Children are read from the last to the first.
  function Reduce(n: nat, me: int, i: int, max: int, k: Kont): (p: Proc)
    decreases i + 1, 0
  {
    if 0 <= i < |Kids(n, me)| then Recv(Kids(n, me)[i].rank, INT_SIZE, ReduceKont(n, me, i, max, k), EXIT)
    else if me != 0 then Send(Parent(n, me), EncodeInt(max), Bcast(n, me, [], INT_SIZE, k))
    else Bcast(n, me, EncodeInt(max), INT_SIZE, k)
  }

  function Allreduce(n: nat, me: int, value: int, k: Kont): (p: Proc) {
    Reduce(n, me, |Kids(n, me)| - 1, value, k)
  }

  // ----- gather to rank 0

  function CollectKont(n: nat, me: int, count: nat, i: nat, big: Bytes, k: Kont): (r: Kont)
    decreases i, 1
  {
    d => Collect(n, me, count, i - 1, big + d, k)
  }

  function Collect(n: nat, me: int, count: nat, i: int, big: Bytes, k: Kont): (p: Proc)
    decreases i + 1, 0
  {
    if 0 <= i < |Kids(n, me)| then
      Recv(Kids(n, me)[i].rank, Size(count, Kids(n, me)[i].count), CollectKont(n, me, count, i, big, k), EXIT)
    else if me != 0 then Send(Parent(n, me), big, k([]))
    else k(big)
  }

  function Gather(n: nat, me: int, send: Bytes, count: nat, k: Kont): (p: Proc) {
    Collect(n, me, count, |Kids(n, me)| - 1, Slice(send, 0, count), k)
  }

  // ----- scatter from rank 0

  function Spread(n: nat, me: int, count: nat, big: Bytes, i: int, offset: nat, k: Kont): (p: Proc)
    decreases i + 1
  {
    if 0 <= i < |Kids(n, me)| then
      var len := Size(count, Kids(n, me)[i].count);
      Send(Kids(n, me)[i].rank, Slice(big, offset, len), Spread(n, me, count, big, i - 1, offset + len, k))
    else k(Slice(big, 0, count))
  }

  function SpreadKont(n: nat, me: int, count: nat, k: Kont): (r: Kont) {
    d => Spread(n, me, count, d, |Kids(n, me)| - 1, count, k)
  }

  function Scatter(n: nat, me: int, buf: Bytes, count: nat, k: Kont): (p: Proc) {
    if me != 0 then Recv(Parent(n, me), Size(count, Total(Kids(n, me)) + 1), SpreadKont(n, me, count, k), EXIT)
    else Spread(n, me, count, buf, |Kids(n, me)| - 1, count, k)
  }

  // ----- collectives made of the above

  function Discard(k: Kont): (r: Kont) { d => k([]) }

  // The maximum of n ones, thrown away.
  function Barrier(n: nat, me: int, k: Kont): (p: Proc) { Allreduce(n, me, 1, Discard(k)) }

  function AllgatherKont(n: nat, me: int, count: nat, k: Kont): (r: Kont) {
    d => Bcast(n, me, d, Size(count, n), k)
  }

  function Allgather(n: nat, me: int, send: Bytes, count: nat, k: Kont): (p: Proc) {
    Gather(n, me, send, count, AllgatherKont(n, me, count, k))
  }

  // The string in a buffer of maxlen zero bytes.
  function Pad(str: Bytes, maxlen: int): (b: Bytes) {
    if |str| <= maxlen then str + seq(maxlen - |str|, _ => 0) else str
  }

  function AllgatherStrKont(n: nat, me: int, str: Bytes, k: Kont): (r: Kont) {
    d => var maxlen := DecodeInt(d);
      if maxlen < 0 then EXIT else Allgather(n, me, Pad(str, maxlen), maxlen, k)
  }

  function AllgatherStr(n: nat, me: int, str: Bytes, k: Kont): (p: Proc) {
    Allreduce(n, me, |str| + 1, AllgatherStrKont(n, me, str, k))
  }
}
