// Bytes as they travel on a socket: 32-bit integers in host (little-endian) order and
// NUL-terminated strings.
module Bytestream {
  newtype Byte = x: int | 0 <= x < 256
  type Bytes = seq<Byte>

  const INT_SIZE: nat := 4

  ghost predicate IsInt32(v: int) { -0x8000_0000 <= v < 0x8000_0000 }

  // The unsigned int a C int is converted to.
  function Unsigned(v: int): (u: int)
    ensures 0 <= v < 0x1_0000_0000 ==> u == v
  {
    v % 0x1_0000_0000
  }

  // The four bytes of a C int; a value outside the 32-bit range wraps around.
  function EncodeInt(v: int): (b: Bytes) {
    var u := Unsigned(v);
    [(u % 0x100) as Byte, (u / 0x100 % 0x100) as Byte, (u / 0x1_0000 % 0x100) as Byte, (u / 0x100_0000) as Byte]
  }

  // The same four bytes read back as an unsigned int.
  function DecodeUnsigned(b: Bytes): (v: nat) {
    if |b| < INT_SIZE then 0
    else b[0] as int + 0x100 * b[1] as int + 0x1_0000 * b[2] as int + 0x100_0000 * b[3] as int
  }

  function DecodeInt(b: Bytes): (v: int) {
    var u := DecodeUnsigned(b);
    if u < 0x8000_0000 then u else u - 0x1_0000_0000
  }

  lemma UnsignedRoundTrip(v: int)
    ensures |EncodeInt(v)| == INT_SIZE
    ensures DecodeUnsigned(EncodeInt(v)) == Unsigned(v)
  {
    var u := Unsigned(v);
    assert u / 0x100 == u / 0x1_0000 * 0x100 + u / 0x100 % 0x100;
    assert u / 0x1_0000 == u / 0x100_0000 * 0x100 + u / 0x1_0000 % 0x100;
  }

  lemma IntRoundTrip(v: int)
    requires IsInt32(v)
    ensures |EncodeInt(v)| == INT_SIZE && DecodeInt(EncodeInt(v)) == v
  {
    UnsignedRoundTrip(v);
  }

  // 32-bit words one after the other.
  function Words(ws: seq<int>): (b: Bytes) {
    if ws == [] then [] else EncodeInt(ws[0]) + Words(ws[1..])
  }

  // Word i of a buffer, as an unsigned int.
  function Word(b: Bytes, i: nat): (v: nat) {
    if 4 * i + INT_SIZE <= |b| then DecodeUnsigned(b[4 * i..4 * i + INT_SIZE]) else 0
  }

  // Every word is read back from its place, whatever follows.
  lemma {:induction false} WordAt(ws: seq<int>, rest: Bytes, i: nat)
    requires i < |ws|
    ensures |Words(ws)| == 4 * |ws|
    ensures Word(Words(ws) + rest, i) == Unsigned(ws[i])
  {
    hide EncodeInt, DecodeUnsigned, Unsigned;
    var head, tail := EncodeInt(ws[0]), Words(ws[1..]) + rest;
    UnsignedRoundTrip(ws[0]);
    assert Words(ws) + rest == head + tail;
    if |ws| > 1 { WordAt(ws[1..], rest, if i == 0 then 0 else i - 1); }
    if i == 0 {
      assert (head + tail)[..INT_SIZE] == head;
    } else {
      assert (head + tail)[4 * i..4 * i + INT_SIZE] == tail[4 * (i - 1)..4 * (i - 1) + INT_SIZE];
    }
  }

  function FirstWords(b: Bytes, k: nat): (ws: seq<int>)
    ensures |ws| == k
  {
    seq(k, i requires 0 <= i < k => Word(b, i))
  }

  lemma WordsRoundTrip(ws: seq<int>, rest: Bytes)
    requires forall i :: 0 <= i < |ws| ==> 0 <= ws[i] < 0x1_0000_0000
    ensures |Words(ws)| == 4 * |ws| && FirstWords(Words(ws) + rest, |ws|) == ws
  {
    forall i: nat | i < |ws|
      ensures Word(Words(ws) + rest, i) == ws[i]
    {
      WordAt(ws, rest, i);
    }
    WordsConcat(ws, []);
  }

  lemma {:induction false} WordsConcat(a: seq<int>, b: seq<int>)
    ensures Words(a + b) == Words(a) + Words(b) && |Words(a)| == 4 * |a|
  {
    if a == [] {
      assert a + b == b;
    } else {
      UnsignedRoundTrip(a[0]);
      assert (a + b)[1..] == a[1..] + b;
      WordsConcat(a[1..], b);
    }
  }

  ghost predicate NoNul(s: Bytes) { forall i :: 0 <= i < |s| ==> s[i] != 0 }

  // Places behind a header.
  lemma Behind(header: Bytes, payload: Bytes, i: nat, j: nat)
    requires i <= j <= |payload|
    ensures (header + payload)[|header| + i..|header| + j] == payload[i..j]
    ensures (header + payload)[|header| + i..] == payload[i..]
  {
  }

  // What a C reader sees at a pointer: the bytes up to the first NUL.
  function CString(b: Bytes): (s: Bytes)
    ensures |s| <= |b|
  {
    if b == [] || b[0] == 0 then [] else [b[0]] + CString(b[1..])
  }

  lemma {:induction false} CStringOf(s: Bytes, rest: Bytes)
    requires NoNul(s) && rest != [] && rest[0] == 0
    ensures CString(s + rest) == s
  {
    if s == [] {
      assert s + rest == rest;
    } else {
      assert (s + rest)[1..] == s[1..] + rest;
      CStringOf(s[1..], rest);
    }
  }

  // All slices of one length, in order.
  function Concat(parts: seq<Bytes>): (b: Bytes) {
    if parts == [] then [] else parts[0] + Concat(parts[1..])
  }

  lemma {:induction false} ConcatAppend(a: seq<Bytes>, b: seq<Bytes>)
    ensures Concat(a + b) == Concat(a) + Concat(b)
  {
    if a == [] {
      assert a + b == b;
    } else {
      assert (a + b)[1..] == a[1..] + b;
      ConcatAppend(a[1..], b);
    }
  }

  // memcpy to the front of a gap.
  method Fill(buf: array<Byte>, at: nat, data: Bytes, ghost front: Bytes, ghost gap: Bytes, ghost back: Bytes)
    requires buf[..] == front + gap + back && at == |front| && |data| <= |gap|
    modifies buf
    ensures buf[..] == front + data + gap[|data|..] + back
  {
    for i := 0 to |data|
      invariant buf[..] == front + data[..i] + gap[i..] + back
    {
      buf[at + i] := data[i];
      assert buf[..] == front + data[..i + 1] + gap[i + 1..] + back;
    }
  }
}
