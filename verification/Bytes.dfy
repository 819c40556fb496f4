/** Bytes, network-order integers and the growable buffer the sources build messages in. */
module Bytes {
  type byte = b: int | 0 <= b < 0x100
  type u16 = n: int | 0 <= n < 0x1_0000
  type u32 = n: int | 0 <= n < 0x1_0000_0000
  type bytes = seq<byte>

  const CR: byte := 13
  const LF: byte := 10
  const CRLF: bytes := [CR, LF]
  const DOT: byte := 46

  const IDS := 0x1_0000
  const MAX_BUF_LENGTH := 8192

  function B(b: bool): (n: nat) {
    if b then 1 else 0
  }

  function U16(v: u16): (r: bytes) {
    [v / 0x100, v % 0x100]
  }

  function ReadU16(s: bytes, i: nat): (v: u16)
    requires i + 2 <= |s|
  {
    (s[i] as int) * 0x100 + s[i + 1]
  }

  function U32(v: nat): (r: bytes)
    requires v < 0x1_0000_0000
  {
    [v / 0x100_0000, v / 0x1_0000 % 0x100, v / 0x100 % 0x100, v % 0x100]
  }

  function ReadU32(s: bytes, i: nat): (v: nat)
    requires i + 4 <= |s|
  {
    (s[i] as int) * 0x100_0000 + (s[i + 1] as int) * 0x1_0000 + (s[i + 2] as int) * 0x100 + s[i + 3]
  }

  /** A conversion of a 32-bit (or longer) size to the signed 32-bit `int` of the sources. */
  function AsInt32(v: nat): (r: int) {
    var m := v % 0x1_0000_0000;
    if m < 0x8000_0000 then m else m - 0x1_0000_0000
  }

  function Concat(chunks: seq<bytes>): (r: bytes) {
    if chunks == [] then [] else chunks[0] + Concat(chunks[1..])
  }

  lemma {:induction false} ConcatAppend(a: seq<bytes>, x: bytes)
    ensures Concat(a + [x]) == Concat(a) + x
  {
    if a == [] {
      assert a + [x] == [x];
    } else {
      assert (a + [x])[1..] == a[1..] + [x];
      ConcatAppend(a[1..], x);
    }
  }

  /** A boost streambuf, seen as the bytes committed and not yet consumed. */
  class StreamBuf {
    var data: bytes

    constructor ()
      ensures data == []
    {
      data := [];
    }

    method Append(s: bytes)
      modifies this
      ensures data == old(data) + s
    {
      data := data + s;
    }

    method Consume(n: nat)
      requires n <= |data|
      modifies this
      ensures data == old(data)[n..]
    {
      data := data[n..];
    }
  }
}
