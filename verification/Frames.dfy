/** The frames of a pipeline: `PipelineRequest::generate`, `PipelineRequest::parse` and the receive
    loop that both ends run on their read buffer. */
module Frames {
  import opened Bytes

  datatype Frame =
    | Connect(id: u16)
    | Data(id: u16, payload: bytes)
    | Ack(id: u16, count: u16)
    | Close(id: u16)
    | Icmp(payload: bytes)

  const CONNECT: byte := 0
  const DATA: byte := 1
  const ACK: byte := 2
  const CLOSE: byte := 3
  const ICMP: byte := 4
  const MAX_COMMANDS: byte := 5
  const MAX_ICMP_LENGTH := 0xFFFF
  const MAX_DATA_LENGTH := 0xFFFF_FFFF

  function Payload(f: Frame): (r: bytes) {
    if f.Data? || f.Icmp? then f.payload else []
  }

  /** What `generate` accepts without throwing. */
  predicate Legal(f: Frame) {
    && (f.Data? ==> |f.payload| < MAX_DATA_LENGTH)
    && (f.Icmp? ==> |f.payload| < MAX_ICMP_LENGTH)
  }

  function Encode(f: Frame): (r: bytes)
    requires Legal(f)
  {
    match f
    case Connect(id) => [CONNECT] + U16(id)
    case Data(id, p) => [DATA] + U16(id) + U32(|p|) + p
    case Ack(id, n) => [ACK] + U16(id) + U16(n)
    case Close(id) => [CLOSE] + U16(id)
    case Icmp(p) => [ICMP] + U16(|p|) + p
  }

  datatype Parsed = Incomplete | Malformed | Got(frame: Frame, length: nat)

  /** `PipelineRequest::parse` without its integer result: the frame at the front of `s`. */
  function ParseFrame(s: bytes): (r: Parsed)
    ensures r.Got? ==> 3 <= r.length <= |s|
  {
    if |s| < 1 then Incomplete
    else if s[0] >= MAX_COMMANDS then Malformed
    else if s[0] == DATA then
      if |s| < 7 then Incomplete
      else
        var n := ReadU32(s, 3);
        if |s| < 7 + n then Incomplete else Got(Data(ReadU16(s, 1), s[7..7 + n]), 7 + n)
    else if s[0] == ICMP then
      if |s| < 3 then Incomplete
      else
        var n := ReadU16(s, 1);
        if |s| < 3 + n then Incomplete else Got(Icmp(s[3..3 + n]), 3 + n)
    else if s[0] == ACK then
      if |s| < 5 then Incomplete else Got(Ack(ReadU16(s, 1), ReadU16(s, 3)), 5)
    else if |s| < 3 then Incomplete
    else Got(if s[0] == CONNECT then Connect(ReadU16(s, 1)) else Close(ReadU16(s, 1)), 3)
  }

  /** The integer `parse` returns: an error code, or the payload length narrowed to `int`. */
  function Code(p: Parsed): (r: int) {
    match p
    case Incomplete => -1
    case Malformed => -2
    case Got(f, _) => AsInt32(|Payload(f)|)
  }

  /** What a caller of `parse` does, which only looks at the integer. */
  function Next(s: bytes): (r: Parsed)
    ensures r.Got? ==> r == ParseFrame(s)
  {
    var p := ParseFrame(s);
    if Code(p) == -1 then Incomplete else if Code(p) == -2 then Malformed else p
  }

  /** A frame that both ends can exchange: the receiver does not take its length for an error. */
  predicate Sendable(f: Frame) {
    Legal(f) && |Payload(f)| != 0xFFFF_FFFE
  }

  // ---- one frame ----

  lemma U32RoundTrip(v: nat, pre: bytes, post: bytes)
    requires v < 0x1_0000_0000
    ensures ReadU32(pre + U32(v) + post, |pre|) == v
  {
    var s := pre + U32(v) + post;
    var i := |pre|;
    assert s[i] == v / 0x100_0000 && s[i + 1] == v / 0x1_0000 % 0x100;
    assert s[i + 2] == v / 0x100 % 0x100 && s[i + 3] == v % 0x100;
    assert v / 0x1_0000 == v / 0x100_0000 * 0x100 + v / 0x1_0000 % 0x100;
    assert v / 0x100 == v / 0x1_0000 * 0x100 + v / 0x100 % 0x100;
  }

  lemma ParseData(id: u16, p: bytes, rest: bytes)
    requires |p| < MAX_DATA_LENGTH
    ensures ParseFrame(Encode(Data(id, p)) + rest) == Got(Data(id, p), 7 + |p|)
  {
    var head := [DATA] + U16(id);
    var s := Encode(Data(id, p)) + rest;
    assert s == head + U32(|p|) + (p + rest);
    U32RoundTrip(|p|, head, p + rest);
    assert s[0] == DATA && s[1] == id / 0x100 && s[2] == id % 0x100;
    assert s[7..7 + |p|] == p;
  }

  lemma ParseIcmp(p: bytes, rest: bytes)
    requires |p| < MAX_ICMP_LENGTH
    ensures ParseFrame(Encode(Icmp(p)) + rest) == Got(Icmp(p), 3 + |p|)
  {
  }

  /** A complete encoding parses to its frame whatever follows it. */
  lemma ParseEncoded(f: Frame, rest: bytes)
    requires Legal(f)
    ensures ParseFrame(Encode(f) + rest) == Got(f, |Encode(f)|)
  {
    match f
    case Data(id, p) => ParseData(id, p, rest);
    case Icmp(p) => ParseIcmp(p, rest);
    case Ack(id, n) =>
      var s := Encode(f) + rest;
      assert s[..5] == [ACK, id / 0x100, id % 0x100, n / 0x100, n % 0x100];
    case Connect(id) =>
      var s := Encode(f) + rest;
      assert s[..3] == [CONNECT, id / 0x100, id % 0x100];
    case Close(id) =>
      var s := Encode(f) + rest;
      assert s[..3] == [CLOSE, id / 0x100, id % 0x100];
  }

  /** The receiver takes an encoded frame off any stream, unless its length narrows to an error code. */
  lemma SelfDelimiting(f: Frame, rest: bytes)
    requires Legal(f)
    ensures Next(Encode(f) + rest) == Got(f, |Encode(f)|) <==> Sendable(f)
  {
    ParseEncoded(f, rest);
  }

  /** A frame cut short anywhere is reported as incomplete. */
  lemma ProperPrefix(f: Frame, k: nat)
    requires Legal(f) && k < |Encode(f)|
    ensures Next(Encode(f)[..k]) == Incomplete
  {
    var e := Encode(f);
    var s := e[..k];
    ParseEncoded(f, []);
    assert e + [] == e;
    if k >= 1 {
      assert s[0] == e[0];
      if f.Data? && k >= 7 {
        assert s[3..7] == e[3..7];
        assert ReadU32(s, 3) == ReadU32(e, 3);
      }
      if f.Icmp? && k >= 3 {
        assert s[1..3] == e[1..3];
      }
    }
  }

  /** A verdict other than "incomplete" never changes when more bytes arrive. */
  lemma Stable(a: bytes, b: bytes)
    requires Next(a) != Incomplete
    ensures Next(a + b) == Next(a)
  {
    var s := a + b;
    assert s[0] == a[0];
    if ParseFrame(a).Got? {
      var n := ParseFrame(a).length;
      assert s[..n] == a[..n];
      if a[0] == DATA {
        assert ReadU32(s, 3) == ReadU32(a, 3);
        assert s[7..n] == a[7..n];
      }
      if a[0] == ICMP {
        assert s[3..n] == a[3..n];
      }
    }
  }

  // ---- the receive loop ----

  datatype Drained = Drained(frames: seq<Frame>, rest: bytes, ok: bool)

  /** Frames dispatched from a buffer, in order, what stays buffered, and whether the format was right. */
  function Drain(s: bytes): (d: Drained) {
    match Next(s)
    case Incomplete => Drained([], s, true)
    case Malformed => Drained([], s, false)
    case Got(f, n) => var d := Drain(s[n..]); Drained([f] + d.frames, d.rest, d.ok)
  }

  /** One more read. After a format error the connection is gone and nothing is dispatched again. */
  function Feed(d: Drained, chunk: bytes): (r: Drained) {
    if !d.ok then d.(rest := d.rest + chunk)
    else var e := Drain(d.rest + chunk); Drained(d.frames + e.frames, e.rest, e.ok)
  }

  function FeedAll(d: Drained, chunks: seq<bytes>): (r: Drained)
    decreases |chunks|
  {
    if chunks == [] then d else FeedAll(Feed(d, chunks[0]), chunks[1..])
  }

  lemma Associative<T>(a: seq<T>, b: seq<T>, c: seq<T>)
    ensures (a + b) + c == a + (b + c)
    ensures ((a + b) + c)[|a|..] == b + c
  {
  }

  lemma {:induction false} DrainSplit(a: bytes, b: bytes)
    ensures Drain(a + b) == Feed(Drain(a), b)
    decreases |a|
  {
    hide ParseFrame, Next;
    match Next(a)
    case Incomplete =>
    case Malformed =>
      Stable(a, b);
    case Got(f, n) =>
      Stable(a, b);
      assert (a + b)[n..] == a[n..] + b;
      DrainSplit(a[n..], b);
      Associative([f], Drain(a[n..]).frames, Drain(Drain(a[n..]).rest + b).frames);
  }

  /** For every byte stream, well formed or not, and every way of cutting it into reads, the loop
      dispatches the same frames and keeps the same rest. */
  lemma {:induction false} ChunkingIndependent(d: Drained, s: bytes, chunks: seq<bytes>)
    requires d == Drain(s)
    ensures FeedAll(d, chunks) == Drain(s + Concat(chunks))
    decreases |chunks|
  {
    hide Drain;
    if chunks == [] {
      assert s + Concat(chunks) == s;
    } else {
      DrainSplit(s, chunks[0]);
      ChunkingIndependent(Feed(d, chunks[0]), s + chunks[0], chunks[1..]);
      Associative(s, chunks[0], Concat(chunks[1..]));
    }
  }

  predicate AllSendable(fs: seq<Frame>) {
    forall i :: 0 <= i < |fs| ==> Sendable(fs[i])
  }

  function EncodeAll(fs: seq<Frame>): (r: bytes)
    requires AllSendable(fs)
  {
    if fs == [] then [] else Encode(fs[0]) + EncodeAll(fs[1..])
  }

  lemma {:induction false} DrainEncoded(fs: seq<Frame>, tail: bytes)
    requires AllSendable(fs)
    requires Next(tail) == Incomplete
    ensures Drain(EncodeAll(fs) + tail) == Drained(fs, tail, true)
  {
    hide ParseFrame, Encode, Next, Legal;
    if fs == [] {
      assert EncodeAll(fs) + tail == tail;
    } else {
      var e, more := Encode(fs[0]), EncodeAll(fs[1..]);
      Associative(e, more, tail);
      SelfDelimiting(fs[0], more + tail);
      DrainEncoded(fs[1..], tail);
      assert fs == [fs[0]] + fs[1..];
    }
  }

  /** The frames sent are the frames dispatched: with `k` bytes of the next frame still to come, any
      reads of the stream dispatch exactly the complete frames and keep the cut one. */
  lemma StreamRoundTrip(fs: seq<Frame>, last: Frame, k: nat, chunks: seq<bytes>)
    requires AllSendable(fs)
    requires Sendable(last) && k < |Encode(last)|
    requires Concat(chunks) == EncodeAll(fs) + Encode(last)[..k]
    ensures FeedAll(Drained([], [], true), chunks) == Drained(fs, Encode(last)[..k], true)
  {
    ProperPrefix(last, k);
    DrainEncoded(fs, Encode(last)[..k]);
    ChunkingIndependent(Drained([], [], true), [], chunks);
    assert [] + Concat(chunks) == Concat(chunks);
  }

  lemma NextEmpty()
    ensures Next([]) == Incomplete
  {
  }

  /** A frame appended to a stream that ends on a frame boundary. */
  lemma DrainAppend(s: bytes, f: Frame)
    requires Drain(s).ok && Drain(s).rest == [] && Sendable(f)
    ensures Drain(s + Encode(f)) == Drained(Drain(s).frames + [f], [], true)
  {
    hide ParseFrame, Encode, Drain, Legal;
    DrainSplit(s, Encode(f));
    NextEmpty();
    DrainEncoded([f], []);
    assert [f][1..] == [] && EncodeAll([f]) == Encode(f) + EncodeAll([]);
    assert EncodeAll([f]) + [] == Encode(f);
    assert [] + Encode(f) == Encode(f);
  }

  // ---- the code itself ----

  function CommandByte(f: Frame): (c: byte) {
    match f
    case Connect(_) => CONNECT
    case Data(_, _) => DATA
    case Ack(_, _) => ACK
    case Close(_) => CLOSE
    case Icmp(_) => ICMP
  }

  /** The frame a call of `generate` asks for; the acknowledgement count is cut to 16 bits. */
  function Requested(cmd: byte, id: u16, data: bytes, ack: nat): (f: Frame)
    requires cmd < MAX_COMMANDS
  {
    if cmd == CONNECT then Connect(id)
    else if cmd == DATA then Data(id, data)
    else if cmd == ACK then Ack(id, ack % 0x1_0000)
    else if cmd == CLOSE then Close(id)
    else Icmp(data)
  }

  class PipelineRequest {
    var command: byte
    var sessionId: u16
    var packetData: bytes
    var ackCount: u16
    var consumeLength: nat

    constructor ()
      ensures packetData == []
    {
      command, sessionId, packetData, ackCount, consumeLength := 0, 0, [], 0, 0;
    }

    /** The fields describe this frame, as far as its command uses them. */
    ghost predicate Holds(f: Frame, length: nat)
      reads this
    {
      && command == CommandByte(f)
      && consumeLength == length
      && packetData == Payload(f)
      && sessionId == (if f.Icmp? then 0 else f.id)
      && (f.Ack? ==> ackCount == f.count)
    }

    method Parse(data: bytes) returns (ret: int)
      requires packetData == []
      modifies this
      ensures ret == Code(ParseFrame(data))
      ensures ParseFrame(data).Got? ==> Holds(ParseFrame(data).frame, ParseFrame(data).length)
    {
      if |data| < 1 {
        return -1;
      }
      if data[0] >= MAX_COMMANDS {
        return -2;
      }
      command := data[0];
      if command == DATA {
        if |data| < 7 {
          return -1;
        }
        var requestLength := ReadU32(data, 3);
        if |data| < 7 + requestLength {
          return -1;
        }
        sessionId := ReadU16(data, 1);
        packetData := data[7..7 + requestLength];
        consumeLength := 7 + requestLength;
      } else if command == ICMP {
        if |data| < 3 {
          return -1;
        }
        var icmpLength: nat := ReadU16(data, 1);
        if |data| < 3 + icmpLength {
          return -1;
        }
        sessionId := 0;
        packetData := data[3..3 + icmpLength];
        consumeLength := 3 + icmpLength;
      } else if command == ACK {
        if |data| < 5 {
          return -1;
        }
        sessionId := ReadU16(data, 1);
        ackCount := ReadU16(data, 3);
        consumeLength := 5;
      } else {
        if |data| < 3 {
          return -1;
        }
        sessionId := ReadU16(data, 1);
        consumeLength := 3;
      }
      return AsInt32(|packetData|);
    }

    /** False is the source's `logic_error`; the header bytes written before it stay in the buffer. */
    static method Generate(buf: StreamBuf, cmd: byte, id: u16, data: bytes, ack: nat) returns (ok: bool)
      requires cmd < MAX_COMMANDS
      modifies buf
      ensures ok <==> (cmd == ICMP ==> |data| < MAX_ICMP_LENGTH) && (cmd == DATA ==> |data| < MAX_DATA_LENGTH)
      ensures ok ==> buf.data == old(buf.data) + Encode(Requested(cmd, id, data, ack))
      ensures !ok ==> buf.data == old(buf.data) + [cmd] + (if cmd == DATA then U16(id) else [])
    {
      ghost var was := buf.data;
      buf.Append([cmd]);
      if cmd == ICMP {
        if |data| >= MAX_ICMP_LENGTH {
          return false;
        }
        buf.Append(U16(|data|));
        buf.Append(data);
        assert buf.data == was + ([cmd] + U16(|data|) + data);
      } else {
        buf.Append(U16(id));
        if cmd == DATA {
          if |data| >= MAX_DATA_LENGTH {
            return false;
          }
          buf.Append(U32(|data|));
          buf.Append(data);
          assert buf.data == was + ([cmd] + U16(id) + U32(|data|) + data);
        } else if cmd == ACK {
          buf.Append(U16(ack % 0x1_0000));
          assert buf.data == was + ([cmd] + U16(id) + U16(ack % 0x1_0000));
        } else {
          assert buf.data == was + ([cmd] + U16(id));
        }
      }
      return true;
    }
  }

  /** The read buffer of one end and the frames it has dispatched so far. */
  class FrameReader {
    const buf: StreamBuf
    var dispatched: seq<Frame>
    var destroyed: bool

    constructor ()
      ensures fresh(buf) && State() == Drained([], [], true)
    {
      buf := new StreamBuf();
      dispatched, destroyed := [], false;
    }

    ghost function State(): (d: Drained)
      reads this, buf
    {
      Drained(dispatched, buf.data, !destroyed)
    }

    /** One completed read: commit the bytes, then parse and dispatch until the buffer runs short. */
    method Received(chunk: bytes)
      requires !destroyed
      modifies this, buf
      ensures State() == Feed(old(State()), chunk)
    {
      hide ParseFrame;
      NextEmpty();
      buf.Append(chunk);
      ghost var whole := buf.data;
      ghost var before := dispatched;
      while |buf.data| != 0
        invariant !destroyed
        invariant Drain(whole).ok == Drain(buf.data).ok && Drain(whole).rest == Drain(buf.data).rest
        invariant before + Drain(whole).frames == dispatched + Drain(buf.data).frames
        decreases |buf.data|
      {
        var req := new PipelineRequest();
        var ret := req.Parse(buf.data);
        if ret == -1 {
          break;
        }
        if ret == -2 {
          destroyed := true;
          break;
        }
        var f := ParseFrame(buf.data).frame;
        dispatched := dispatched + [f];
        buf.Consume(req.consumeLength);
        Associative(dispatched[..|dispatched| - 1], [f], Drain(buf.data).frames);
      }
    }
  }
}
