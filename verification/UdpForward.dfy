/** `UDPForwardSession`: datagrams of one local endpoint sent to one target over a trojan stream, and
    the datagrams that come back on it. */
module UdpForward {
  import opened Bytes
  import opened Trojan
  import opened Udp

  datatype Status = Connect | Forward | Forwarding | Destroy

  /** The fixed parameters of a session: the password, and the target's address as text. */
  datatype Target = Target(password: bytes, address: bytes, port: u16)

  /** The sending side: `buffer` is out_write_buf, `sent` what has been handed to the writer so far,
      `outstanding` the writes not completed, `arrived` the datagrams accepted, `connecting` that the
      connection may still come up. */
  datatype Sender = Sender(
    status: Status,
    buffer: bytes,
    sent: bytes,
    outstanding: nat,
    arrived: seq<bytes>,
    connecting: bool)

  function Header(t: Target): (r: bytes) {
    GenerateRequest(t.password, t.address, t.port, false)
  }

  function Write(m: Sender): (r: Sender) {
    m.(buffer := [], sent := m.sent + m.buffer, outstanding := m.outstanding + 1)
  }

  function Start(t: Target): (r: Sender) {
    Sender(Connect, Header(t), [], 0, [], true)
  }

  /** `in_recv`. */
  function Arrive(t: Target, m: Sender, data: bytes): (r: Sender) {
    if m.status == Destroy then m
    else
      var q := m.(buffer := m.buffer + GenerateDomain(t.address, t.port, data), arrived := m.arrived + [data]);
      if m.status == Forward then Write(q.(status := Forwarding)) else q
  }

  /** The continuation of the connection, which does not look at the status: a session ended meanwhile
      comes back. `bound` is the outcome of binding the NAT socket. */
  function Connected(m: Sender, bound: bool): (r: Sender) {
    var q := m.(connecting := false);
    if !bound then q.(status := Destroy) else Write(q.(status := Forwarding))
  }

  /** The completion of a write, and `out_sent`. */
  function WriteDone(m: Sender, ok: bool): (r: Sender)
    requires m.outstanding > 0
  {
    var q := m.(outstanding := m.outstanding - 1);
    if !ok then q.(status := Destroy)
    else if m.status != Forwarding then q
    else if m.buffer == [] then q.(status := Forward)
    else Write(q)
  }

  datatype Event = Arrives(data: bytes) | Connects(bound: bool) | Completes(ok: bool) | Ends

  predicate Enabled(m: Sender, e: Event) {
    match e
    case Connects(_) => m.connecting
    case Completes(_) => m.outstanding > 0
    case _ => true
  }

  function Step(t: Target, m: Sender, e: Event): (r: Sender)
    requires Enabled(m, e)
  {
    match e
    case Arrives(data) => Arrive(t, m, data)
    case Connects(bound) => Connected(m, bound)
    case Completes(ok) => WriteDone(m, ok)
    case Ends => m.(status := Destroy)
  }

  ghost predicate IsRun(t: Target, m: Sender, events: seq<Event>)
    decreases |events|
  {
    events == [] || (Enabled(m, events[0]) && IsRun(t, Step(t, m, events[0]), events[1..]))
  }

  function Run(t: Target, m: Sender, events: seq<Event>): (r: Sender)
    requires IsRun(t, m, events)
    decreases |events|
  {
    if events == [] then m else Run(t, Step(t, m, events[0]), events[1..])
  }

  function Encoded(t: Target, arrived: seq<bytes>): (r: bytes) {
    if arrived == [] then []
    else Encoded(t, arrived[..|arrived| - 1]) + GenerateDomain(t.address, t.port, arrived[|arrived| - 1])
  }

  /** While the session lives, or may come back: one write exactly while FORWARDING and none otherwise;
      nothing is left in the buffer in FORWARD; and what was sent, with what is buffered, is the request
      and every datagram it took. */
  predicate Sound(t: Target, m: Sender) {
    && (m.status == Connect ==> m.connecting)
    && (m.connecting ==> (m.status == Connect || m.status == Destroy) && m.sent == [] && m.outstanding == 0)
    && (m.status != Destroy || m.connecting ==>
          && m.outstanding == (if m.status == Forwarding then 1 else 0)
          && (m.buffer != [] ==> m.connecting || m.status == Forwarding)
          && m.sent + m.buffer == Header(t) + Encoded(t, m.arrived))
  }

  lemma StepSound(t: Target, m: Sender, e: Event)
    requires Sound(t, m) && Enabled(m, e)
    ensures Sound(t, Step(t, m, e))
  {
    hide GenerateRequest, GenerateDomain;
    if e.Arrives? && m.status != Destroy {
      var g := GenerateDomain(t.address, t.port, e.data);
      var more := m.arrived + [e.data];
      assert more[..|more| - 1] == m.arrived;
      assert m.sent + (m.buffer + g) == (m.sent + m.buffer) + g;
      assert Header(t) + (Encoded(t, m.arrived) + g) == (Header(t) + Encoded(t, m.arrived)) + g;
    }
  }

  /** Over every run. */
  lemma {:induction false} RunSound(t: Target, m: Sender, events: seq<Event>)
    requires Sound(t, m) && IsRun(t, m, events)
    ensures Sound(t, Run(t, m, events))
    decreases |events|
  {
    hide Sound, Step;
    if events != [] {
      StepSound(t, m, events[0]);
      RunSound(t, Step(t, m, events[0]), events[1..]);
    }
  }

  lemma StartSound(t: Target)
    ensures Sound(t, Start(t))
  {
  }

  function DatagramsTo(t: Target, arrived: seq<bytes>): (ds: seq<Datagram>)
    ensures |ds| == |arrived|
    ensures forall i :: 0 <= i < |ds| ==> ds[i] == Datagram(Domain(t.address, t.port), arrived[i])
  {
    seq(|arrived|, i requires 0 <= i < |arrived| => Datagram(Domain(t.address, t.port), arrived[i]))
  }

  predicate ValidTarget(t: Target) {
    NoCrlf(t.password) && 1 <= |t.address| <= 255
  }

  predicate AllShort(arrived: seq<bytes>) {
    forall i :: 0 <= i < |arrived| ==> |arrived[i]| < 0x1_0000
  }

  lemma GeneratesPacket(name: bytes, port: u16, payload: bytes)
    requires 1 <= |name| <= 255 && |payload| < 0x1_0000
    ensures GenerateDomain(name, port, payload) == EncodePacket(Datagram(Domain(name, port), payload))
  {
  }

  lemma {:induction false} EncodeAllAppend(ds: seq<Datagram>, d: Datagram)
    requires AllValid(ds) && ValidDatagram(d)
    ensures EncodeAll(ds + [d]) == EncodeAll(ds) + EncodePacket(d)
  {
    hide EncodePacket, ValidDatagram;
    if ds == [] {
      assert ds + [d] == [d];
    } else {
      assert (ds + [d])[1..] == ds[1..] + [d];
      EncodeAllAppend(ds[1..], d);
    }
  }

  lemma {:induction false} EncodedIs(t: Target, arrived: seq<bytes>)
    requires ValidTarget(t) && AllShort(arrived)
    ensures AllValid(DatagramsTo(t, arrived))
    ensures Encoded(t, arrived) == EncodeAll(DatagramsTo(t, arrived))
  {
    hide NoCrlf, EncodePacket, GenerateDomain;
    var ds := DatagramsTo(t, arrived);
    if arrived != [] {
      var n := |arrived| - 1;
      EncodedIs(t, arrived[..n]);
      assert ds[..n] == DatagramsTo(t, arrived[..n]);
      assert ds == ds[..n] + [ds[n]];
      EncodeAllAppend(ds[..n], ds[n]);
      GeneratesPacket(t.address, t.port, arrived[n]);
    }
  }

  lemma {:induction false} LongerThanPrefix(ds: seq<Datagram>, j: nat)
    requires AllValid(ds) && j < |ds|
    ensures AllValid(ds[..j]) && |EncodeAll(ds)| >= |EncodeAll(ds[..j])| + |EncodePacket(ds[j])|
  {
    hide ValidDatagram, EncodePacket;
    if j > 0 {
      LongerThanPrefix(ds[1..], j - 1);
      assert ds[..j][1..] == ds[1..][..j - 1];
    }
  }

  lemma {:induction false} CutOfAll(ds: seq<Datagram>, j: nat, p: bytes)
    requires AllValid(ds) && CutAt(ds, EncodeAll(ds), j, p)
    ensures j == |ds| && p == []
  {
    hide ValidDatagram, EncodePacket;
    if j < |ds| {
      LongerThanPrefix(ds, j);
    }
  }

  lemma TakeAllOf(ds: seq<Datagram>)
    requires AllValid(ds)
    ensures Take(EncodeAll(ds)) == Taken(ds, [])
  {
    hide ValidDatagram, EncodePacket, Take;
    var s := EncodeAll(ds);
    var j, p := TakePrefix(ds, s);
    CutOfAll(ds, j, p);
    assert ds[..|ds|] == ds;
  }

  /** Whatever the run, the far side reads the stream as one UDP ASSOCIATE request for the target,
      followed by exactly the datagrams that arrived, in order. */
  lemma StreamIsUnderstood(t: Target, events: seq<Event>)
    requires ValidTarget(t) && IsRun(t, Start(t), events)
    requires Run(t, Start(t), events).status != Destroy
    requires AllShort(Run(t, Start(t), events).arrived)
    ensures var m := Run(t, Start(t), events);
      exists payload: bytes ::
        && ParseRequest(m.sent + m.buffer) ==
             Some(Request(t.password, UDP_ASSOCIATE, Domain(t.address, t.port), payload))
        && Take(payload) == Taken(DatagramsTo(t, m.arrived), [])
  {
    hide NoCrlf, ParseRequest, EncodeAll, ValidDatagram, DatagramsTo, EncodePacket, GenerateRequest, IsRun;
    var m := Run(t, Start(t), events);
    StartSound(t);
    RunSound(t, Start(t), events);
    EncodedIs(t, m.arrived);
    var ds := DatagramsTo(t, m.arrived);
    var payload := Encoded(t, m.arrived);
    RequestRoundTrip(t.password, t.address, t.port, false, payload);
    TakeAllOf(ds);
  }

  /** At most `n` datagrams off the front of a stream. */
  function TakeSome(s: bytes, n: nat): (t: Taken)
    decreases n
  {
    if n == 0 then Taken([], s)
    else
      match ParsePacket(s)
      case None => Taken([], s)
      case Some(p) =>
        var t := TakeSome(s[p.length..], n - 1);
        Taken([p.datagram] + t.datagrams, t.rest)
  }

  /** All of them, if none is left at the front. */
  lemma {:induction false} TakeSomeIs(s: bytes, n: nat)
    ensures ParsePacket(TakeSome(s, n).rest).None? ==> TakeSome(s, n) == Take(s)
    decreases n
  {
    hide ParsePacket;
    if n > 0 && ParsePacket(s).Some? {
      TakeSomeIs(s[ParsePacket(s).value.length..], n - 1);
    }
  }

  class UdpForwardSession {
    const target: Target
    const recvEndpoint: Address
    var status: Status
    const outWriteBuf: StreamBuf
    const udpDataBuf: StreamBuf

    ghost var sent: bytes
    ghost var outstanding: nat
    ghost var connecting: bool
    ghost var arrived: seq<bytes>
    ghost var delivered: seq<Datagram>

    ghost function Sending(): (m: Sender)
      reads this, outWriteBuf
    {
      Sender(status, outWriteBuf.data, sent, outstanding, arrived, connecting)
    }

    ghost function Receiving(): (r: Reassembly)
      reads this, udpDataBuf
    {
      Reassembly(delivered, udpDataBuf.data, status == Forward || status == Forwarding)
    }

    ghost predicate Valid()
      reads this, outWriteBuf
    {
      outWriteBuf != udpDataBuf && Sound(target, Sending())
    }

    /** `start_udp`, up to the connection. */
    constructor (t: Target, endpoint: Address, data: bytes)
      ensures Valid() && fresh(outWriteBuf) && fresh(udpDataBuf)
      ensures target == t && recvEndpoint == endpoint
      ensures Sending() == Arrive(t, Start(t), data)
      ensures delivered == [] && udpDataBuf.data == []
    {
      target, recvEndpoint := t, endpoint;
      status := Connect;
      outWriteBuf := new StreamBuf();
      udpDataBuf := new StreamBuf();
      sent, outstanding, arrived, delivered, connecting := [], 0, [], [], true;
      new;
      hide GenerateRequest, GenerateDomain, Sound;
      outWriteBuf.Append(GenerateRequest(t.password, t.address, t.port, false));
      assert outWriteBuf.data == Header(t);
      StartSound(t);
      var done := Process(endpoint, data);
    }

    method Process(endpoint: Address, data: bytes) returns (ours: bool)
      requires Valid()
      modifies this, outWriteBuf
      ensures Valid() && ours == (endpoint == recvEndpoint)
      ensures Sending() == if ours then Arrive(target, old(Sending()), data) else old(Sending())
      ensures delivered == old(delivered)
    {
      if endpoint != recvEndpoint {
        return false;
      }
      InRecv(data);
      return true;
    }

    method InRecv(data: bytes)
      requires Valid()
      modifies this, outWriteBuf
      ensures Valid() && Sending() == Arrive(target, old(Sending()), data)
      ensures delivered == old(delivered)
    {
      hide GenerateDomain, Sound;
      StepSound(target, Sending(), Arrives(data));
      if status == Destroy {
        return;
      }
      UdpPacket.Generate(outWriteBuf, target.address, target.port, data);
      arrived := arrived + [data];
      if status == Forward {
        status := Forwarding;
        OutAsyncWrite(outWriteBuf.data);
        outWriteBuf.Consume(|outWriteBuf.data|);
      }
    }

    method OutAsyncWrite(data: bytes)
      modifies this`sent, this`outstanding
      ensures sent == old(sent) + data && outstanding == old(outstanding) + 1
    {
      sent, outstanding := sent + data, outstanding + 1;
    }

    method OnConnected(bound: bool)
      requires Valid() && connecting
      modifies this, outWriteBuf
      ensures Valid() && Sending() == Connected(old(Sending()), bound)
      ensures delivered == old(delivered)
    {
      hide Sound;
      StepSound(target, Sending(), Connects(bound));
      connecting := false;
      if !bound {
        status := Destroy;
        return;
      }
      status := Forwarding;
      OutAsyncWrite(outWriteBuf.data);
      outWriteBuf.Consume(|outWriteBuf.data|);
    }

    method OutSent(ok: bool)
      requires Valid() && outstanding > 0
      modifies this, outWriteBuf
      ensures Valid() && Sending() == WriteDone(old(Sending()), ok)
      ensures delivered == old(delivered)
    {
      hide Sound;
      StepSound(target, Sending(), Completes(ok));
      outstanding := outstanding - 1;
      if !ok {
        status := Destroy;
      } else if status == Forwarding {
        if |outWriteBuf.data| == 0 {
          status := Forward;
        } else {
          OutAsyncWrite(outWriteBuf.data);
          outWriteBuf.Consume(|outWriteBuf.data|);
        }
      }
    }

    /** The loop over what came back. `good` is how many datagrams the NAT socket sends before one fails, or
        any number where it does not; the failing one stays in the buffer. */
    method OutRecv(data: bytes, good: nat)
      requires Valid()
      modifies this, udpDataBuf
      ensures Valid()
      ensures var t := TakeSome(old(udpDataBuf.data) + data, good);
        if old(Receiving().alive) && ParsePacket(t.rest).Some? then
          Receiving() == Reassembly(old(delivered) + t.datagrams, t.rest, false)
        else Receiving() == Receive(old(Receiving()), data)
      ensures Sending() ==
        old(Sending()).(status := if old(Receiving().alive) && !Receiving().alive then Destroy else old(status))
    {
      hide ParsePacket, Sound;
      if status != Forward && status != Forwarding {
        return;
      }
      StepSound(target, Sending(), Ends);
      udpDataBuf.Append(data);
      ghost var all := udpDataBuf.data;
      var left := good;
      while true
        invariant status == old(status) && Sending() == old(Sending()) && Valid()
        invariant TakeSome(all, good).rest == TakeSome(udpDataBuf.data, left).rest
        invariant old(delivered) + TakeSome(all, good).datagrams
               == delivered + TakeSome(udpDataBuf.data, left).datagrams
        decreases |udpDataBuf.data|
      {
        var packet := new UdpPacket();
        var ok, length := packet.Parse(udpDataBuf.data);
        if !ok {
          if |udpDataBuf.data| > MAX_BUF_LENGTH {
            status := Destroy;
          }
          break;
        }
        if left == 0 {
          status := Destroy;
          break;
        }
        ghost var was, d := delivered, Datagram(packet.address.Value(), packet.payload);
        delivered := delivered + [d];
        udpDataBuf.Consume(length);
        left := left - 1;
        assert (was + [d]) + TakeSome(udpDataBuf.data, left).datagrams
            == was + ([d] + TakeSome(udpDataBuf.data, left).datagrams);
      }
      TakeSomeIs(all, good);
    }
  }
}
