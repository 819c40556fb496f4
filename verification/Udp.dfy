/** Datagrams carried over a stream: `UDPPacket::generate`, `UDPPacket::parse`, and the loop that cuts
    a received stream back into datagrams. */
module Udp {
  import opened Bytes
  import opened Trojan

  datatype Datagram = Datagram(address: Address, payload: bytes)

  datatype Packet = Packet(datagram: Datagram, length: nat)

  /** `UDPPacket::parse`; None is its false. */
  function ParsePacket(s: bytes): (r: Option<Packet>)
    ensures r.Some? ==> 9 <= r.value.length <= |s|
  {
    match ParseAddress(s)
    case None => None
    case Some(l) =>
      if |s| < l.length + 2 then None
      else
        var n := ReadU16(s, l.length) as int;
        if |s| < l.length + 4 + n || s[l.length + 2..l.length + 4] != CRLF then None
        else Some(Packet(Datagram(l.address, s[l.length + 4..l.length + 4 + n]), l.length + 4 + n))
  }

  predicate ValidDatagram(d: Datagram) {
    ValidAddress(d.address) && |d.payload| < 0x1_0000
  }

  function EncodePacket(d: Datagram): (r: bytes)
    requires ValidDatagram(d)
  {
    EncodeAddress(d.address) + (U16(|d.payload|) + CRLF + d.payload)
  }

  lemma PacketRoundTrip(d: Datagram, rest: bytes)
    requires ValidDatagram(d)
    ensures ParsePacket(EncodePacket(d) + rest) == Some(Packet(d, |EncodePacket(d)|))
  {
    hide ParseAddress, EncodeAddress, ValidAddress;
    var a, n := EncodeAddress(d.address), |d.payload|;
    var tail := U16(n) + CRLF + d.payload;
    var s := EncodePacket(d) + rest;
    assert s == a + (tail + rest);
    AddressRoundTrip(d.address, tail + rest);
    assert s[|a|] == n / 0x100 && s[|a| + 1] == n % 0x100;
    assert s[|a| + 2..|a| + 4] == CRLF;
    assert s[|a| + 4..|a| + 4 + n] == d.payload;
  }

  lemma PacketPrefix(d: Datagram, k: nat)
    requires ValidDatagram(d) && k < |EncodePacket(d)|
    ensures ParsePacket(EncodePacket(d)[..k]) == None
  {
  }

  lemma PacketStable(a: bytes, b: bytes)
    requires ParsePacket(a).Some?
    ensures ParsePacket(a + b) == ParsePacket(a)
  {
    hide ParseAddress;
    AddressStable(a, b);
    var l := ParseAddress(a).value.length;
    var n := ReadU16(a, l) as int;
    var s := a + b;
    assert s[l] == a[l] && s[l + 1] == a[l + 1];
    assert s[l + 2..l + 4] == a[l + 2..l + 4];
    assert s[l + 4..l + 4 + n] == a[l + 4..l + 4 + n];
  }

  /** The parser accepts encodings and nothing else. */
  lemma PacketCanonical(s: bytes)
    requires ParsePacket(s).Some?
    ensures ValidDatagram(ParsePacket(s).value.datagram)
    ensures EncodePacket(ParsePacket(s).value.datagram) == s[..ParsePacket(s).value.length]
  {
    hide ParseAddress, EncodeAddress, ValidAddress;
    AddressCanonical(s);
    var n := ParseAddress(s).value.length;
    var d := ParsePacket(s).value.datagram;
    var k := ReadU16(s, n) as int;
    assert U16(k) == s[n..n + 2];
    assert s[..n + 4 + k] == s[..n] + (s[n..n + 2] + s[n + 2..n + 4] + s[n + 4..n + 4 + k]);
  }

  lemma EmptyAddress()
    ensures ParseAddress([]) == None
  {
  }

  /** `UDPPacket::generate` for a domain name: both lengths are cut to their fields. */
  function GenerateDomain(name: bytes, port: u16, payload: bytes): (r: bytes) {
    [DOMAINNAME, |name| % 0x100] + name + U16(port) + U16(|payload| % 0x1_0000) + CRLF + payload
  }

  class UdpPacket {
    const address: Socks5Address
    var length: u16
    var payload: bytes

    constructor ()
      ensures fresh(address)
    {
      address := new Socks5Address();
      length, payload := 0, [];
    }

    method Parse(data: bytes) returns (ok: bool, packetLength: nat)
      modifies this, address
      ensures ParsePacket(data) == if ok then Some(Packet(Datagram(address.Value(), payload), packetLength)) else None
      ensures if ok then length == |payload| else payload == old(payload)
    {
      hide ParseAddress;
      EmptyAddress();
      if |data| <= 0 {
        return false, 0;
      }
      var found, n := address.Parse(data);
      if !found || |data| < n + 2 {
        return false, 0;
      }
      length := ReadU16(data, n);
      if |data| < n + 4 + length || data[n + 2..n + 4] != CRLF {
        return false, 0;
      }
      payload := data[n + 4..n + 4 + length];
      return true, n + 4 + length;
    }

    static method Generate(buf: StreamBuf, domain: bytes, port: u16, payload: bytes)
      modifies buf
      ensures buf.data == old(buf.data) + GenerateDomain(domain, port, payload)
    {
      buf.Append([DOMAINNAME]);
      buf.Append([|domain| % 0x100]);
      buf.Append(domain);
      buf.Append(U16(port));
      buf.Append(U16(|payload| % 0x1_0000));
      buf.Append(CRLF);
      buf.Append(payload);
    }

    static method GenerateTo(buf: StreamBuf, endpoint: Address, payload: bytes)
      requires ValidAddress(endpoint) && !endpoint.Domain?
      modifies buf
      ensures buf.data == old(buf.data) + GenerateAddress(endpoint) + U16(|payload| % 0x1_0000) + CRLF + payload
    {
      Socks5Address.Generate(buf, endpoint);
      buf.Append(U16(|payload| % 0x1_0000));
      buf.Append(CRLF);
      buf.Append(payload);
    }
  }

  // ---- what the sources generate ----

  lemma DomainRoundTripIff(name: bytes, port: u16, payload: bytes)
    ensures var g := GenerateDomain(name, port, payload);
      ParsePacket(g) == Some(Packet(Datagram(Domain(name, port), payload), |g|)) <==>
        1 <= |name| <= 255 && |payload| < 0x1_0000
  {
    var g := GenerateDomain(name, port, payload);
    if 1 <= |name| <= 255 && |payload| < 0x1_0000 {
      var d := Datagram(Domain(name, port), payload);
      assert g == EncodePacket(d);
      PacketRoundTrip(d, []);
      assert g + [] == g;
    } else {
      assert g[0] == DOMAINNAME;
    }
  }

  // ---- the reassembly loop ----

  datatype Taken = Taken(datagrams: seq<Datagram>, rest: bytes)

  function Take(s: bytes): (t: Taken) {
    match ParsePacket(s)
    case None => Taken([], s)
    case Some(p) => var t := Take(s[p.length..]); Taken([p.datagram] + t.datagrams, t.rest)
  }

  /** The buffer of a session, what it has delivered, and whether it still lives. */
  datatype Reassembly = Reassembly(delivered: seq<Datagram>, buffer: bytes, alive: bool)

  /** `out_recv`: deliver what is complete; an incomplete rest that is too long ends the session. */
  function Receive(r: Reassembly, chunk: bytes): (q: Reassembly) {
    if !r.alive then r
    else
      var t := Take(r.buffer + chunk);
      Reassembly(r.delivered + t.datagrams, t.rest, |t.rest| <= MAX_BUF_LENGTH)
  }

  function ReceiveAll(r: Reassembly, chunks: seq<bytes>): (q: Reassembly)
    decreases |chunks|
  {
    if chunks == [] then r else ReceiveAll(Receive(r, chunks[0]), chunks[1..])
  }

  predicate AllValid(ds: seq<Datagram>) {
    forall i :: 0 <= i < |ds| ==> ValidDatagram(ds[i])
  }

  function EncodeAll(ds: seq<Datagram>): (r: bytes)
    requires AllValid(ds)
  {
    if ds == [] then [] else EncodePacket(ds[0]) + EncodeAll(ds[1..])
  }

  /** A datagram whose incomplete forms all fit the buffer. */
  predicate Fits(d: Datagram)
    requires ValidDatagram(d)
  {
    |EncodePacket(d)| <= MAX_BUF_LENGTH + 1
  }

  predicate AllFit(ds: seq<Datagram>)
    requires AllValid(ds)
  {
    forall i :: 0 <= i < |ds| ==> Fits(ds[i])
  }

  lemma {:induction false} TakeSplit(a: bytes, b: bytes)
    ensures Take(a + b) == Taken(Take(a).datagrams + Take(Take(a).rest + b).datagrams, Take(Take(a).rest + b).rest)
    decreases |a|
  {
    hide ParsePacket;
    match ParsePacket(a)
    case None =>
    case Some(p) =>
      PacketStable(a, b);
      assert (a + b)[p.length..] == a[p.length..] + b;
      TakeSplit(a[p.length..], b);
      var t := Take(a[p.length..]);
      assert [p.datagram] + (t.datagrams + Take(t.rest + b).datagrams) ==
        ([p.datagram] + t.datagrams) + Take(t.rest + b).datagrams;
  }

  /** Where a stream of datagrams is cut: so many whole ones, and a strict prefix of the next. */
  ghost predicate CutAt(ds: seq<Datagram>, s: bytes, j: nat, p: bytes)
    requires AllValid(ds)
  {
    && j <= |ds| && AllValid(ds[..j])
    && s == EncodeAll(ds[..j]) + p
    && (if j == |ds| then p == [] else |p| < |EncodePacket(ds[j])| && p == EncodePacket(ds[j])[..|p|])
  }

  lemma TakeFirst(d: Datagram, t: bytes)
    requires ValidDatagram(d)
    ensures Take(EncodePacket(d) + t) == Taken([d] + Take(t).datagrams, Take(t).rest)
  {
    hide ParsePacket, EncodePacket, ValidDatagram;
    PacketRoundTrip(d, t);
    assert (EncodePacket(d) + t)[|EncodePacket(d)|..] == t;
  }

  lemma CutAfterFirst(ds: seq<Datagram>, t: bytes, i: nat, q: bytes)
    requires ds != [] && AllValid(ds) && CutAt(ds[1..], t, i, q)
    ensures CutAt(ds, EncodePacket(ds[0]) + t, i + 1, q)
  {
    hide EncodePacket, ValidDatagram;
    var e := EncodePacket(ds[0]);
    assert ds[..i + 1][1..] == ds[1..][..i];
    assert (e + EncodeAll(ds[1..][..i])) + q == e + (EncodeAll(ds[1..][..i]) + q);
  }

  lemma EmptyPacket()
    ensures ParsePacket([]) == None
  {
  }

  /** Any prefix of the stream is taken up to the cut. */
  lemma {:induction false} TakePrefix(ds: seq<Datagram>, s: bytes) returns (j: nat, p: bytes)
    requires AllValid(ds) && s <= EncodeAll(ds)
    ensures CutAt(ds, s, j, p) && Take(s) == Taken(ds[..j], p)
  {
    hide ParsePacket, EncodePacket, ValidDatagram;
    if ds == [] {
      EmptyPacket();
      j, p := 0, [];
    } else {
      var e, more := EncodePacket(ds[0]), EncodeAll(ds[1..]);
      if |s| < |e| {
        assert s == (e + more)[..|s|] == e[..|s|];
        PacketPrefix(ds[0], |s|);
        j, p := 0, s;
        assert EncodeAll(ds[..0]) + p == s;
      } else {
        var t := s[|e|..];
        assert s[..|e|] == (e + more)[..|e|] == e;
        assert s == e + t && t <= more;
        var i, q := TakePrefix(ds[1..], t);
        TakeFirst(ds[0], t);
        j, p := i + 1, q;
        CutAfterFirst(ds, t, i, q);
        assert ds[..j] == [ds[0]] + ds[1..][..i];
      }
    }
  }

  lemma ShortRest(ds: seq<Datagram>, s: bytes, j: nat, p: bytes)
    requires AllValid(ds) && AllFit(ds) && CutAt(ds, s, j, p)
    ensures |p| <= MAX_BUF_LENGTH
  {
  }

  /** However the stream of datagrams is cut into reads, the loop delivers the complete ones, in
      order, keeps the incomplete one, and the session lives. */
  lemma {:induction false} StreamRoundTrip(ds: seq<Datagram>, s: bytes, r: Reassembly, chunks: seq<bytes>)
    returns (j: nat, p: bytes)
    requires AllValid(ds) && AllFit(ds) && s + Concat(chunks) <= EncodeAll(ds)
    requires r.alive && Take(s) == Taken(r.delivered, r.buffer)
    ensures CutAt(ds, s + Concat(chunks), j, p)
    ensures ReceiveAll(r, chunks) == Reassembly(ds[..j], p, true)
    decreases |chunks|
  {
    hide ParsePacket, EncodePacket, ValidDatagram, Take, Fits;
    if chunks == [] {
      assert s + Concat(chunks) == s;
      j, p := TakePrefix(ds, s);
    } else {
      var c, more := chunks[0], Concat(chunks[1..]);
      assert s + Concat(chunks) == (s + c) + more;
      assert s + c <= EncodeAll(ds);
      TakeSplit(s, c);
      var i, q := TakePrefix(ds, s + c);
      ShortRest(ds, s + c, i, q);
      j, p := StreamRoundTrip(ds, s + c, Receive(r, c), chunks[1..]);
    }
  }

  /** The limit is exact: all ways of cutting a datagram are survived if and only if it fits. */
  lemma FitsIff(d: Datagram)
    requires ValidDatagram(d)
    ensures Fits(d) <==> forall k :: 0 <= k < |EncodePacket(d)| ==>
      Receive(Reassembly([], [], true), EncodePacket(d)[..k]).alive
  {
    hide ParsePacket, ValidDatagram;
    var e := EncodePacket(d);
    forall k | 0 <= k < |e|
      ensures Receive(Reassembly([], [], true), e[..k]).alive <==> k <= MAX_BUF_LENGTH
    {
      PacketPrefix(d, k);
      assert [] + e[..k] == e[..k];
    }
    if !Fits(d) {
      assert !Receive(Reassembly([], [], true), e[..|e| - 1]).alive;
    }
  }
}
