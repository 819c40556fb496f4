/** SOCKS5 addresses and the trojan request that opens every proxied stream. Addresses are kept as
    the bytes of the wire; the sources' text forms of an IP address are not modelled. */
module Trojan {
  import opened Bytes

  datatype Option<+T> = None | Some(value: T)

  datatype Address = V4(ip: bytes, port: u16) | Domain(name: bytes, port: u16) | V6(ip: bytes, port: u16)

  const IPV4: byte := 1
  const DOMAINNAME: byte := 3
  const IPV6: byte := 4

  datatype Located = Located(address: Address, length: nat)

  predicate ValidAddress(a: Address) {
    match a
    case V4(ip, _) => |ip| == 4
    case Domain(name, _) => 1 <= |name| <= 255
    case V6(ip, _) => |ip| == 16
  }

  /** `SOCKS5Address::parse`. A domain type with no length byte yet counts as incomplete; the source
      reads one byte past the view there. */
  function ParseAddress(s: bytes): (r: Option<Located>)
    ensures r.Some? ==> 5 <= r.value.length <= |s| && ValidAddress(r.value.address)
  {
    if |s| == 0 then None
    else if s[0] == IPV4 then
      if |s| > 6 then Some(Located(V4(s[1..5], ReadU16(s, 5)), 7)) else None
    else if s[0] == DOMAINNAME then
      if |s| < 2 || s[1] == 0 then None
      else
        var n := s[1] as int;
        if |s| > n + 3 then Some(Located(Domain(s[2..2 + n], ReadU16(s, n + 2)), n + 4)) else None
    else if s[0] == IPV6 then
      if |s| > 18 then Some(Located(V6(s[1..17], ReadU16(s, 17)), 19)) else None
    else None
  }

  function EncodeAddress(a: Address): (r: bytes)
    requires ValidAddress(a)
  {
    match a
    case V4(ip, port) => [IPV4] + ip + U16(port)
    case Domain(name, port) => [DOMAINNAME, |name|] + name + U16(port)
    case V6(ip, port) => [IPV6] + ip + U16(port)
  }

  lemma V4RoundTrip(ip: bytes, port: u16, rest: bytes)
    requires |ip| == 4
    ensures ParseAddress([IPV4] + ip + U16(port) + rest) == Some(Located(V4(ip, port), 7))
  {
    var s := [IPV4] + ip + U16(port) + rest;
    assert s[0] == IPV4 && s[1..5] == ip && s[5] == port / 0x100 && s[6] == port % 0x100;
  }

  lemma V6RoundTrip(ip: bytes, port: u16, rest: bytes)
    requires |ip| == 16
    ensures ParseAddress([IPV6] + ip + U16(port) + rest) == Some(Located(V6(ip, port), 19))
  {
    var s := [IPV6] + ip + U16(port) + rest;
    assert s[0] == IPV6 && s[1..17] == ip && s[17] == port / 0x100 && s[18] == port % 0x100;
  }

  lemma DomainRoundTrip(name: bytes, port: u16, rest: bytes)
    requires 1 <= |name| <= 255
    ensures ParseAddress([DOMAINNAME, |name|] + name + U16(port) + rest) ==
      Some(Located(Domain(name, port), |name| + 4))
  {
    var n := |name|;
    var s := [DOMAINNAME, n] + name + U16(port) + rest;
    assert s[0] == DOMAINNAME && s[1] == n && s[2..2 + n] == name;
    assert s[n + 2] == port / 0x100 && s[n + 3] == port % 0x100;
  }

  lemma AddressRoundTrip(a: Address, rest: bytes)
    requires ValidAddress(a)
    ensures ParseAddress(EncodeAddress(a) + rest) == Some(Located(a, |EncodeAddress(a)|))
  {
    match a {
      case V4(ip, port) => V4RoundTrip(ip, port, rest);
      case Domain(name, port) => DomainRoundTrip(name, port, rest);
      case V6(ip, port) => V6RoundTrip(ip, port, rest);
    }
  }

  /** The parser accepts encodings and nothing else. */
  lemma AddressCanonical(s: bytes)
    requires ParseAddress(s).Some?
    ensures EncodeAddress(ParseAddress(s).value.address) == s[..ParseAddress(s).value.length]
  {
    var l := ParseAddress(s).value;
    var e := EncodeAddress(l.address);
    assert |e| == l.length;
    assert e[0] == s[0] && e[1] == s[1];
    assert forall i :: 2 <= i < l.length - 2 ==> e[i] == s[i];
    assert e[l.length - 2] == s[l.length - 2] && e[l.length - 1] == s[l.length - 1];
  }

  lemma AddressPrefix(a: Address, k: nat)
    requires ValidAddress(a) && k < |EncodeAddress(a)|
    ensures ParseAddress(EncodeAddress(a)[..k]) == None
  {
  }

  /** An address once recognised is the same when more bytes arrive. */
  lemma AddressStable(a: bytes, b: bytes)
    requires ParseAddress(a).Some?
    ensures ParseAddress(a + b) == ParseAddress(a)
  {
    var s := a + b;
    assert s[0] == a[0] && s[1] == a[1];
    if a[0] == DOMAINNAME {
      var n := a[1] as int;
      assert s[2..2 + n] == a[2..2 + n];
    } else if a[0] == IPV4 {
      assert s[1..5] == a[1..5];
    } else {
      assert s[1..17] == a[1..17];
    }
  }

  predicate Unspecified(a: Address)
    requires !a.Domain?
  {
    forall i :: 0 <= i < |a.ip| ==> a.ip[i] == 0
  }

  /** `SOCKS5Address::generate`: an unspecified address loses its kind and its port. */
  function GenerateAddress(a: Address): (r: bytes)
    requires ValidAddress(a) && !a.Domain?
  {
    if Unspecified(a) then [IPV4, 0, 0, 0, 0, 0, 0] else EncodeAddress(a)
  }

  /** So an endpoint is read back exactly when it is specified, or is 0.0.0.0 with port 0. */
  lemma EndpointRoundTripIff(a: Address, rest: bytes)
    requires ValidAddress(a) && !a.Domain?
    ensures ParseAddress(GenerateAddress(a) + rest) == Some(Located(a, |GenerateAddress(a)|))
       <==> !Unspecified(a) || (a.V4? && a.port == 0)
  {
    if Unspecified(a) {
      var z := V4([0, 0, 0, 0], 0);
      assert EncodeAddress(z) == [IPV4, 0, 0, 0, 0, 0, 0];
      AddressRoundTrip(z, rest);
      assert a.V4? ==> a.ip == [0, 0, 0, 0];
    } else {
      AddressRoundTrip(a, rest);
    }
  }

  // ---- requests ----

  /** The first "\r\n". */
  function FindCrlf(s: bytes): (r: Option<nat>)
    ensures r.Some? ==> r.value + 2 <= |s|
  {
    if |s| < 2 then None
    else if s[0] == CR && s[1] == LF then Some(0)
    else
      var t := FindCrlf(s[1..]);
      if t.None? then None else Some(1 + t.value)
  }

  predicate NoCrlf(s: bytes) {
    forall i :: 0 <= i < |s| - 1 ==> !(s[i] == CR && s[i + 1] == LF)
  }

  lemma {:induction false} FindsTheEnd(s: bytes, rest: bytes)
    requires NoCrlf(s)
    ensures FindCrlf(s + CRLF + rest) == Some(|s|)
  {
    var t := s + CRLF + rest;
    if s == [] {
      assert t[0] == CR && t[1] == LF;
    } else {
      assert t[1..] == s[1..] + CRLF + rest;
      assert NoCrlf(s[1..]) by {
        forall i | 0 <= i < |s[1..]| - 1
          ensures !(s[1..][i] == CR && s[1..][i + 1] == LF)
        {
          assert s[1..][i] == s[i + 1] && s[1..][i + 1] == s[i + 2];
        }
      }
      FindsTheEnd(s[1..], rest);
      assert t[0] == s[0] && t[1] == (if |s| > 1 then s[1] else CR);
    }
  }

  /** Nothing is found in a strict prefix of the line and its end. */
  lemma {:induction false} FindsNothingEarlier(s: bytes, k: nat)
    requires NoCrlf(s) && k < |s| + 2
    ensures FindCrlf((s + CRLF)[..k]) == None
  {
    var t := (s + CRLF)[..k];
    if s != [] && k >= 2 {
      assert t[1..] == (s[1..] + CRLF)[..k - 1];
      assert NoCrlf(s[1..]) by {
        forall i | 0 <= i < |s[1..]| - 1
          ensures !(s[1..][i] == CR && s[1..][i + 1] == LF)
        {
          assert s[1..][i] == s[i + 1] && s[1..][i + 1] == s[i + 2];
        }
      }
      FindsNothingEarlier(s[1..], k - 1);
      assert t[0] == s[0] && t[1] == (if |s| > 1 then s[1] else CR);
    }
  }

  const TCP_CONNECT: byte := 1
  const UDP_ASSOCIATE: byte := 3

  datatype Request = Request(password: bytes, command: byte, address: Address, payload: bytes)

  function ParseBody(password: bytes, body: bytes): (r: Option<Request>) {
    if |body| == 0 || (body[0] != TCP_CONNECT && body[0] != UDP_ASSOCIATE) then None
    else
      match ParseAddress(body[1..])
      case None => None
      case Some(l) =>
        if |body| < l.length + 3 || body[l.length + 1..l.length + 3] != CRLF then None
        else Some(Request(password, body[0], l.address, body[l.length + 3..]))
  }

  /** `TrojanRequest::parse`; None is its -1. */
  function ParseRequest(s: bytes): (r: Option<Request>) {
    match FindCrlf(s)
    case None => None
    case Some(first) => ParseBody(s[..first], s[first + 2..])
  }

  /** `TrojanRequest::generate`: always a domain type, its length cut to one byte. */
  function GenerateRequest(password: bytes, domain: bytes, port: u16, tcp: bool): (r: bytes) {
    password + CRLF + [if tcp then TCP_CONNECT else UDP_ASSOCIATE] + [DOMAINNAME, |domain| % 0x100] + domain
      + U16(port) + CRLF
  }

  lemma BodyRoundTrip(password: bytes, cmd: byte, a: Address, rest: bytes)
    requires ValidAddress(a) && (cmd == TCP_CONNECT || cmd == UDP_ASSOCIATE)
    ensures ParseBody(password, [cmd] + EncodeAddress(a) + CRLF + rest) == Some(Request(password, cmd, a, rest))
  {
    hide ParseAddress, EncodeAddress, ValidAddress;
    var e := EncodeAddress(a);
    var body := [cmd] + e + CRLF + rest;
    assert body[1..] == e + (CRLF + rest);
    AddressRoundTrip(a, CRLF + rest);
    assert body[|e| + 1..|e| + 3] == CRLF && body[|e| + 3..] == rest;
  }

  lemma RequestShape(password: bytes, domain: bytes, port: u16, tcp: bool, rest: bytes)
    requires 1 <= |domain| <= 255
    ensures GenerateRequest(password, domain, port, tcp) + rest
      == password + CRLF
         + ([if tcp then TCP_CONNECT else UDP_ASSOCIATE] + EncodeAddress(Domain(domain, port)) + CRLF + rest)
  {
  }

  /** A generated request is read back, with everything that follows it as payload. */
  lemma RequestRoundTrip(password: bytes, domain: bytes, port: u16, tcp: bool, rest: bytes)
    requires NoCrlf(password) && 1 <= |domain| <= 255
    ensures ParseRequest(GenerateRequest(password, domain, port, tcp) + rest)
      == Some(Request(password, if tcp then TCP_CONNECT else UDP_ASSOCIATE, Domain(domain, port), rest))
  {
    hide FindCrlf, ParseBody, EncodeAddress, NoCrlf, GenerateRequest;
    var cmd := if tcp then TCP_CONNECT else UDP_ASSOCIATE;
    var body := [cmd] + EncodeAddress(Domain(domain, port)) + CRLF + rest;
    var s := GenerateRequest(password, domain, port, tcp) + rest;
    RequestShape(password, domain, port, tcp, rest);
    FindsTheEnd(password, body);
    assert s[|password| + 2..] == body && s[..|password|] == password;
    BodyRoundTrip(password, cmd, Domain(domain, port), rest);
  }

  /** What is found is the first one. */
  lemma {:induction false} FindIsFirst(s: bytes, i: nat)
    requires FindCrlf(s).Some? && i < FindCrlf(s).value
    ensures i + 1 < |s| && !(s[i] == CR && s[i + 1] == LF)
  {
    if i > 0 {
      FindIsFirst(s[1..], i - 1);
    }
  }

  /** And this is exactly when it is: the password has no line end in it, and the domain's length fits
      its byte and is not zero. */
  lemma RequestRoundTripIff(password: bytes, domain: bytes, port: u16, tcp: bool, rest: bytes)
    ensures ParseRequest(GenerateRequest(password, domain, port, tcp) + rest)
         == Some(Request(password, if tcp then TCP_CONNECT else UDP_ASSOCIATE, Domain(domain, port), rest))
       <==> NoCrlf(password) && 1 <= |domain| <= 255
  {
    hide FindCrlf, ParseAddress;
    var s := GenerateRequest(password, domain, port, tcp) + rest;
    if NoCrlf(password) && 1 <= |domain| <= 255 {
      RequestRoundTrip(password, domain, port, tcp, rest);
    } else if ParseRequest(s).Some? && ParseRequest(s).value.password == password {
      assert FindCrlf(s).value == |password|;
      assert NoCrlf(password) by {
        forall i | 0 <= i < |password| - 1
          ensures !(password[i] == CR && password[i + 1] == LF)
        {
          FindIsFirst(s, i);
          assert s[i] == password[i] && s[i + 1] == password[i + 1];
        }
      }
    }
  }

  /** What a server session writes to its target first: the payload of a request it accepts, or, for
      data it does not take for an authenticated request, that data itself (the fallback endpoint). */
  function FirstWrite(data: bytes, known: set<bytes>): (r: bytes) {
    match ParseRequest(data)
    case None => data
    case Some(req) => if req.password in known then req.payload else data
  }

  predicate OpensUdp(data: bytes, known: set<bytes>) {
    match ParseRequest(data)
    case None => false
    case Some(req) => req.password in known && req.command == UDP_ASSOCIATE
  }

  /** The request itself never reaches the target. */
  lemma RequestIsConsumed(password: bytes, domain: bytes, port: u16, known: set<bytes>)
    requires NoCrlf(password) && 1 <= |domain| <= 255 && password in known
    ensures FirstWrite(GenerateRequest(password, domain, port, true), known) == []
    ensures !OpensUdp(GenerateRequest(password, domain, port, true), known)
  {
    var g := GenerateRequest(password, domain, port, true);
    RequestRoundTrip(password, domain, port, true, []);
    assert g + [] == g;
  }

  // ---- the objects that parse ----

  class Socks5Address {
    var addressType: byte
    var address: bytes
    var port: u16

    constructor ()
      ensures address == [] && port == 0
    {
      addressType, address, port := IPV4, [], 0;
    }

    ghost function Value(): (a: Address)
      reads this
    {
      if addressType == IPV4 then V4(address, port)
      else if addressType == DOMAINNAME then Domain(address, port)
      else V6(address, port)
    }

    method Parse(data: bytes) returns (ok: bool, length: nat)
      modifies this
      ensures ParseAddress(data) == if ok then Some(Located(Value(), length)) else None
      ensures !ok ==> address == old(address) && port == old(port)
    {
      if |data| == 0 || (data[0] != IPV4 && data[0] != DOMAINNAME && data[0] != IPV6) {
        return false, 0;
      }
      addressType := data[0];
      if addressType == IPV4 {
        if |data| > 6 {
          address, port := data[1..5], ReadU16(data, 5);
          return true, 7;
        }
      } else if addressType == DOMAINNAME {
        if |data| > 1 && data[1] != 0 {
          var n := data[1] as int;
          if |data| > n + 3 {
            address, port := data[2..2 + n], ReadU16(data, n + 2);
            return true, n + 4;
          }
        }
      } else {
        if |data| > 18 {
          address, port := data[1..17], ReadU16(data, 17);
          return true, 19;
        }
      }
      return false, 0;
    }

    static method Generate(buf: StreamBuf, endpoint: Address)
      requires ValidAddress(endpoint) && !endpoint.Domain?
      modifies buf
      ensures buf.data == old(buf.data) + GenerateAddress(endpoint)
    {
      hide Unspecified;
      if Unspecified(endpoint) {
        buf.Append([IPV4, 0, 0, 0, 0, 0, 0]);
        return;
      }
      if endpoint.V4? {
        buf.Append([IPV4]);
        buf.Append(endpoint.ip);
      }
      if endpoint.V6? {
        buf.Append([IPV6]);
        buf.Append(endpoint.ip);
      }
      buf.Append(U16(endpoint.port));
    }
  }

  class TrojanRequest {
    var password: bytes
    var command: byte
    const address: Socks5Address
    var payload: bytes

    constructor ()
      ensures fresh(address)
    {
      address := new Socks5Address();
      password, command, payload := [], TCP_CONNECT, [];
    }

    ghost function Value(): (r: Request)
      reads this, address
    {
      Request(password, command, address.Value(), payload)
    }

    /** On failure the fields read so far keep their new values; without a line end nothing changes. */
    method Parse(data: bytes) returns (r: int)
      modifies this, address
      ensures r == if ParseRequest(data).Some? then |data| else -1
      ensures r != -1 ==> ParseRequest(data) == Some(Value())
      ensures FindCrlf(data).None? ==> Value() == old(Value())
      ensures FindCrlf(data).Some? ==> password == data[..FindCrlf(data).value]
    {
      hide ParseAddress, FindCrlf;
      var first := FindCrlf(data);
      if first.None? {
        return -1;
      }
      password := data[..first.value];
      payload := data[first.value + 2..];
      if |payload| == 0 || (payload[0] != TCP_CONNECT && payload[0] != UDP_ASSOCIATE) {
        return -1;
      }
      command := payload[0];
      var ok, n := address.Parse(payload[1..]);
      if !ok || |payload| < n + 3 || payload[n + 1..n + 3] != CRLF {
        return -1;
      }
      payload := payload[n + 3..];
      return |data|;
    }
  }
}
