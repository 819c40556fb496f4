/** A UDP association inside a pipeline: the session whose read handler asks its read cache again before
    it returns. */
module Association {
  import opened Bytes
  import opened Trojan
  import opened Udp
  import opened Component

  /** The handler has what it wants: a whole datagram, or more bytes than a datagram may take. */
  predicate Stops(buf: bytes) {
    ParsePacket(buf).Some? || |buf| > MAX_BUF_LENGTH
  }

  function Room(buf: bytes): (n: nat) {
    if |buf| > MAX_BUF_LENGTH then 0 else MAX_BUF_LENGTH + 1 - |buf|
  }

  /** How often one `async_read` hands a queue out: it is consumed only after the handler has returned, so
      a handler that asks again is given all of it again. */
  function Rounds(buf: bytes, queue: bytes): (n: nat)
    requires queue != [] && |buf| <= MAX_BUF_LENGTH
    decreases Room(buf)
  {
    if Stops(buf + queue) then 1 else 1 + Rounds(buf + queue, queue)
  }

  function Repeated(queue: bytes, n: nat): (r: bytes) {
    if n == 0 then [] else queue + Repeated(queue, n - 1)
  }

  /** What the buffer holds when the handler stops asking. */
  function Grown(buf: bytes, queue: bytes): (r: bytes)
    requires queue != [] && |buf| <= MAX_BUF_LENGTH
  {
    buf + Repeated(queue, Rounds(buf, queue))
  }

  lemma GrownOnce(buf: bytes, queue: bytes)
    requires queue != [] && |buf| <= MAX_BUF_LENGTH
    ensures Grown(buf, queue) == if Stops(buf + queue) then buf + queue else Grown(buf + queue, queue)
  {
    hide ParsePacket;
    if Stops(buf + queue) {
      assert Repeated(queue, 1) == queue + Repeated(queue, 0);
    } else {
      var n := Rounds(buf + queue, queue);
      assert buf + (queue + Repeated(queue, n)) == (buf + queue) + Repeated(queue, n);
    }
  }

  lemma SomeRound(buf: bytes, queue: bytes)
    requires queue != [] && |buf| <= MAX_BUF_LENGTH
    ensures Rounds(buf, queue) > 0
  {
  }

  /** The bytes received reach the association once if and only if they complete a datagram, or make the
      buffer too long for one. */
  lemma AppendedOnceIff(buf: bytes, queue: bytes)
    requires queue != [] && |buf| <= MAX_BUF_LENGTH
    ensures Grown(buf, queue) == buf + queue <==> ParsePacket(buf + queue).Some? || |buf + queue| > MAX_BUF_LENGTH
  {
    hide ParsePacket, Rounds;
    GrownOnce(buf, queue);
    if !Stops(buf + queue) {
      var n := Rounds(buf + queue, queue);
      assert n > 0 by { SomeRound(buf + queue, queue); }
      assert |Grown(buf + queue, queue)| > |buf + queue|;
    }
  }

  /** A datagram of ten bytes of which one has arrived. */
  const PARTIAL: bytes := [IPV4, 127, 0, 0, 1, 0, 53, 0, 10, CR, LF, 7]

  lemma PartialTwice()
    ensures ParsePacket(PARTIAL + PARTIAL) ==
      Some(Packet(Datagram(V4([127, 0, 0, 1], 53), [7, IPV4, 127, 0, 0, 1, 0, 53, 0, 10]), 21))
  {
    var s := PARTIAL + PARTIAL;
    assert s[1..5] == [127, 0, 0, 1] && s[9..11] == CRLF;
    assert s[11..21] == [7, IPV4, 127, 0, 0, 1, 0, 53, 0, 10];
  }

  /** The rest of it is then made up from its own header. */
  lemma MadeUpDatagram()
    ensures Grown([], PARTIAL) == PARTIAL + PARTIAL
    ensures ParsePacket(Grown([], PARTIAL)) ==
      Some(Packet(Datagram(V4([127, 0, 0, 1], 53), [7, IPV4, 127, 0, 0, 1, 0, 53, 0, 10]), 21))
  {
    hide Grown;
    var q := PARTIAL;
    assert [] + q == q;
    assert ParsePacket(q) == None;
    PartialTwice();
    GrownOnce([], q);
    GrownOnce(q, q);
  }

  class UdpAssociation {
    const cache: ReadDataCache
    var udpDataBuf: bytes
    var destroyed: bool
    ghost var handedOn: seq<Datagram>    // to the resolver or the socket, in order

    /** A read that waits is one that found nothing, with no more in the buffer than a datagram may take. */
    ghost predicate Valid()
      reads this, cache
    {
      cache.isWaiting ==> cache.dataQueue == [] && |udpDataBuf| <= MAX_BUF_LENGTH
    }

    /** What comes of a buffer the handler stops at: its datagram is handed on, or the session ends. */
    ghost predicate Stopped(buf: bytes, before: seq<Datagram>)
      reads this
    {
      match ParsePacket(buf)
      case None => destroyed && udpDataBuf == buf && handedOn == before
      case Some(p) => !destroyed && udpDataBuf == buf[p.length..] && handedOn == before + [p.datagram]
    }

    /** What comes of asking with this buffer: a wait where nothing is queued, else all rounds at once. */
    ghost predicate Answered(buf: bytes, queue: bytes, before: seq<Datagram>)
      requires |buf| <= MAX_BUF_LENGTH
      reads this, cache
    {
      && cache.dataQueue == []
      && (queue == [] ==> cache.isWaiting && !destroyed && udpDataBuf == buf && handedOn == before)
      && (queue != [] ==> cache.pushAckCount == 0 && !cache.isWaiting && Stopped(Grown(buf, queue), before))
    }

    constructor ()
      ensures Valid() && fresh(cache) && udpDataBuf == [] && !destroyed && handedOn == []
    {
      cache := new ReadDataCache();
      udpDataBuf, destroyed, handedOn := [], false, [];
    }

    /** `async_read` of the cache, with the handler of this session inside it. */
    method InAsyncRead()
      requires Valid() && !destroyed && |udpDataBuf| <= MAX_BUF_LENGTH
      modifies this, cache
      ensures Valid() && Answered(old(udpDataBuf), old(cache.dataQueue), old(handedOn))
      decreases Room(udpDataBuf), 0
    {
      hide Grown, ParsePacket, Rounds;
      if |cache.dataQueue| == 0 {
        cache.isWaiting := true;
        return;
      }
      GrownOnce(udpDataBuf, cache.dataQueue);
      InRecv(cache.dataQueue);
      cache.dataQueue := [];
      cache.pushAckCount := 0;
    }

    method InRecv(data: bytes)
      requires !cache.isWaiting && !destroyed && |udpDataBuf| <= MAX_BUF_LENGTH && data != []
      modifies this, cache
      ensures Valid() && Handled(old(udpDataBuf) + data, old(cache.dataQueue), old(cache.isWaiting), old(handedOn))
      decreases Room(udpDataBuf + data), 2
    {
      hide Grown, ParsePacket, Rounds;
      udpDataBuf := udpDataBuf + data;
      OutUdpSent();
    }

    /** What comes of a call with this buffer. */
    ghost predicate Handled(buf: bytes, queue: bytes, waiting: bool, before: seq<Datagram>)
      reads this, cache
    {
      if Stops(buf) then Stopped(buf, before) && cache.dataQueue == queue && cache.isWaiting == waiting
      else Answered(buf, queue, before)
    }

    /** Hand on the datagram at the front of the buffer, or ask for more. */
    method OutUdpSent()
      requires Valid() && !destroyed
      modifies this, cache
      ensures Valid() && Handled(old(udpDataBuf), old(cache.dataQueue), old(cache.isWaiting), old(handedOn))
      decreases Room(udpDataBuf), 1
    {
      hide Grown, Rounds;
      if |udpDataBuf| == 0 {
        InAsyncRead();
        return;
      }
      var packet := ParsePacket(udpDataBuf);
      if packet.None? {
        if |udpDataBuf| > MAX_BUF_LENGTH {
          destroyed := true;
          return;
        }
        InAsyncRead();
        return;
      }
      handedOn := handedOn + [packet.value.datagram];
      udpDataBuf := udpDataBuf[packet.value.length..];
    }

    /** A DATA frame. One that finds the session waiting is taken once, whatever it holds. */
    method PushData(data: bytes)
      requires Valid() && !destroyed && data != []
      modifies this, cache
      ensures Valid()
      ensures !old(cache.isWaiting) ==>
        && cache.State() == Pushed(old(cache.State()), data)
        && udpDataBuf == old(udpDataBuf) && handedOn == old(handedOn) && !destroyed
      ensures old(cache.isWaiting) ==>
        var buf := old(udpDataBuf) + data;
        if Stops(buf) then Stopped(buf, old(handedOn)) && !cache.isWaiting
        else cache.isWaiting && !destroyed && udpDataBuf == buf && handedOn == old(handedOn)
    {
      hide Grown, ParsePacket, Rounds;
      if cache.isWaiting {
        cache.isWaiting := false;
        InRecv(data);
      } else {
        cache.pushAckCount := cache.pushAckCount + 1;
        cache.dataQueue := cache.dataQueue + data;
      }
    }
  }
}
