/** Every callback of either end keeps the invariants of an opening: the one of all runs (`…Ok`), and
    the one of the way back (`…Down`). */
module SessionSteps {
  import opened Bytes
  import opened Component
  import opened Trojan
  import opened Session

  // ---- bytes in transit ----

  lemma TransitRead(r: Receiver, datas: seq<bytes>, d: bytes)
    ensures Transit(r, datas + [d]) == Transit(r, datas) + d
  {
    ConcatAppend(datas, d);
    assert r.written + r.wdata + r.inbox.queue + (Concat(datas) + d) == Transit(r, datas) + d;
  }

  lemma TransitArrive(r: Receiver, datas: seq<bytes>)
    requires datas != [] && (r.inbox.waiting ==> r.inbox.queue == [] && r.wdata == [])
    ensures Transit(Arrive(r, datas[0]), datas[1..]) == Transit(r, datas)
  {
  }

  lemma TransitAsk(r: Receiver, datas: seq<bytes>)
    requires r.wdata == []
    ensures Transit(Ask(r), datas) == Transit(r, datas)
  {
  }

  lemma TransitWriteDone(r: Receiver, datas: seq<bytes>)
    ensures Transit(WriteDone(r), datas) == Transit(r, datas)
  {
  }

  lemma TransitEmpty(r: Receiver)
    ensures r.wdata == [] && r.inbox.queue == [] ==> Transit(r, []) == r.written
  {
  }

  lemma TransitDeferred(r: Receiver, datas: seq<bytes>)
    ensures Transit(r.(closing := true), datas) == Transit(r, datas)
  {
  }

  lemma TransitQueueless(r: Receiver, datas: seq<bytes>)
    requires r.written == [] && r.wdata == [] && r.inbox.queue == []
    ensures Transit(r, datas) == Concat(datas)
  {
  }

  /** Starting to write what the request left keeps the order. */
  lemma TransitFirst(s: Server, datas: seq<bytes>)
    requires s.up.written == [] && s.up.wdata == []
    ensures Transit(StartWrite(s.up, Deliver(s.outBuf, 0)), datas) == s.outBuf + Transit(s.up, datas)
  {
  }

  // ---- client callbacks ----

  lemma ConnectSentOk(cfg: Config, p: Pair, u: Lane, hu: Pending, hd: Pending)
    requires PairOk(cfg, p, u, hu, hd) && hu.conn > 0
    ensures PairOk(cfg, p.(c := CConnectSent(p.c)), u, hu.(conn := hu.conn - 1), hd)
  {
  }

  lemma ConnectSentDown(cfg: Config, p: Pair, u: Lane, d: Lane, intact: bool, hu: Pending, hd: Pending)
    requires PairOk(cfg, p, u, hu, hd) && DownOk(cfg, p, u, d, intact)
    ensures DownOk(cfg, p.(c := CConnectSent(p.c)), u, d, intact)
  {
  }

  lemma RequestOk(cfg: Config, p: Pair, u: Lane, hu: Pending, hd: Pending, req: bytes)
    requires PairOk(cfg, p, u, hu, hd) && p.c.phase == CReady && req != []
    ensures PairOk(cfg, p.(c := CRequest(p.c, req)), u.(datas := u.datas + [req]), hu.(data := hu.data + 1), hd)
  {
  }

  lemma RequestDown(cfg: Config, p: Pair, u: Lane, d: Lane, intact: bool, hu: Pending, hd: Pending, req: bytes)
    requires PairOk(cfg, p, u, hu, hd) && DownOk(cfg, p, u, d, intact) && p.c.phase == CReady && req != []
    ensures DownOk(cfg, p.(c := CRequest(p.c, req)), u.(datas := u.datas + [req]), d, intact)
  {
  }

  lemma ClientReadOk(cfg: Config, p: Pair, u: Lane, hu: Pending, hd: Pending, x: bytes)
    requires PairOk(cfg, p, u, hu, hd) && p.c.phase == CForward && p.c.up.reading && x != []
    ensures PairOk(cfg, p.(c := CRead(p.c, x)), u.(datas := u.datas + [x]), hu.(data := hu.data + 1), hd)
  {
    hide Transit, Concat, FirstWrite;
    if RequestFlying(p) {
      assert (u.datas + [x])[1..] == u.datas[1..] + [x];
      ConcatAppend(u.datas[1..], x);
    } else {
      TransitRead(p.s.up, u.datas, x);
      assert p.s.outBuf + (Transit(p.s.up, u.datas) + x) == (p.s.outBuf + Transit(p.s.up, u.datas)) + x;
      assert UpGoal(cfg, p) + x == FirstWrite(p.c.req.value, cfg.known) + (p.c.up.taken + x);
    }
  }

  lemma ClientReadDown(cfg: Config, p: Pair, u: Lane, d: Lane, intact: bool, hu: Pending, hd: Pending, x: bytes)
    requires PairOk(cfg, p, u, hu, hd) && DownOk(cfg, p, u, d, intact) && p.c.phase == CForward
    requires p.c.up.reading && x != []
    ensures DownOk(cfg, p.(c := CRead(p.c, x)), u.(datas := u.datas + [x]), d, intact)
  {
  }

  lemma ClientDataSentOk(cfg: Config, p: Pair, u: Lane, hu: Pending, hd: Pending)
    requires PairOk(cfg, p, u, hu, hd) && hu.data > 0
    ensures PairOk(cfg, p.(c := CDataSent(p.c)), u, hu.(data := hu.data - 1), hd)
  {
  }

  lemma ClientDataSentDown(cfg: Config, p: Pair, u: Lane, d: Lane, intact: bool, hu: Pending, hd: Pending)
    requires PairOk(cfg, p, u, hu, hd) && DownOk(cfg, p, u, d, intact) && hu.data > 0
    ensures DownOk(cfg, p.(c := CDataSent(p.c)), u, d, intact)
  {
    hide Transit, Concat, FirstWrite, UpFifo;
  }

  lemma ClientAckSentOk(cfg: Config, p: Pair, u: Lane, hu: Pending, hd: Pending)
    requires PairOk(cfg, p, u, hu, hd) && hu.ack > 0
    ensures PairOk(cfg, p.(c := CAckSent(p.c)), u, hu.(ack := hu.ack - 1), hd)
  {
  }

  lemma ClientAckSentDown(cfg: Config, p: Pair, u: Lane, d: Lane, intact: bool, hu: Pending, hd: Pending)
    requires PairOk(cfg, p, u, hu, hd) && DownOk(cfg, p, u, d, intact) && hu.ack > 0
    ensures DownOk(cfg, p.(c := CAckSent(p.c)), u, d, intact)
  {
    hide Transit, Concat, FirstWrite, UpFifo;
    if p.c.phase == CForward {
      TransitAsk(p.c.down, d.datas);
    }
  }

  /** The write completed: either the deferred close ends the session, or an ACK goes out. */
  lemma ClientWriteDoneOk(cfg: Config, p: Pair, u: Lane, hu: Pending, hd: Pending)
    requires PairOk(cfg, p, u, hu, hd) && p.c.phase == CForward && p.c.down.writing
    ensures WriteCloses(p.c.down) ==> PairOk(cfg, p.(c := CWriteDone(p.c)), u.(close := true), hu, hd)
    ensures !WriteCloses(p.c.down) ==>
      PairOk(cfg, p.(c := CWriteDone(p.c)), u.(acks := u.acks + p.c.down.wack % 0x1_0000), hu.(ack := hu.ack + 1), hd)
  {
  }

  lemma ClientWriteDoneDown(cfg: Config, p: Pair, u: Lane, d: Lane, intact: bool, hu: Pending, hd: Pending)
    requires PairOk(cfg, p, u, hu, hd) && DownOk(cfg, p, u, d, intact) && p.c.phase == CForward && p.c.down.writing
    ensures WriteCloses(p.c.down) ==> DownOk(cfg, p.(c := CWriteDone(p.c)), u.(close := true), d, intact)
    ensures !WriteCloses(p.c.down) ==>
      DownOk(cfg, p.(c := CWriteDone(p.c)), u.(acks := u.acks + p.c.down.wack % 0x1_0000), d, intact)
  {
    hide Transit, Concat, FirstWrite, UpFifo;
    TransitWriteDone(p.c.down, d.datas);
    if WriteCloses(p.c.down) {
      TransitEmpty(WriteDone(p.c.down));
    }
  }

  lemma ClientFailOk(cfg: Config, p: Pair, u: Lane, hu: Pending, hd: Pending)
    requires PairOk(cfg, p, u, hu, hd) && CAlive(p.c)
    ensures PairOk(cfg, p.(c := CEnd(p.c, Failed)), u.(close := true), hu, hd)
  {
  }

  lemma ClientFailDown(cfg: Config, p: Pair, u: Lane, d: Lane, intact: bool, hu: Pending, hd: Pending)
    requires PairOk(cfg, p, u, hu, hd) && DownOk(cfg, p, u, d, intact) && CAlive(p.c)
    ensures DownOk(cfg, p.(c := CEnd(p.c, Failed)), u.(close := true), d, intact)
  {
  }

  lemma ClientLateOk(cfg: Config, p: Pair, u: Lane, hu: Pending, hd: Pending)
    requires PairOk(cfg, p, u, hu, hd) && p.c.phase == CClosed
    ensures PairOk(cfg, p.(c := CLate(p.c)), u, hu, hd)
  {
  }

  lemma ClientLateDown(cfg: Config, p: Pair, u: Lane, d: Lane, intact: bool, hu: Pending, hd: Pending)
    requires PairOk(cfg, p, u, hu, hd) && DownOk(cfg, p, u, d, intact) && p.c.phase == CClosed
    ensures DownOk(cfg, p.(c := CLate(p.c)), u, d, intact)
  {
  }

  /** Whatever comes back, it does not touch the way to the server. */
  lemma ClientOnDataOk(cfg: Config, p: Pair, u: Lane, hu: Pending, hd: Pending, x: bytes)
    requires PairOk(cfg, p, u, hu, hd) && x != []
    ensures PairOk(cfg, p.(c := COnData(p.c, x)), u, hu, hd)
  {
    hide Transit, Concat, FirstWrite;
  }

  lemma ClientOnDataDown(cfg: Config, p: Pair, u: Lane, d: Lane, intact: bool, hu: Pending, hd: Pending)
    requires PairOk(cfg, p, u, hu, hd) && DownOk(cfg, p, u, d, intact) && d.datas != [] && d.datas[0] != []
    ensures DownOk(cfg, p.(c := COnData(p.c, d.datas[0])), u, d.(datas := d.datas[1..]), intact)
  {
    hide Transit, Concat, FirstWrite, UpFifo;
    if p.c.phase != CClosed {
      TransitArrive(p.c.down, d.datas);
    }
  }

  lemma ClientOnAckOk(cfg: Config, p: Pair, u: Lane, hu: Pending, hd: Pending, n: nat)
    requires PairOk(cfg, p, u, hu, hd)
    ensures PairOk(cfg, p.(c := COnAck(p.c, n)), u, hu, hd)
  {
    hide Transit, Concat, FirstWrite;
  }

  lemma ClientOnAckDown(cfg: Config, p: Pair, u: Lane, d: Lane, intact: bool, hu: Pending, hd: Pending, n: nat)
    requires PairOk(cfg, p, u, hu, hd) && DownOk(cfg, p, u, d, intact) && n <= d.acks
    ensures DownOk(cfg, p.(c := COnAck(p.c, n)), u, d.(acks := d.acks - n), intact)
  {
    hide Transit, Concat, FirstWrite, UpFifo;
  }

  lemma ClientOnCloseOk(cfg: Config, p: Pair, u: Lane, hu: Pending, hd: Pending)
    requires PairOk(cfg, p, u, hu, hd)
    ensures PairOk(cfg, p.(c := COnClose(p.c)), u, hu, hd)
  {
    hide Transit, Concat, FirstWrite;
  }

  lemma ClientOnCloseDown(cfg: Config, p: Pair, u: Lane, d: Lane, intact: bool, hu: Pending, hd: Pending)
    requires PairOk(cfg, p, u, hu, hd) && DownOk(cfg, p, u, d, intact) && d == Lane([], 0, true)
    ensures DownOk(cfg, p.(c := COnClose(p.c)), u, NoLane, intact)
  {
  }

  // ---- server callbacks ----

  lemma ServerOnConnectOk(cfg: Config, p: Pair, u: Lane, hu: Pending, hd: Pending)
    requires PairOk(cfg, p, u, hu, hd) && p.s.phase == SNone
    ensures PairOk(cfg, p.(s := SOnConnect(cfg)), u, hu, hd)
  {
  }

  lemma ServerOnConnectDown(cfg: Config, p: Pair, u: Lane, d: Lane, intact: bool, hu: Pending, hd: Pending)
    requires PairOk(cfg, p, u, hu, hd) && DownOk(cfg, p, u, d, intact) && p.s.phase == SNone
    ensures DownOk(cfg, p.(s := SOnConnect(cfg)), u, d, intact)
  {
  }

  lemma ServerOnDataOk(cfg: Config, p: Pair, u: Lane, hu: Pending, hd: Pending)
    requires PairOk(cfg, p, u, hu, hd) && p.s.phase != SNone && u.datas != [] && u.datas[0] != []
    ensures PairOk(cfg, p.(s := SOnData(cfg, p.s, u.datas[0])), u.(datas := u.datas[1..]), hu, hd)
  {
    hide Transit, Concat, FirstWrite;
    if p.s.phase == SHandshake {
      var r := p.s.up.(inbox := Pushed(p.s.up.inbox, u.datas[0]));
      TransitQueueless(r, u.datas[1..]);
    } else if SAlive(p.s) {
      TransitArrive(p.s.up, u.datas);
    }
  }

  lemma ServerOnDataDown(cfg: Config, p: Pair, u: Lane, d: Lane, intact: bool, hu: Pending, hd: Pending)
    requires PairOk(cfg, p, u, hu, hd) && DownOk(cfg, p, u, d, intact) && p.s.phase != SNone
    requires u.datas != [] && u.datas[0] != []
    ensures DownOk(cfg, p.(s := SOnData(cfg, p.s, u.datas[0])), u.(datas := u.datas[1..]), d, intact)
  {
    hide Transit, Concat, FirstWrite, UpFifo;
  }

  lemma ServerOnAckOk(cfg: Config, p: Pair, u: Lane, hu: Pending, hd: Pending, n: nat)
    requires PairOk(cfg, p, u, hu, hd) && p.s.phase != SNone && n <= u.acks
    ensures PairOk(cfg, p.(s := SOnAck(p.s, n)), u.(acks := u.acks - n), hu, hd)
  {
    hide Transit, Concat, FirstWrite;
  }

  lemma ServerOnAckDown(cfg: Config, p: Pair, u: Lane, d: Lane, intact: bool, hu: Pending, hd: Pending, n: nat)
    requires PairOk(cfg, p, u, hu, hd) && DownOk(cfg, p, u, d, intact) && p.s.phase != SNone && n <= u.acks
    ensures DownOk(cfg, p.(s := SOnAck(p.s, n)), u.(acks := u.acks - n), d, intact)
  {
    hide Transit, Concat, FirstWrite, UpFifo;
  }

  lemma ServerOnCloseOk(cfg: Config, p: Pair, u: Lane, hu: Pending, hd: Pending)
    requires PairOk(cfg, p, u, hu, hd) && p.s.phase != SNone && u == Lane([], 0, true)
    ensures PairOk(cfg, p.(s := SOnClose(p.s)), NoLane, hu, hd)
  {
    hide Transit, Concat, FirstWrite;
    TransitEmpty(p.s.up);
    TransitDeferred(p.s.up, []);
  }

  lemma ServerOnCloseDown(cfg: Config, p: Pair, u: Lane, d: Lane, intact: bool, hu: Pending, hd: Pending)
    requires PairOk(cfg, p, u, hu, hd) && DownOk(cfg, p, u, d, intact) && p.s.phase != SNone && u == Lane([], 0, true)
    ensures DownOk(cfg, p.(s := SOnClose(p.s)), NoLane, d, intact)
  {
    hide Transit, Concat, FirstWrite;
  }

  lemma ServerConnectedOk(cfg: Config, p: Pair, u: Lane, hu: Pending, hd: Pending)
    requires PairOk(cfg, p, u, hu, hd) && p.s.phase == SConnect
    ensures PairOk(cfg, p.(s := SConnected(p.s)), u, hu, hd)
  {
    hide Transit, Concat, FirstWrite;
    if p.s.outBuf == [] {
      TransitAsk(p.s.up, u.datas);
    } else {
      TransitFirst(p.s, u.datas);
    }
  }

  lemma ServerConnectedDown(cfg: Config, p: Pair, u: Lane, d: Lane, intact: bool, hu: Pending, hd: Pending)
    requires PairOk(cfg, p, u, hu, hd) && DownOk(cfg, p, u, d, intact) && p.s.phase == SConnect
    ensures DownOk(cfg, p.(s := SConnected(p.s)), u, d, intact)
  {
    hide Transit, Concat, FirstWrite, UpFifo;
  }

  lemma ServerReadOk(cfg: Config, p: Pair, u: Lane, hu: Pending, hd: Pending, x: bytes)
    requires PairOk(cfg, p, u, hu, hd) && p.s.phase == SForward && p.s.down.reading && x != []
    ensures PairOk(cfg, p.(s := SRead(p.s, x)), u, hu, hd.(data := hd.data + 1))
  {
  }

  lemma ServerReadDown(cfg: Config, p: Pair, u: Lane, d: Lane, intact: bool, hu: Pending, hd: Pending, x: bytes)
    requires PairOk(cfg, p, u, hu, hd) && DownOk(cfg, p, u, d, intact) && p.s.phase == SForward
    requires p.s.down.reading && x != []
    ensures DownOk(cfg, p.(s := SRead(p.s, x)), u, d.(datas := d.datas + [x]), intact)
  {
    hide Transit, Concat, FirstWrite, UpFifo;
    TransitRead(p.c.down, d.datas, x);
  }

  lemma ServerDataSentOk(cfg: Config, p: Pair, u: Lane, hu: Pending, hd: Pending)
    requires PairOk(cfg, p, u, hu, hd) && hd.data > 0
    ensures PairOk(cfg, p.(s := SDataSent(p.s)), u, hu, hd.(data := hd.data - 1))
  {
  }

  lemma ServerDataSentDown(cfg: Config, p: Pair, u: Lane, d: Lane, intact: bool, hu: Pending, hd: Pending)
    requires PairOk(cfg, p, u, hu, hd) && DownOk(cfg, p, u, d, intact) && hd.data > 0
    ensures DownOk(cfg, p.(s := SDataSent(p.s)), u, d, intact)
  {
    hide Transit, Concat, FirstWrite, UpFifo;
  }

  lemma ServerAckSentOk(cfg: Config, p: Pair, u: Lane, hu: Pending, hd: Pending)
    requires PairOk(cfg, p, u, hu, hd) && hd.ack > 0
    ensures PairOk(cfg, p.(s := SAckSent(p.s)), u, hu, hd.(ack := hd.ack - 1))
  {
    hide Transit, Concat, FirstWrite;
    if p.s.phase == SForward {
      TransitAsk(p.s.up, u.datas);
    } else if Forwards(p.s) {
      TransitAsk(p.s.up, []);
    }
  }

  lemma ServerAckSentDown(cfg: Config, p: Pair, u: Lane, d: Lane, intact: bool, hu: Pending, hd: Pending)
    requires PairOk(cfg, p, u, hu, hd) && DownOk(cfg, p, u, d, intact) && hd.ack > 0
    ensures DownOk(cfg, p.(s := SAckSent(p.s)), u, d, intact)
  {
    hide Transit, Concat, FirstWrite, UpFifo;
  }

  lemma ServerWriteDoneOk(cfg: Config, p: Pair, u: Lane, hu: Pending, hd: Pending)
    requires PairOk(cfg, p, u, hu, hd) && p.s.phase == SForward && p.s.up.writing
    ensures WriteCloses(p.s.up) ==> PairOk(cfg, p.(s := SWriteDone(p.s)), u, hu, hd)
    ensures !WriteCloses(p.s.up) ==> PairOk(cfg, p.(s := SWriteDone(p.s)), u, hu, hd.(ack := hd.ack + 1))
  {
    hide Transit, Concat, FirstWrite;
    TransitWriteDone(p.s.up, u.datas);
    if WriteCloses(p.s.up) {
      TransitEmpty(WriteDone(p.s.up));
    }
  }

  lemma ServerWriteDoneDown(cfg: Config, p: Pair, u: Lane, d: Lane, intact: bool, hu: Pending, hd: Pending)
    requires PairOk(cfg, p, u, hu, hd) && DownOk(cfg, p, u, d, intact) && p.s.phase == SForward && p.s.up.writing
    ensures WriteCloses(p.s.up) ==> DownOk(cfg, p.(s := SWriteDone(p.s)), u, d.(close := true), intact)
    ensures !WriteCloses(p.s.up) ==>
      DownOk(cfg, p.(s := SWriteDone(p.s)), u, d.(acks := d.acks + p.s.up.wack % 0x1_0000), intact)
  {
    hide Transit, Concat, FirstWrite, UpFifo;
  }

  lemma TransitLess(r: Receiver, datas: seq<bytes>)
    ensures Transit(r, []) <= Transit(r, datas)
  {
  }

  /** The session ends by a failure, by a CONNECT that takes its id, or with the connection. */
  lemma ServerFailOk(cfg: Config, p: Pair, u: Lane, hu: Pending, hd: Pending)
    requires PairOk(cfg, p, u, hu, hd) && SAlive(p.s)
    ensures PairOk(cfg, p.(s := SEnd(p.s, Failed)), u, hu, hd)
  {
    hide Transit, Concat, FirstWrite;
    TransitLess(p.s.up, u.datas);
    TransitEmpty(p.s.up);
  }

  lemma ServerFailDown(cfg: Config, p: Pair, u: Lane, d: Lane, intact: bool, hu: Pending, hd: Pending)
    requires PairOk(cfg, p, u, hu, hd) && DownOk(cfg, p, u, d, intact)
    requires p.s.phase == SConnect || p.s.phase == SForward
    ensures DownOk(cfg, p.(s := SEnd(p.s, Failed)), u, d.(close := true), intact)
  {
  }

  // ---- server sessions off the list ----

  /** A write that completes; a stray that goes on waits for its ACK to be sent. */
  lemma ServerLateOk(cfg: Config, p: Pair, u: Lane, hu: Pending, hd: Pending)
    requires PairOk(cfg, p, u, hu, hd) && p.s.phase == SClosed
    ensures p.s.life == Over ==> PairOk(cfg, p.(s := SLate(p.s)), u, hu, hd)
    ensures p.s.up.writing ==> PairOk(cfg, p.(s := SGone(SLate(p.s))), u, hu, hd)
    ensures p.s.up.writing ==> SStrayEnd(SLate(p.s)) == SGone(SLate(p.s))
    ensures p.s.life == ForwardStray && p.s.up.writing && !WriteCloses(p.s.up) ==>
      PairOk(cfg, p.(s := SLate(p.s)), u, hu, hd.(ack := hd.ack + 1))
  {
    hide Transit, Concat, FirstWrite;
    TransitWriteDone(p.s.up, []);
  }

  lemma ServerErasedOk(cfg: Config, p: Pair, u: Lane, hu: Pending, hd: Pending)
    requires PairOk(cfg, p, u, hu, hd) && SAlive(p.s)
    ensures PairOk(cfg, p.(s := SErased(p.s)), u, hu, hd)
  {
    hide Transit, Concat, FirstWrite;
    TransitLess(p.s.up, u.datas);
    TransitEmpty(p.s.up);
  }

  lemma ServerRevivedOk(cfg: Config, p: Pair, u: Lane, hu: Pending, hd: Pending)
    requires PairOk(cfg, p, u, hu, hd) && (p.s.life == Due || p.s.life == ConnectStray)
    ensures PairOk(cfg, p.(s := SRevived(p.s)), u, hu, hd)
  {
    hide Transit, Concat, FirstWrite;
    if p.s.outBuf == [] {
      TransitAsk(p.s.up, []);
    } else {
      TransitFirst(p.s, []);
    }
  }

  lemma StrayReadOk(cfg: Config, p: Pair, u: Lane, hu: Pending, hd: Pending)
    requires PairOk(cfg, p, u, hu, hd) && p.s.life == ForwardStray && p.s.down.reading
    ensures PairOk(cfg, p.(s := SStrayRead(p.s)), u, hu, hd.(data := hd.data + 1))
    ensures PairOk(cfg, p.(s := SGone(SStrayRead(p.s))), u, hu, hd)
  {
  }

  lemma TransitFlag(r: Receiver, t: Receiver)
    requires r == t.(closing := r.closing)
    ensures Transit(r, []) == Transit(t, [])
  {
  }

  lemma StrayAloneOk(cfg: Config, p: Pair, u: Lane, hu: Pending, hd: Pending)
    requires PairOk(cfg, p, u, hu, hd) && p.s.life == ForwardStray && p.s.up.writing
    ensures PairOk(cfg, p.(s := SAlone(p.s)), u, hu, hd)
  {
    hide Transit, Concat, FirstWrite;
    var r := WriteDone(p.s.up).(closing := false);
    TransitWriteDone(p.s.up, []);
    assert Transit(r, []) == Transit(WriteDone(p.s.up), []) by { TransitFlag(r, WriteDone(p.s.up)); }
    TransitAsk(r, []);
  }

  lemma ServerGoneOk(cfg: Config, p: Pair, u: Lane, hu: Pending, hd: Pending, h: Pending)
    requires PairOk(cfg, p, u, hu, hd) && p.s.phase == SClosed
    ensures PairOk(cfg, p.(s := SGone(p.s)), u, hu, h) && PairOk(cfg, p.(s := SStrayEnd(p.s)), u, hu, hd)
  {
  }

  /** A session off the list that neither takes more in nor gains credit leaves the way back as it is. */
  lemma OffListDown(cfg: Config, p: Pair, u: Lane, d: Lane, intact: bool, s: Server)
    requires DownOk(cfg, p, u, d, intact) && p.s.phase == SClosed
    requires s.phase == SClosed && s.down.taken == p.s.down.taken
    requires s.down.gate.counter + B(s.down.gate.first) + B(s.down.reading)
      <= p.s.down.gate.counter + B(p.s.down.gate.first) + B(p.s.down.reading)
    requires s.up.inbox.pushAck + s.up.wack <= p.s.up.inbox.pushAck + p.s.up.wack
    ensures DownOk(cfg, p.(s := s), u, d, intact)
  {
  }

  lemma ServerLateDown(cfg: Config, p: Pair, u: Lane, d: Lane, intact: bool)
    requires DownOk(cfg, p, u, d, intact) && p.s.phase == SClosed
    ensures DownOk(cfg, p.(s := SLate(p.s)), u, d, intact) && DownOk(cfg, p.(s := SGone(SLate(p.s))), u, d, intact)
    ensures DownOk(cfg, p.(s := SAlone(p.s)), u, d, intact) && DownOk(cfg, p.(s := SGone(p.s)), u, d, intact)
    ensures DownOk(cfg, p.(s := SGone(SStrayRead(p.s))), u, d, intact)
    ensures DownOk(cfg, p.(s := SStrayEnd(p.s)), u, d, intact)
  {
    hide DownOk;
    OffListDown(cfg, p, u, d, intact, SLate(p.s));
    OffListDown(cfg, p, u, d, intact, SGone(SLate(p.s)));
    OffListDown(cfg, p, u, d, intact, SAlone(p.s));
    OffListDown(cfg, p, u, d, intact, SGone(p.s));
    OffListDown(cfg, p, u, d, intact, SGone(SStrayRead(p.s)));
    OffListDown(cfg, p, u, d, intact, SStrayEnd(p.s));
  }

  lemma ServerRevivedDown(cfg: Config, p: Pair, u: Lane, d: Lane, intact: bool, hu: Pending, hd: Pending)
    requires PairOk(cfg, p, u, hu, hd) && DownOk(cfg, p, u, d, intact) && (p.s.life == Due || p.s.life == ConnectStray)
    ensures DownOk(cfg, p.(s := SRevived(p.s)), u, d, intact)
  {
    hide DownOk, UpFifo;
    OffListDown(cfg, p, u, d, intact, SRevived(p.s));
  }

  /** An acknowledgement of an earlier session of the id joins the way back. */
  lemma ForeignDown(cfg: Config, p: Pair, u: Lane, d: Lane, intact: bool, hu: Pending, hd: Pending, n: nat)
    requires PairOk(cfg, p, u, hu, hd) && DownOk(cfg, p, u, d, intact) && SAlive(p.s)
    ensures DownOk(cfg, p.(foreign := p.foreign + n), u, d.(acks := d.acks + n), intact)
  {
  }
}
