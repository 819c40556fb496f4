/** What the invariant means for the streams: nothing is lost, nothing waits for ever. */
module Progress {
  import opened Bytes
  import opened Frames
  import opened Trojan
  import opened Session
  import opened Flight
  import opened Protocol

  // ---- the receive loops leave nothing behind ----

  /** The receive loop of a pipe has taken all it can: no complete frame, no complete password line. */
  predicate DryPipe(pw: bytes, p: Pipe) {
    if p.streaming then Next(p.rbuf) == Incomplete else |p.rbuf| <= |pw| + 1
  }

  predicate Dry(y: Sys) {
    DryPipe(y.pw, y.up) && DryPipe(y.pw, y.down)
  }

  lemma {:induction false} DrainedDry(s: bytes)
    ensures Drain(s).ok ==> Next(Drain(s).rest) == Incomplete
    decreases |s|
  {
    hide Next;
    match Next(s)
    case Incomplete =>
    case Malformed =>
    case Got(f, n) => DrainedDry(s[n..]);
  }

  lemma ReceivedUpDry(y: Sys, n: nat)
    requires Inv(y) && Dry(y) && Enabled(y, ReceivedUp(n))
    ensures Dry(Step(y, ReceivedUp(n)))
  {
    hide Core, CalmLine, Flying, Drain, Next, ServeAll, FindCrlf, NoCrlf, Stream, Body;
    MovePipe(y.pw, y.up, n);
    MoveStays(y.up, n);
    var z := y.(up := Moved(y.up, n));
    if z.up.streaming {
      DrainPipe(z.pw, z.up);
      DrainedDry(z.up.rbuf);
    } else {
      HandshakePipe(z.pw, z.up);
      if FindCrlf(z.up.rbuf).Some? {
        var q := z.up.(streaming := true, rbuf := z.up.rbuf[|z.pw| + 2..]);
        DrainPipe(z.pw, q);
        DrainedDry(q.rbuf);
      }
    }
  }

  lemma ReceivedDownDry(y: Sys, n: nat)
    requires Inv(y) && Dry(y) && Enabled(y, ReceivedDown(n))
    ensures Dry(Step(y, ReceivedDown(n)))
  {
    hide Core, CalmLine, Flying, Drain, Next, HearAll, Stream, Body;
    MovePipe(y.pw, y.down, n);
    MoveStays(y.down, n);
    DrainPipe(y.pw, Moved(y.down, n));
    DrainedDry(Moved(y.down, n).rbuf);
  }

  /** Nothing is read off the streams. */
  predicate ReadsNothing(y: Sys, z: Sys) {
    && z.cfg == y.cfg && z.pw == y.pw
    && z.up.rbuf == y.up.rbuf && z.up.streaming == y.up.streaming
    && z.down.rbuf == y.down.rbuf && z.down.streaming == y.down.streaming
  }

  lemma ServerReadsNothing(y: Sys, e: Event)
    requires Enabled(y, e)
    ensures On(e) ==> ReadsNothing(y, ServerStep(y, e))
    ensures Off(e) ==> ReadsNothing(y, OffStep(y, e))
  {
    hide Encode, Legal, OpensUdp, Sendable, DeedOf, DeedLine, Serves, Serving, WithServer, AliveAt;
    hide SConnected, SRead, SWriteDone, SEnd, OffList, Found;
  }

  lemma OthersReadNothing(y: Sys, e: Event)
    requires Enabled(y, e) && !e.ReceivedUp? && !e.ReceivedDown?
    ensures ReadsNothing(y, Step(y, e))
  {
    hide Encode, Legal, ServeAll, HearAll, ResumeClients, ResumeServers, OpensUdp, Sendable, OffList, Found;
    hide LoseClients, LoseServers, Latest, WithClient, AliveAt, ServerStep, OffStep, ServerIn, ClientIn;
    hide CRequest, CRead, CWriteDone, CLate, CEnd;
    ServerReadsNothing(y, e);
  }

  lemma StepDry(y: Sys, e: Event)
    requires Inv(y) && Dry(y) && Enabled(y, e)
    ensures Dry(Step(y, e))
  {
    hide Inv, Next, Enabled, Step;
    match e
    case ReceivedUp(n) => ReceivedUpDry(y, n);
    case ReceivedDown(n) => ReceivedDownDry(y, n);
    case _ => OthersReadNothing(y, e);
  }

  /** What holds in every state of every run. */
  ghost predicate Held(y: Sys) {
    Inv(y) && Dry(y)
  }

  lemma {:induction false} RunHeld(y: Sys, es: seq<Event>)
    requires Held(y) && IsRun(y, es)
    ensures Held(Run(y, es)) && forall x: u16 :: Still(y, x) && IsCalm(y, es, x) ==> Still(Run(y, es), x)
    decreases |es|
  {
    hide Inv, Still, Dry, Enabled, Step, Patient;
    if es != [] {
      StepKeeps(y, es[0]);
      StepDry(y, es[0]);
      RunHeld(Step(y, es[0]), es[1..]);
    }
  }

  /** The state after a run from the start. */
  function After(cfg: Config, pw: bytes, es: seq<Event>): (y: Sys)
    requires IsRun(Start(cfg, pw), es)
  {
    Run(Start(cfg, pw), es)
  }

  lemma EveryRun(cfg: Config, pw: bytes, es: seq<Event>)
    requires Configured(Start(cfg, pw)) && IsRun(Start(cfg, pw), es)
    ensures Held(After(cfg, pw, es))
    ensures forall x: u16 :: IsCalm(Start(cfg, pw), es, x) ==> Still(After(cfg, pw, es), x)
  {
    hide Inv, Still, Step, Enabled, Patient;
    StartInv(cfg, pw);
    RunHeld(Start(cfg, pw), es);
  }

  /** The payloads of one opening still framed: in a cache, on the wire or in a read buffer. */
  function FramedUp(y: Sys, id: u16, k: nat): (r: seq<bytes>) {
    UpLane(id, |Of(y.lines, id)|, k, AirOf(y)).datas
  }

  function FramedDown(y: Sys, id: u16): (r: seq<bytes>) {
    DownLane(id, AirOf(y)).datas
  }

  /** The acknowledgement counts in flight. */
  function AcksUp(y: Sys, id: u16, k: nat): (n: nat) {
    UpLane(id, |Of(y.lines, id)|, k, AirOf(y)).acks
  }

  function AcksDown(y: Sys, id: u16): (n: nat) {
    DownLane(id, AirOf(y)).acks
  }

  /** What is known of every opening of every id in every run. */
  lemma Facts(y: Sys, id: u16, k: nat)
    requires Inv(y) && k < |Of(y.lines, id)|
    ensures var l, a := Of(y.lines, id), AirOf(y);
      PairOk(y.cfg, l[k], UpLane(id, |l|, k, a), HU(id, k, a), HD(id, k, a))
  {
    hide PairOk, PipeOk, Flying, Handlers, UpLane, HU, HD, Ordered;
    var l, a := Of(y.lines, id), AirOf(y);
    assert LineOk(y.cfg, id, l, a) && OpeningOk(y.cfg, id, l, k, a);
  }

  lemma StepConfig(y: Sys, e: Event)
    requires Enabled(y, e)
    ensures Step(y, e).cfg == y.cfg && Step(y, e).pw == y.pw
  {
    hide Moved, Drain, FindCrlf, Enabled, ServeAll, HearAll;
    if !e.ReceivedUp? && !e.ReceivedDown? {
      hide Step;
      OthersReadNothing(y, e);
    }
  }

  lemma {:induction false} RunConfig(y: Sys, es: seq<Event>)
    requires IsRun(y, es)
    ensures Run(y, es).cfg == y.cfg && Run(y, es).pw == y.pw
    decreases |es|
  {
    hide Enabled, Step;
    if es != [] {
      StepConfig(y, es[0]);
      RunConfig(Step(y, es[0]), es[1..]);
    }
  }

  // ---- the streams ----

  lemma UpPrefix(cfg: Config, p: Pair, u: Lane, hu: Pending, hd: Pending)
    requires PairOk(cfg, p, u, hu, hd) && p.c.req.Some?
    ensures p.s.up.written + p.s.up.wdata <= UpGoal(cfg, p)
  {
  }

  /** Client to target. In every state of every run, of every session ever opened under any id, the bytes
      written to its target are a prefix of what its request leaves to write followed by what its client
      read, and while the server session lives, written, being written, queued, and still framed make up
      exactly that, in order. Before the request arrives its frame leads the frames of the session. */
  lemma UpstreamExact(cfg: Config, pw: bytes, es: seq<Event>, id: u16, k: nat)
    requires Configured(Start(cfg, pw)) && IsRun(Start(cfg, pw), es)
    ensures var y := After(cfg, pw, es); !y.broken && (k < |Of(y.lines, id)| ==>
      var p, framed := Of(y.lines, id)[k], FramedUp(y, id, k);
      && (p.c.req.None? ==> p.s.up.written == [] && p.s.up.wdata == [] && framed == [])
      && (p.c.req.Some? ==>
            var goal := FirstWrite(p.c.req.value, cfg.known) + p.c.up.taken;
            && p.s.up.written + p.s.up.wdata <= goal
            && (p.s.phase == SConnect || p.s.phase == SForward ==>
                  p.s.outBuf + (p.s.up.written + p.s.up.wdata + p.s.up.inbox.queue + Concat(framed)) == goal)
            && (p.s.phase == SNone || p.s.phase == SHandshake ==>
                  framed != [] && framed[0] == p.c.req.value && Concat(framed[1..]) == p.c.up.taken)))
  {
    hide Core, CalmLine, Flying, Run, IsRun, IsCalm, PipeOk, FirstWrite, Concat, UpLane, HU, HD, NoCrlf;
    var y := After(cfg, pw, es);
    EveryRun(cfg, pw, es);
    RunConfig(Start(cfg, pw), es);
    if k < |Of(y.lines, id)| {
      var l, a := Of(y.lines, id), AirOf(y);
      Facts(y, id, k);
      if l[k].c.req.Some? {
        UpPrefix(cfg, l[k], UpLane(id, |l|, k, a), HU(id, k, a), HD(id, k, a));
      }
    }
  }

  /** Only the last client session under an id lives. */
  lemma ClosedBefore(y: Sys, id: u16, k: nat)
    requires Inv(y) && k < |Of(y.lines, id)|
    ensures k < |Of(y.lines, id)| - 1 ==> Of(y.lines, id)[k].c.phase == CClosed
  {
    hide PairOk, PipeOk, Flying, Handlers, UpLane, HU, HD, Ordered;
    var l, a := Of(y.lines, id), AirOf(y);
    assert LineOk(y.cfg, id, l, a) && OpeningOk(y.cfg, id, l, k, a);
  }

  /** Target to client, over runs that are calm as far as the id goes: the same, with no request in front. */
  lemma DownstreamExact(cfg: Config, pw: bytes, es: seq<Event>, id: u16, k: nat)
    requires Configured(Start(cfg, pw)) && IsRun(Start(cfg, pw), es) && IsCalm(Start(cfg, pw), es, id)
    ensures var y := After(cfg, pw, es); k < |Of(y.lines, id)| ==>
      var p, framed := Of(y.lines, id)[k], FramedDown(y, id);
      && p.c.down.written + p.c.down.wdata <= p.s.down.taken
      && (p.c.phase != CClosed ==>
            p.c.down.written + p.c.down.wdata + p.c.down.inbox.queue + Concat(framed) == p.s.down.taken)
  {
    hide Core, Flying, Handlers, Run, IsRun, IsCalm, PipeOk, FirstWrite, Concat, UpLane, DownLane, HU, HD, NoCrlf;
    var y := After(cfg, pw, es);
    EveryRun(cfg, pw, es);
    RunConfig(Start(cfg, pw), es);
    var l, a := Of(y.lines, id), AirOf(y);
    if k < |l| {
      ClientFacts(y, id);
      ClosedBefore(y, id, k);
    }
  }

  // ---- credit ----

  /** The credit of the session that has the id, client to target and back. */
  function UpTotal(y: Sys, id: u16): (n: int)
    requires Of(y.lines, id) != []
  {
    var l := Of(y.lines, id);
    var p := l[|l| - 1];
    Credit(p.c.up, p.s.up, |FramedUp(y, id, |l| - 1)| - B(RequestFlying(p)), AcksDown(y, id))
  }

  function DownTotal(y: Sys, id: u16): (n: int)
    requires Of(y.lines, id) != []
  {
    var l := Of(y.lines, id);
    var p := l[|l| - 1];
    Credit(p.s.down, p.c.down, |FramedDown(y, id)|, AcksUp(y, id, |l| - 1))
  }

  /** The request is counted out only where it is in flight. */
  lemma NonNegative(cfg: Config, p: Pair, u: Lane, hu: Pending, hd: Pending)
    requires PairOk(cfg, p, u, hu, hd)
    ensures |u.datas| - B(RequestFlying(p)) >= 0
  {
  }

  /** Both ways, never more than a window and one frames are unacknowledged, the one for the free first
      call, plus what late writes of former sessions under the id have acknowledged. As long as counts up
      to that fit the 16 bits of their frame, the credit is exactly that much, and no count is ever cut. */
  lemma CreditConserved(cfg: Config, pw: bytes, es: seq<Event>, id: u16)
    requires Configured(Start(cfg, pw)) && IsRun(Start(cfg, pw), es) && IsCalm(Start(cfg, pw), es, id)
    ensures var y := After(cfg, pw, es); var l := Of(y.lines, id); l != [] ==>
      var p := l[|l| - 1]; var window := cfg.cwindow + p.foreign;
      && (Intact(y) || p.s.phase != SClosed ==> UpTotal(y, id) <= window + 1)
      && DownTotal(y, id) <= cfg.swindow + 1
      && (BothAlive(p) && Countable(window) ==> UpTotal(y, id) == window + 1 && p.s.up.wack < 0x1_0000)
      && (BothAlive(p) && Countable(cfg.swindow) ==> DownTotal(y, id) == cfg.swindow + 1)
      && (Countable(cfg.swindow) ==> p.c.down.wack < 0x1_0000)
  {
    hide Core, CalmLine, Flying, Run, IsRun, IsCalm, PipeOk, FirstWrite, Transit;
    hide UpLane, DownLane, HU, HD, NoCrlf, UpFifo, DownFifo;
    var y := After(cfg, pw, es);
    EveryRun(cfg, pw, es);
    RunConfig(Start(cfg, pw), es);
    var l, a := Of(y.lines, id), AirOf(y);
    if l != [] {
      var j := |l| - 1;
      ClientFacts(y, id);
      NonNegative(y.cfg, l[j], UpLane(id, |l|, j, a), HU(id, j, a), HD(id, j, a));
    }
  }

  // ---- no lost wake-up ----

  /** In every run, every session ever opened: each forwarding end reads, sends or waits for credit, one
      at a time, so a read is never started twice; and it waits for a frame, writes or acknowledges, one
      at a time. */
  lemma OneAtATime(cfg: Config, pw: bytes, es: seq<Event>, id: u16, k: nat)
    requires Configured(Start(cfg, pw)) && IsRun(Start(cfg, pw), es)
    ensures var y := After(cfg, pw, es); k < |Of(y.lines, id)| ==>
      var p, hu, hd := Of(y.lines, id)[k], HU(id, k, AirOf(y)), HD(id, k, AirOf(y));
      && !p.c.up.fault && !p.s.down.fault
      && (p.c.phase == CForward ==> OneActivity(p.c.up, hu.data) && OneDelivery(p.c.down, hu.ack))
      && (Forwards(p.s) ==> OneActivity(p.s.down, hd.data) && OneDelivery(p.s.up, hd.ack))
  {
    hide Core, CalmLine, Flying, Run, IsRun, IsCalm, PipeOk, FirstWrite, Concat, UpLane, HU, HD, NoCrlf;
    var y := After(cfg, pw, es);
    EveryRun(cfg, pw, es);
    if k < |Of(y.lines, id)| {
      Facts(y, id, k);
    }
  }

  /** A waiting sender whose peer lives has spent all its credit, and every unit of it is in a frame, with
      the receiver, or in an acknowledgement in flight; and a receiver that holds frames is writing,
      acknowledging or connecting, never idle. */
  lemma NoLostWakeUp(cfg: Config, pw: bytes, es: seq<Event>, id: u16)
    requires Configured(Start(cfg, pw)) && IsRun(Start(cfg, pw), es) && IsCalm(Start(cfg, pw), es, id)
    ensures var y := After(cfg, pw, es); var l := Of(y.lines, id); l != [] ==>
      var k := |l| - 1; var p := l[k];
      && (p.c.phase == CForward && p.s.phase != SClosed && p.c.up.gate.wait && Countable(cfg.cwindow + p.foreign) ==>
            |FramedUp(y, id, k)| - B(RequestFlying(p)) + p.s.up.inbox.pushAck + p.s.up.wack + AcksDown(y, id)
              == cfg.cwindow + p.foreign + 1)
      && (p.s.phase == SForward && p.c.phase != CClosed && p.s.down.gate.wait && Countable(cfg.swindow) ==>
            |FramedDown(y, id)| + p.c.down.inbox.pushAck + p.c.down.wack + AcksUp(y, id, k) == cfg.swindow + 1)
  {
    hide Core, CalmLine, Flying, Run, IsRun, IsCalm, PipeOk, FirstWrite, Transit;
    hide UpLane, DownLane, HU, HD, NoCrlf, UpFifo, DownFifo;
    var y := After(cfg, pw, es);
    EveryRun(cfg, pw, es);
    RunConfig(Start(cfg, pw), es);
    if Of(y.lines, id) != [] {
      ClientFacts(y, id);
    }
  }

  // ---- closing ----

  lemma EndedClosed(y: Sys, id: u16, k: nat)
    requires Inv(y) && k < |Of(y.lines, id)| && Of(y.lines, id)[k].s.ended != Running
    ensures Of(y.lines, id)[k].s.phase == SClosed
  {
    hide Core, Flying, PipeOk, UpLane, HU, HD, UpLink, ClientShape;
    Facts(y, id, k);
  }

  lemma LengthTells(a: bytes, b: bytes, c: bytes)
    ensures b == a + (b + c) <==> a == [] && c == []
  {
  }

  lemma ClosedWhole(r: Receiver)
    requires r.inbox.queue == []
    ensures Transit(r, []) == r.written + r.wdata
  {
  }

  /** In every run, a server session ended by its peer's CLOSE has written everything the client took in,
      except that one closed while its target was still being connected loses what the request left to
      write, and only that, unless the connect still completes: all was written if and only if nothing of
      it is left, nor in a write that has not completed. A close that waits always has a write in progress
      or bytes queued. */
  lemma GracefulClose(cfg: Config, pw: bytes, es: seq<Event>, id: u16, k: nat)
    requires Configured(Start(cfg, pw)) && IsRun(Start(cfg, pw), es)
    ensures var y := After(cfg, pw, es); k < |Of(y.lines, id)| ==>
      var p := Of(y.lines, id)[k];
      && (p.s.ended == PeerClosed && p.c.req.Some? ==>
            var goal := FirstWrite(p.c.req.value, cfg.known) + p.c.up.taken;
            && p.s.outBuf + (p.s.up.written + p.s.up.wdata) == goal
            && (p.s.up.written == goal <==> p.s.outBuf == [] && p.s.up.wdata == []))
      && (p.c.phase == CForward && p.c.down.closing ==> p.c.down.writing || p.c.down.inbox.queue != [])
      && (SAlive(p.s) && p.s.up.closing ==> p.s.up.writing || p.s.up.inbox.queue != [])
  {
    hide Core, CalmLine, Flying, Run, IsRun, IsCalm, PipeOk, FirstWrite, Transit, UpLane, HU, HD, NoCrlf;
    var y := After(cfg, pw, es);
    EveryRun(cfg, pw, es);
    RunConfig(Start(cfg, pw), es);
    if k < |Of(y.lines, id)| {
      Facts(y, id, k);
      var p := Of(y.lines, id)[k];
      if p.s.ended == PeerClosed && p.c.req.Some? {
        EndedClosed(y, id, k);
        ClosedWhole(p.s.up);
        LengthTells(p.s.outBuf, p.s.up.written, p.s.up.wdata);
      }
    }
  }

  /** In a run calm as far as the id goes, a client session ended by its peer's CLOSE has written everything
      the target sent, and as long as the connection holds, a session closed at one end only has its CLOSE
      in flight or waiting at the other. */
  lemma ClosesMeet(cfg: Config, pw: bytes, es: seq<Event>, id: u16)
    requires Configured(Start(cfg, pw)) && IsRun(Start(cfg, pw), es) && IsCalm(Start(cfg, pw), es, id)
    ensures var y := After(cfg, pw, es); var l := Of(y.lines, id); l != [] ==>
      var p, up, down := l[|l| - 1], UpLane(id, |l|, |l| - 1, AirOf(y)), DownLane(id, AirOf(y));
      && (p.c.ended == PeerClosed ==> p.c.down.written == p.s.down.taken)
      && (Intact(y) && p.c.phase == CClosed && p.s.phase != SClosed ==> up.close || p.s.up.closing)
      && (Intact(y) && p.s.phase == SClosed && p.c.phase != CClosed ==> down.close || p.c.down.closing)
  {
    hide Core, CalmLine, Flying, Run, IsRun, IsCalm, PipeOk, FirstWrite, Transit;
    hide UpLane, DownLane, HU, HD, NoCrlf, UpCredit, DownCredit;
    var y := After(cfg, pw, es);
    EveryRun(cfg, pw, es);
    RunConfig(Start(cfg, pw), es);
    if Of(y.lines, id) != [] {
      ClientFacts(y, id);
    }
  }
}
