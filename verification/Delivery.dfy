/** Left alone, a connected pipeline comes to rest, and at rest everything has been delivered. */
module Delivery {
  import opened Bytes
  import opened Frames
  import opened SendCache
  import opened Trojan
  import opened Session
  import opened Flight
  import opened Protocol
  import opened Progress

  /** The events that finish operations of sessions both ends still have, as opposed to new input, failures
      and what sessions that have ended still do. */
  predicate Internal(e: Event) {
    || e.ReceivedUp? || e.ReceivedDown? || e.SentUp? || e.SentDown?
    || e.ClientWritten? || e.ServerWritten? || e.TargetConnected?
  }

  /** Nothing started is left to finish. */
  ghost predicate AtRest(y: Sys) {
    forall e :: Internal(e) ==> !Enabled(y, e)
  }

  // ---- the measure ----

  /** Work still to be done by a receiver: a write in progress, and bytes queued for another. */
  function Work(r: Receiver): (n: nat) {
    18 * B(r.writing) + 19 * B(r.inbox.queue != [])
  }

  function PairWork(p: Pair): (n: nat) {
    (if p.c.phase == CClosed then 0 else Work(p.c.down))
    + (if SAlive(p.s) then Work(p.s.up) + 40 * B(p.s.phase == SConnect) else 0)
  }

  function LineWork(l: seq<Pair>): (n: nat) {
    if l == [] then 0 else PairWork(l[0]) + LineWork(l[1..])
  }

  function LinesWork(t: Lines, n: nat): (r: nat) {
    if n == 0 then 0
    else LinesWork(t, n - 1) + (if n - 1 in t then LineWork(t[n - 1]) else 0)
  }

  lemma {:induction false} LineWorkUpdate(l: seq<Pair>, i: nat, p: Pair)
    requires i < |l|
    ensures LineWork(l[i := p]) + PairWork(l[i]) == LineWork(l) + PairWork(p)
  {
    hide PairWork;
    if i > 0 {
      LineWorkUpdate(l[1..], i - 1, p);
      assert l[i := p][1..] == l[1..][i - 1 := p];
    } else {
      assert l[i := p][1..] == l[1..];
    }
  }

  lemma NoWork()
    ensures LineWork([]) == 0
  {
  }

  lemma {:induction false} LinesWorkUpdate(t: Lines, id: u16, l: seq<Pair>, n: nat)
    ensures LinesWork(t[id := l], n) + (if id < n then LineWork(Of(t, id)) else 0)
         == LinesWork(t, n) + (if id < n then LineWork(l) else 0)
  {
    hide LineWork;
    assert LineWork([]) == 0 by { NoWork(); }
    if n > 0 {
      LinesWorkUpdate(t, id, l, n - 1);
    }
  }

  /** Replacing one opening of a line by one with at most `extra` more to do. */
  lemma OneWork(t: Lines, id: u16, i: nat, p: Pair, extra: nat, n: nat)
    requires i < |Of(t, id)| && PairWork(p) <= PairWork(Of(t, id)[i]) + extra
    ensures LinesWork(t[id := Of(t, id)[i := p]], n) <= LinesWork(t, n) + extra
  {
    hide PairWork, LineWork, LinesWork;
    LineWorkUpdate(Of(t, id), i, p);
    LinesWorkUpdate(t, id, Of(t, id)[i := p], n);
  }

  /** A frame that can give its receiver something to write. */
  predicate Loads(f: Frame) {
    f.Data? || f.Connect?
  }

  function DataFrames(fs: seq<Frame>): (n: nat) {
    if fs == [] then 0 else B(Loads(fs[0])) + DataFrames(fs[1..])
  }

  lemma {:induction false} DataFramesSplit(a: seq<Frame>, b: seq<Frame>)
    ensures DataFrames(a + b) == DataFrames(a) + DataFrames(b)
  {
    if a == [] {
      assert a + b == b;
    } else {
      assert (a + b)[1..] == a[1..] + b;
      DataFramesSplit(a[1..], b);
    }
  }

  function PipeWork(pw: bytes, p: Pipe): (n: nat) {
    3 * |p.cache.queue| + 2 * B(p.cache.sending) + |p.net| + 60 * DataFrames(Flying(pw, p))
  }

  function Measure(y: Sys, ids: nat): (n: nat) {
    PipeWork(y.pw, y.up) + PipeWork(y.pw, y.down) + LinesWork(y.lines, ids)
  }

  // ---- what each event costs ----

  lemma EvictWork(l: seq<Pair>)
    ensures LineWork(Evicted(l)) <= LineWork(l)
  {
    hide LineWork, AliveAt;
    var j := AliveAt(l);
    if j < |l| {
      LineWorkUpdate(l, j, Evicted(l)[j]);
    }
  }

  lemma ServeLineWork(cfg: Config, l: seq<Pair>, f: Frame)
    ensures LineWork(ServeLine(cfg, l, f)) <= LineWork(l) + 60 * B(Loads(f))
  {
    hide LineWork, AliveAt, NewAt, Evicted;
    if f.Connect? {
      EvictWork(l);
      var k := NewAt(Evicted(l));
      if k < |l| {
        LineWorkUpdate(Evicted(l), k, Evicted(l)[k].(s := SOnConnect(cfg)));
      }
    } else if AliveAt(l) < |l| {
      LineWorkUpdate(l, AliveAt(l), l[AliveAt(l)].(s := OnServer(cfg, l[AliveAt(l)].s, f)));
    }
  }

  lemma ServeWork(cfg: Config, t: Lines, f: Frame, n: nat)
    ensures LinesWork(Serve(cfg, t, f), n) <= LinesWork(t, n) + 60 * B(Loads(f))
  {
    hide LinesWork, LineWork, ServeLine;
    if !f.Icmp? {
      ServeLineWork(cfg, Of(t, f.id), f);
      LinesWorkUpdate(t, f.id, ServeLine(cfg, Of(t, f.id), f), n);
    }
  }

  lemma HearLineWork(l: seq<Pair>, f: Frame)
    ensures LineWork(HearLine(l, f)) <= LineWork(l) + 60 * B(Loads(f))
  {
    hide LineWork;
    if l != [] {
      LineWorkUpdate(l, |l| - 1, l[|l| - 1].(c := OnClient(l[|l| - 1].c, f)));
    }
  }

  lemma HearWork(t: Lines, f: Frame, n: nat)
    ensures LinesWork(Hear(t, f), n) <= LinesWork(t, n) + 60 * B(Loads(f))
  {
    hide LinesWork, LineWork, HearLine;
    if !f.Icmp? {
      HearLineWork(Of(t, f.id), f);
      LinesWorkUpdate(t, f.id, HearLine(Of(t, f.id), f), n);
    }
  }

  lemma {:induction false} ServeAllWork(cfg: Config, t: Lines, fs: seq<Frame>, n: nat)
    ensures LinesWork(ServeAll(cfg, t, fs), n) <= LinesWork(t, n) + 60 * DataFrames(fs)
    decreases |fs|
  {
    hide LinesWork, Serve;
    if fs != [] {
      ServeWork(cfg, t, fs[0], n);
      ServeAllWork(cfg, Serve(cfg, t, fs[0]), fs[1..], n);
    }
  }

  lemma {:induction false} HearAllWork(t: Lines, fs: seq<Frame>, n: nat)
    ensures LinesWork(HearAll(t, fs), n) <= LinesWork(t, n) + 60 * DataFrames(fs)
    decreases |fs|
  {
    hide LinesWork, Hear;
    if fs != [] {
      HearWork(t, fs[0], n);
      HearAllWork(Hear(t, fs[0]), fs[1..], n);
    }
  }

  lemma {:induction false} ResumeClientsWork(t: Lines, hs: seq<Handler>, n: nat)
    ensures LinesWork(ResumeClients(t, hs), n) <= LinesWork(t, n)
    decreases |hs|
  {
    hide LinesWork;
    if hs != [] {
      var h := hs[0];
      if h != Ignored && h.opening < |Of(t, h.id)| {
        OneWork(t, h.id, h.opening, OnSent(Of(t, h.id)[h.opening], h), 0, n);
      }
      ResumeClientsWork(ResumeClient(t, h), hs[1..], n);
    }
  }

  lemma {:induction false} ResumeServersWork(t: Lines, hs: seq<Handler>, n: nat)
    ensures LinesWork(ResumeServers(t, hs), n) <= LinesWork(t, n)
    decreases |hs|
  {
    hide LinesWork;
    if hs != [] {
      var h := hs[0];
      if h != Ignored && h.opening < |Of(t, h.id)| {
        OneWork(t, h.id, h.opening, OnServed(Of(t, h.id)[h.opening], h), 0, n);
      }
      ResumeServersWork(ResumeServer(t, h), hs[1..], n);
    }
  }

  /** A short control frame costs less than the write it answers. */
  lemma SendWork(pw: bytes, p: Pipe, f: Frame, h: Handler)
    requires PipeOk(pw, p) && (f.Ack? || f.Close?) && !p.cache.destroyed
    ensures PipeWork(pw, Send(p, f, h)) <= PipeWork(pw, p) + 17
  {
    hide Flying, Drain, Body, Stream;
    SendPipe(pw, p, f, h);
    DataFramesSplit(Flying(pw, p), [f]);
    assert DataFrames([f]) == 0;
    assert |Encode(f)| <= 5;
  }

  lemma SettleWork(pw: bytes, p: Pipe)
    requires PipeOk(pw, p) && p.cache.connected && p.cache.sending
    ensures PipeWork(pw, Settle(p)) < PipeWork(pw, p)
  {
    hide Flying, Drain, Body, Stream;
    SettlePipe(pw, p);
  }

  lemma MoveWork(pw: bytes, p: Pipe, n: nat)
    requires PipeOk(pw, p) && 1 <= n <= |p.net|
    ensures PipeWork(pw, Moved(p, n)) < PipeWork(pw, p)
  {
    hide Flying, Drain, Body, Stream;
    MovePipe(pw, p, n);
  }

  lemma DrainWork(pw: bytes, p: Pipe)
    requires PipeOk(pw, p) && p.streaming && p.cache.connected
    ensures PipeWork(pw, p.(rbuf := Drain(p.rbuf).rest)) + 60 * DataFrames(Drain(p.rbuf).frames) == PipeWork(pw, p)
  {
    hide Flying, Drain, Body, Stream;
    DrainPipe(pw, p);
    DataFramesSplit(Drain(p.rbuf).frames, Flying(pw, p.(rbuf := Drain(p.rbuf).rest)));
  }

  lemma OpenWork(pw: bytes, p: Pipe)
    requires PipeOk(pw, p) && !p.streaming && p.cache.connected && NoCrlf(pw) && FindCrlf(p.rbuf).Some?
    ensures |pw| + 2 <= |p.rbuf|
    ensures PipeWork(pw, p.(streaming := true, rbuf := p.rbuf[|pw| + 2..])) == PipeWork(pw, p)
  {
    hide Flying, Drain, Body, Stream, NoCrlf;
    HandshakePipe(pw, p);
  }

  // ---- internal events only finish work ----

  lemma ReceivedUpWork(y: Sys, n: nat, ids: nat)
    requires Inv(y) && Enabled(y, ReceivedUp(n))
    ensures Measure(Step(y, ReceivedUp(n)), ids) < Measure(y, ids)
  {
    hide Core, CalmLine, Flying, Drain, Body, Stream, FindCrlf, NoCrlf, LinesWork, PipeWork, ServeAll, DataFrames;
    MoveWork(y.pw, y.up, n);
    MovePipe(y.pw, y.up, n);
    var p := Moved(y.up, n);
    if p.streaming {
      DrainWork(y.pw, p);
      ServeAllWork(y.cfg, y.lines, Drain(p.rbuf).frames, ids);
    } else {
      HandshakePipe(y.pw, p);
      if FindCrlf(p.rbuf).Some? {
        OpenWork(y.pw, p);
        var q := p.(streaming := true, rbuf := p.rbuf[|y.pw| + 2..]);
        DrainWork(y.pw, q);
        ServeAllWork(y.cfg, y.lines, Drain(q.rbuf).frames, ids);
      }
    }
  }

  lemma ReceivedDownWork(y: Sys, n: nat, ids: nat)
    requires Inv(y) && Enabled(y, ReceivedDown(n))
    ensures Measure(Step(y, ReceivedDown(n)), ids) < Measure(y, ids)
  {
    hide Core, CalmLine, Flying, Drain, Body, Stream, LinesWork, PipeWork, HearAll, DataFrames;
    MoveWork(y.pw, y.down, n);
    MovePipe(y.pw, y.down, n);
    var p := Moved(y.down, n);
    DrainWork(y.pw, p);
    HearAllWork(y.lines, Drain(p.rbuf).frames, ids);
  }

  lemma SentWork(y: Sys, e: Event, ids: nat)
    requires Inv(y) && Enabled(y, e) && (e.SentUp? || e.SentDown?)
    ensures Measure(Step(y, e), ids) < Measure(y, ids)
  {
    hide Core, CalmLine, Flying, Drain, Body, Stream, LinesWork, PipeWork, ResumeClients, ResumeServers;
    if e.SentUp? {
      SettleWork(y.pw, y.up);
      ResumeClientsWork(y.lines, y.up.cache.flying, ids);
    } else {
      SettleWork(y.pw, y.down);
      ResumeServersWork(y.lines, y.down.cache.flying, ids);
    }
  }

  lemma ClientWrittenWork(y: Sys, id: u16)
    requires Inv(y) && Enabled(y, ClientWritten(id))
    ensures Measure(Step(y, ClientWritten(id)), IDS) < Measure(y, IDS)
  {
    hide Core, CalmLine, Flying, PipeOk, LinesWork, LineWork, PipeWork, Send;
    var l := Of(y.lines, id);
    var k := |l| - 1;
    var p := l[k].(c := CWriteDone(l[k].c));
    LineWorkUpdate(l, k, p);
    LinesWorkUpdate(y.lines, id, l[k := p], IDS);
    SendWork(y.pw, y.up, Close(id), Ignored);
    SendWork(y.pw, y.up, Ack(id, l[k].c.down.wack % 0x1_0000), AckSent(id, k));
  }

  lemma ServerWrittenWork(y: Sys, id: u16)
    requires Inv(y) && Enabled(y, ServerWritten(id))
    ensures Measure(Step(y, ServerWritten(id)), IDS) < Measure(y, IDS)
  {
    hide Core, CalmLine, Flying, PipeOk, LinesWork, LineWork, PipeWork, Send;
    var l := Of(y.lines, id);
    var k := AliveAt(l);
    var p := l[k].(s := SWriteDone(l[k].s));
    LineWorkUpdate(l, k, p);
    LinesWorkUpdate(y.lines, id, l[k := p], IDS);
    SendWork(y.pw, y.down, Close(id), Ignored);
    SendWork(y.pw, y.down, Ack(id, l[k].s.up.wack % 0x1_0000), AckSent(id, k));
  }

  lemma ConnectedWork(y: Sys, id: u16)
    requires Inv(y) && Enabled(y, TargetConnected(id))
    ensures Measure(Step(y, TargetConnected(id)), IDS) < Measure(y, IDS)
  {
    hide Core, CalmLine, Flying, PipeOk, LinesWork, LineWork, PipeWork;
    var l := Of(y.lines, id);
    var k := AliveAt(l);
    var p := l[k].(s := SConnected(l[k].s));
    LineWorkUpdate(l, k, p);
    LinesWorkUpdate(y.lines, id, l[k := p], IDS);
  }

  lemma InternalWork(y: Sys, e: Event)
    requires Inv(y) && Enabled(y, e) && Internal(e)
    ensures Measure(Step(y, e), IDS) < Measure(y, IDS)
  {
    hide Inv, Enabled, Step, Measure;
    match e
    case ReceivedUp(n) => ReceivedUpWork(y, n, IDS);
    case ReceivedDown(n) => ReceivedDownWork(y, n, IDS);
    case SentUp => SentWork(y, e, IDS);
    case SentDown => SentWork(y, e, IDS);
    case ClientWritten(id) => ClientWrittenWork(y, id);
    case ServerWritten(id) => ServerWrittenWork(y, id);
    case TargetConnected(id) => ConnectedWork(y, id);
  }

  predicate AllInternal(es: seq<Event>) {
    forall i :: 0 <= i < |es| ==> Internal(es[i])
  }

  /** No run without new input goes on for ever, whatever order the operations complete in. */
  lemma {:induction false} InternalRunsEnd(y: Sys, es: seq<Event>)
    requires Inv(y) && IsRun(y, es) && AllInternal(es)
    ensures |es| <= Measure(y, IDS)
    decreases |es|
  {
    hide Inv, Enabled, Step, Measure, Internal;
    if es != [] {
      assert Internal(es[0]);
      assert AllInternal(es[1..]);
      InternalWork(y, es[0]);
      StepKeeps(y, es[0]);
      InternalRunsEnd(Step(y, es[0]), es[1..]);
    }
  }

  lemma InternalPatient(y: Sys, e: Event)
    requires Internal(e)
    ensures forall id: u16 :: Patient(y, e, id)
  {
  }

  /** And every state can be brought to rest that way. */
  lemma {:induction false} ComesToRest(y: Sys) returns (es: seq<Event>)
    requires Held(y)
    ensures IsRun(y, es) && AllInternal(es) && AtRest(Run(y, es)) && Held(Run(y, es))
    ensures forall id: u16 :: IsCalm(y, es, id)
    decreases Measure(y, IDS)
  {
    hide Inv, Still, Dry, Enabled, Step, Measure, Internal, Patient;
    if AtRest(y) {
      es := [];
    } else {
      var e :| Internal(e) && Enabled(y, e);
      InternalWork(y, e);
      InternalPatient(y, e);
      StepKeeps(y, e);
      StepDry(y, e);
      var more := ComesToRest(Step(y, e));
      es := [e] + more;
      assert es[1..] == more;
    }
  }

  lemma RestingPipe(pw: bytes, p: Pipe)
    requires PipeOk(pw, p) && DryPipe(pw, p) && p.cache.connected && p.net == [] && !p.cache.sending
    requires !p.cache.destroyed
    ensures Flying(pw, p) == [] && Handlers(p) == []
  {
    hide Next;
    assert Stream(p) == p.rbuf && |pw + CRLF| == |pw| + 2;
  }

  lemma AtRestIsEmpty(y: Sys)
    requires Held(y) && AtRest(y) && y.up.cache.connected && Intact(y)
    ensures AirOf(y) == Air([], [], [], [])
  {
    hide Core, PipeOk, DryPipe, Flying, Handlers;
    assert !Enabled(y, ReceivedUp(1)) && !Enabled(y, ReceivedDown(1));
    assert !Enabled(y, SentUp) && !Enabled(y, SentDown);
    RestingPipe(y.pw, y.up);
    RestingPipe(y.pw, y.down);
  }

  /** Both ends live or both are gone; a live forwarding pair has delivered everything both ways, and
      its ends read with the whole window at hand, where counts fit their frames. */
  predicate Settled(cfg: Config, p: Pair) {
    && (p.c.phase == CClosed <==> p.s.phase == SClosed)
    && (p.c.phase == CForward ==>
          && p.s.phase == SForward && p.c.req.Some?
          && p.s.up.written == FirstWrite(p.c.req.value, cfg.known) + p.c.up.taken
          && p.c.down.written == p.s.down.taken
          && (Countable(cfg.cwindow + p.foreign) ==>
                p.c.up.reading && p.c.up.gate.counter + B(p.c.up.gate.first) == cfg.cwindow + p.foreign)
          && (Countable(cfg.swindow) ==>
                p.s.down.reading && p.s.down.gate.counter + B(p.s.down.gate.first) == cfg.swindow))
  }

  /** Where nothing is in flight and no write or connect is pending. */
  lemma RestingPair(cfg: Config, p: Pair)
    requires PairOk(cfg, p, NoLane, NoHandlers, NoHandlers) && DownOk(cfg, p, NoLane, NoLane, true)
    requires p.c.phase == CForward ==> !p.c.down.writing
    requires p.s.phase == SForward ==> !p.s.up.writing
    requires p.s.phase != SConnect
    ensures Settled(cfg, p)
  {
  }

  /** The session that has the id. */
  function LastOf(y: Sys, id: u16): (p: Pair)
    requires Of(y.lines, id) != []
  {
    Of(y.lines, id)[|Of(y.lines, id)| - 1]
  }

  lemma CoreLine(y: Sys, id: u16)
    requires Inv(y)
    ensures LineOk(y.cfg, id, Of(y.lines, id), AirOf(y))
  {
    hide LineOk, PipeOk, Flying, Handlers;
  }

  lemma EmptyAir(id: u16, n: nat)
    requires n > 0
    ensures var a := Air([], [], [], []);
      && UpLane(id, n, n - 1, a) == NoLane && DownLane(id, a) == NoLane && Coming(id, a) == 0
      && HU(id, n - 1, a) == NoHandlers && HD(id, n - 1, a) == NoHandlers
  {
  }

  lemma AtRestSettled(y: Sys, id: u16)
    requires Held(y) && Still(y, id) && AtRest(y) && y.up.cache.connected && Intact(y) && Of(y.lines, id) != []
    ensures Settled(y.cfg, LastOf(y, id)) && LastOf(y, id).s.phase != SNone
  {
    hide Core, PipeOk, Dry, PairOk, DownOk, Settled, Flying, Handlers, AliveAt;
    var l, a := Of(y.lines, id), AirOf(y);
    var p, n := l[|l| - 1], |l|;
    AtRestIsEmpty(y);
    EmptyAir(id, n);
    ClientFacts(y, id);
    assert LineOk(y.cfg, id, l, a) by { CoreLine(y, id); }
    CalmStanding(y.cfg, id, l, a, true);
    assert !Enabled(y, ClientWritten(id)) && !Enabled(y, ServerWritten(id)) && !Enabled(y, TargetConnected(id));
    RestingPair(y.cfg, p);
  }

  lemma SettleStays(p: Pipe)
    ensures Settle(p).cache.connected == p.cache.connected && Settle(p).cache.destroyed == p.cache.destroyed
  {
  }

  lemma StepConnected(y: Sys, e: Event)
    requires Enabled(y, e) && y.up.cache.connected && Intact(y) && Internal(e)
    ensures Step(y, e).up.cache.connected && Intact(Step(y, e))
  {
    hide Drain, FindCrlf, Encode, Legal, ServeAll, HearAll, ResumeClients, ResumeServers, OpensUdp, Sendable;
    hide AliveAt, WithClient, WithServer, CWriteDone, SWriteDone, SConnected, Moved, Send, Settle;
    match e
    case ReceivedUp(n) => MoveStays(y.up, n);
    case ReceivedDown(n) => MoveStays(y.down, n);
    case SentUp => SettleStays(y.up);
    case SentDown => SettleStays(y.down);
    case ClientWritten(id) =>
      SendStays(y.up, Close(id), Ignored);
      SendStays(y.up, Ack(id, Latest(y.lines, id).down.wack % 0x1_0000), AckSent(id, ClientNo(y.lines, id)));
    case ServerWritten(id) =>
      SendStays(y.down, Close(id), Ignored);
      SendStays(y.down, Ack(id, Serving(y.lines, id).up.wack % 0x1_0000), AckSent(id, ServerNo(y.lines, id)));
    case TargetConnected(_) =>
  }

  lemma {:induction false} StaysConnected(y: Sys, es: seq<Event>)
    requires IsRun(y, es) && y.up.cache.connected && Intact(y) && AllInternal(es)
    ensures Run(y, es).up.cache.connected && Intact(Run(y, es))
    decreases |es|
  {
    hide Step, Enabled, Intact, Internal;
    if es != [] {
      assert Internal(es[0]) && AllInternal(es[1..]);
      StepConnected(y, es[0]);
      StaysConnected(Step(y, es[0]), es[1..]);
    }
  }

  /** Eventual delivery. After any run of a pipeline whose connection is up, letting what is started finish
      leads to rest, and at rest the session of every id the run was calm about, if it still forwards, has
      delivered every byte both ways. */
  lemma EventualDelivery(cfg: Config, pw: bytes, es: seq<Event>) returns (more: seq<Event>)
    requires Configured(Start(cfg, pw)) && IsRun(Start(cfg, pw), es)
    requires After(cfg, pw, es).up.cache.connected && Intact(After(cfg, pw, es))
    ensures IsRun(After(cfg, pw, es), more) && AllInternal(more)
    ensures var z := Run(After(cfg, pw, es), more);
      && AtRest(z)
      && forall id: u16 :: Of(z.lines, id) != [] && IsCalm(Start(cfg, pw), es, id) ==> Settled(cfg, LastOf(z, id))
  {
    hide Inv, Still, Dry, Step, Enabled, Settled, AtRest, Internal, Intact, Patient;
    var y := After(cfg, pw, es);
    EveryRun(cfg, pw, es);
    more := ComesToRest(y);
    RunHeld(y, more);
    StaysConnected(y, more);
    RunConfig(Start(cfg, pw), es);
    RunConfig(y, more);
    var z := Run(y, more);
    forall id: u16 | Of(z.lines, id) != [] && IsCalm(Start(cfg, pw), es, id)
      ensures Settled(cfg, LastOf(z, id))
    {
      AtRestSettled(z, id);
    }
  }
}
