/** The pipeline as a whole: a client and a server process, the send cache of each, the bytes between
    them, and every session that shares the stream. Each event is one callback of the source; the
    environment chooses which pending operation completes next and how reads are cut. */
module Protocol {
  import opened Bytes
  import opened Frames
  import opened SendCache
  import opened Trojan
  import opened Session
  import opened SessionSteps
  import opened Flight

  /** One direction of the stream: the sender's cache, the bytes handed to the transport and not yet
      read, the receiver's read buffer, and whether the receiver is past the password. */
  datatype Pipe = Pipe(cache: View, net: bytes, rbuf: bytes, streaming: bool)

  /** `broken` records that a receiver met a format error or refused the password. */
  datatype Sys = Sys(cfg: Config, pw: bytes, up: Pipe, down: Pipe, lines: Lines, broken: bool)

  const MAX_PASSWORD_LENGTH := 128
  const RECV_BUF_LENGTH := 81920

  // ---- pipes ----

  function Launch(p: Pipe, v: View): (r: Pipe) {
    p.(cache := Kick(v), net := p.net + Launched(v))
  }

  function Send(p: Pipe, f: Frame, h: Handler): (r: Pipe)
    requires Legal(f)
  {
    Launch(p, Queued(p.cache, Encode(f), h))
  }

  /** The end of a completion, after the handlers ran. */
  function Settle(p: Pipe): (r: Pipe) {
    Launch(p, Landed(p.cache))
  }

  /** The client's connection is up: the password goes in front of everything queued. */
  function PasswordFirst(p: Pipe, pw: bytes): (r: Pipe) {
    Launch(p, Inserted(p.cache.(connected := true), pw + CRLF))
  }

  /** The process has lost the connection: its cache tells all handlers and launches nothing more. What
      was launched may still arrive, or any first part of it. */
  function Broken(p: Pipe): (r: Pipe) {
    p.(cache := Abandoned(p.cache))
  }

  function Moved(p: Pipe, n: nat): (r: Pipe)
    requires n <= |p.net|
  {
    p.(net := p.net[n..], rbuf := p.rbuf + p.net[..n])
  }

  function Stream(p: Pipe): (s: bytes) {
    p.rbuf + (p.net + p.cache.queue)
  }

  /** The part of the stream that holds frames. */
  function Body(pw: bytes, p: Pipe): (s: bytes) {
    if p.streaming || !p.cache.connected || |Stream(p)| < |pw| + 2 then Stream(p) else Stream(p)[|pw| + 2..]
  }

  /** The frames in flight are what the bytes in flight say. */
  function Flying(pw: bytes, p: Pipe): (fs: seq<Frame>) {
    Drain(Body(pw, p)).frames
  }

  function Handlers(p: Pipe): (hs: seq<Handler>) {
    p.cache.flying + p.cache.handlers
  }

  /** One write at a time, nothing queued while none is in flight, the password ahead of the first
      frame, and a stream that ends on a frame boundary. */
  predicate PipeOk(pw: bytes, p: Pipe) {
    && (!p.cache.sending || p.cache.destroyed ==> p.cache.flying == [])
    && (p.cache.queue == [] || p.cache.destroyed ==> p.cache.handlers == [])
    && (p.cache.connected && !p.cache.sending && !p.cache.destroyed ==> p.cache.queue == [])
    && (!p.cache.connected ==> p.net == [] && p.rbuf == [] && !p.cache.sending && !p.streaming)
    && (p.cache.connected && !p.streaming ==> pw + CRLF <= Stream(p))
    && Drain(Body(pw, p)).ok
    && Drain(Body(pw, p)).rest == []
  }

  lemma LaunchKeepsStream(p: Pipe, v: View)
    ensures Stream(Launch(p, v)) == p.rbuf + (p.net + v.queue)
  {
  }

  lemma LaunchKeepsHandlers(p: Pipe, v: View)
    requires !v.sending ==> v.flying == []
    ensures Handlers(Launch(p, v)) == v.flying + v.handlers
  {
  }

  lemma SendStream(pw: bytes, p: Pipe, f: Frame, h: Handler)
    requires Legal(f)
    ensures Stream(Send(p, f, h)) == Stream(p) + Encode(f)
    ensures pw + CRLF <= Stream(p) ==> pw + CRLF <= Stream(p) + Encode(f)
  {
    hide Encode, Legal;
    var q := p.cache.queue;
    LaunchKeepsStream(p, Queued(p.cache, Encode(f), h));
    assert p.rbuf + (p.net + (q + Encode(f))) == p.rbuf + (p.net + q) + Encode(f);
  }

  lemma SendBody(pw: bytes, p: Pipe, f: Frame, h: Handler)
    requires Legal(f) && (p.streaming || !p.cache.connected || |Stream(p)| >= |pw| + 2)
    ensures Body(pw, Send(p, f, h)) == Body(pw, p) + Encode(f)
  {
    hide Encode, Legal, Stream;
    SendStream(pw, p, f, h);
  }

  lemma EncodeNonEmpty(f: Frame)
    requires Legal(f)
    ensures Encode(f) != []
  {
  }

  lemma SendPipe(pw: bytes, p: Pipe, f: Frame, h: Handler)
    requires PipeOk(pw, p) && Sendable(f) && !p.cache.destroyed
    ensures PipeOk(pw, Send(p, f, h))
    ensures Flying(pw, Send(p, f, h)) == Flying(pw, p) + [f]
    ensures Handlers(Send(p, f, h)) == Handlers(p) + [h]
  {
    hide Drain, Encode, Legal, Stream, Body;
    EncodeNonEmpty(f);
    SendStream(pw, p, f, h);
    SendBody(pw, p, f, h);
    DrainAppend(Body(pw, p), f);
    LaunchKeepsHandlers(p, Queued(p.cache, Encode(f), h));
    assert p.cache.flying + (p.cache.handlers + [h]) == Handlers(p) + [h];
  }

  lemma SettlePipe(pw: bytes, p: Pipe)
    requires PipeOk(pw, p) && p.cache.connected
    ensures PipeOk(pw, Settle(p))
    ensures Flying(pw, Settle(p)) == Flying(pw, p)
    ensures Handlers(Settle(p)) == p.cache.handlers
  {
    hide Drain;
    LaunchKeepsStream(p, Landed(p.cache));
    LaunchKeepsHandlers(p, Landed(p.cache));
    assert Stream(Settle(p)) == Stream(p);
    assert [] + p.cache.handlers == p.cache.handlers;
  }

  lemma PasswordPipe(pw: bytes, p: Pipe)
    requires PipeOk(pw, p) && !p.cache.connected && !p.cache.destroyed
    ensures PipeOk(pw, PasswordFirst(p, pw))
    ensures Flying(pw, PasswordFirst(p, pw)) == Flying(pw, p)
    ensures Handlers(PasswordFirst(p, pw)) == Handlers(p)
    ensures Stream(PasswordFirst(p, pw)) == pw + CRLF + Stream(p)
  {
    hide Drain;
    var v := Inserted(p.cache.(connected := true), pw + CRLF);
    LaunchKeepsStream(p, v);
    LaunchKeepsHandlers(p, v);
    assert Stream(p) == p.cache.queue;
    assert Body(pw, PasswordFirst(p, pw)) == Body(pw, p);
  }

  lemma MoveStream(p: Pipe, n: nat)
    requires n <= |p.net|
    ensures Stream(Moved(p, n)) == Stream(p)
  {
  }

  lemma MovePipe(pw: bytes, p: Pipe, n: nat)
    requires PipeOk(pw, p) && 1 <= n <= |p.net|
    ensures PipeOk(pw, Moved(p, n)) && p.cache.connected
    ensures Flying(pw, Moved(p, n)) == Flying(pw, p) && Handlers(Moved(p, n)) == Handlers(p)
  {
    hide Drain, Stream;
    MoveStream(p, n);
  }

  lemma BrokenPipe(pw: bytes, p: Pipe)
    requires PipeOk(pw, p)
    ensures PipeOk(pw, Broken(p)) && Flying(pw, Broken(p)) == Flying(pw, p) && Handlers(Broken(p)) == []
  {
  }

  /** The receive loop takes complete frames off the front of what is in flight, and never fails. */
  lemma DrainPipe(pw: bytes, p: Pipe)
    requires PipeOk(pw, p) && p.streaming && p.cache.connected
    ensures Drain(p.rbuf).ok
    ensures var q := p.(rbuf := Drain(p.rbuf).rest);
      && PipeOk(pw, q)
      && Flying(pw, p) == Drain(p.rbuf).frames + Flying(pw, q)
      && Handlers(q) == Handlers(p)
  {
    hide Drain;
    DrainSplit(p.rbuf, p.net + p.cache.queue);
  }

  /** The password check opens the stream exactly when the whole password line has been read. */
  lemma HandshakePipe(pw: bytes, p: Pipe)
    requires PipeOk(pw, p) && p.cache.connected && !p.streaming && NoCrlf(pw)
    ensures FindCrlf(p.rbuf).None? ==> |p.rbuf| <= |pw| + 1
    ensures FindCrlf(p.rbuf).Some? ==> FindCrlf(p.rbuf).value == |pw| && p.rbuf[..|pw|] == pw
    ensures FindCrlf(p.rbuf).Some? ==>
      var q := p.(streaming := true, rbuf := p.rbuf[|pw| + 2..]);
      PipeOk(pw, q) && Flying(pw, q) == Flying(pw, p) && Handlers(q) == Handlers(p)
  {
    hide Drain, FindCrlf, NoCrlf;
    var line := pw + CRLF;
    var more := p.net + p.cache.queue;
    if |p.rbuf| < |line| {
      assert p.rbuf == Stream(p)[..|p.rbuf|] == line[..|p.rbuf|];
      FindsNothingEarlier(pw, |p.rbuf|);
    } else {
      var rest := p.rbuf[|line|..];
      assert p.rbuf[..|line|] == Stream(p)[..|line|] == line;
      assert p.rbuf == pw + CRLF + rest;
      FindsTheEnd(pw, rest);
      assert Stream(p)[|line|..] == rest + more;
    }
  }

  // ---- events ----

  /** `ClientWrittenLate` and `ServerWrittenLate` complete a write of the `opening`-th session under the id
      after that session has ended or, a server session, left the list; `ServerWrittenAlone` does where
      the server's end of the pipeline has been freed as well. `TargetConnectedLate` and
      `ConnectFailedLate` complete a connect of such a session, and the other two are what a stray does. */
  datatype Event =
    | PipeConnected
    | Opened(id: u16)
    | Requested(id: u16, req: bytes)
    | ClientRead(id: u16, data: bytes)
    | ClientWritten(id: u16)
    | ClientWrittenLate(id: u16, opening: nat)
    | ClientFailed(id: u16)
    | TargetConnected(id: u16)
    | ServerRead(id: u16, data: bytes)
    | ServerWritten(id: u16)
    | ServerWrittenLate(id: u16, opening: nat)
    | ServerWrittenAlone(id: u16, opening: nat)
    | ServerFailed(id: u16)
    | TargetConnectedLate(id: u16, opening: nat)
    | ConnectFailedLate(id: u16, opening: nat)
    | StrayRead(id: u16, opening: nat, data: bytes)
    | StrayFailed(id: u16, opening: nat)
    | IcmpUp(data: bytes)
    | IcmpDown(data: bytes)
    | ReceivedUp(n: nat)
    | ReceivedDown(n: nat)
    | SentUp
    | SentDown
    | ClientPipeBroken
    | ServerPipeBroken

  function AirOf(y: Sys): (a: Air) {
    Air(Flying(y.pw, y.up), Flying(y.pw, y.down), Handlers(y.up), Handlers(y.down))
  }

  predicate Chunk(data: bytes) {
    1 <= |data| <= MAX_BUF_LENGTH
  }

  /** The client process has a session under the id, and it is in this phase. */
  predicate ClientIs(y: Sys, id: u16, phase: CPhase) {
    !y.up.cache.destroyed && Of(y.lines, id) != [] && Latest(y.lines, id).phase == phase
  }

  /** The server process has a session under the id. */
  predicate Serves(t: Lines, id: u16) {
    AliveAt(Of(t, id)) < |Of(t, id)|
  }

  /** The server session that has the id. */
  function Serving(t: Lines, id: u16): (s: Server)
    requires Serves(t, id)
  {
    Of(t, id)[AliveAt(Of(t, id))].s
  }

  predicate ServerIs(y: Sys, id: u16, phase: SPhase) {
    !y.down.cache.destroyed && Serves(y.lines, id) && Serving(y.lines, id).phase == phase
  }

  /** The server has the `k`-th session under the id off its list, with this life left. */
  predicate OffList(y: Sys, id: u16, k: nat, life: Life) {
    k < |Of(y.lines, id)| && Of(y.lines, id)[k].s.phase == SClosed && Of(y.lines, id)[k].s.life == life
  }

  /** A session off the list that looks for its id finds another session. */
  predicate Found(y: Sys, id: u16) {
    Serves(y.lines, id) && !y.down.cache.destroyed
  }

  /** An id is given to a new session as soon as the client session that had it is gone. */
  predicate Free(t: Lines, id: u16) {
    Of(t, id) != [] ==> Latest(t, id).phase == CClosed
  }

  predicate Enabled(y: Sys, e: Event) {
    match e
    case PipeConnected => !y.up.cache.connected && !y.up.cache.destroyed
    case Opened(id) => Free(y.lines, id) && !y.up.cache.destroyed
    case Requested(id, req) =>
      ClientIs(y, id, CReady) && req != [] && Sendable(Data(id, req)) && !OpensUdp(req, y.cfg.known)
    case ClientRead(id, data) => ClientIs(y, id, CForward) && Latest(y.lines, id).up.reading && Chunk(data)
    case ClientWritten(id) => ClientIs(y, id, CForward) && Latest(y.lines, id).down.writing
    case ClientWrittenLate(id, k) =>
      k < |Of(y.lines, id)| && Of(y.lines, id)[k].c.phase == CClosed && Of(y.lines, id)[k].c.down.writing
    case ClientFailed(id) => ClientIs(y, id, CNew) || ClientIs(y, id, CReady) || ClientIs(y, id, CForward)
    case TargetConnected(id) => ServerIs(y, id, SConnect)
    case ServerRead(id, data) => ServerIs(y, id, SForward) && Serving(y.lines, id).down.reading && Chunk(data)
    case ServerWritten(id) => ServerIs(y, id, SForward) && Serving(y.lines, id).up.writing
    case ServerWrittenLate(id, k) =>
      (OffList(y, id, k, Over) || OffList(y, id, k, ForwardStray)) && Of(y.lines, id)[k].s.up.writing
    case ServerWrittenAlone(id, k) =>
      y.down.cache.destroyed && OffList(y, id, k, ForwardStray) && Of(y.lines, id)[k].s.up.writing
    case ServerFailed(id) => ServerIs(y, id, SConnect) || ServerIs(y, id, SForward)
    case TargetConnectedLate(id, k) => OffList(y, id, k, Due) || OffList(y, id, k, ConnectStray)
    case ConnectFailedLate(id, k) => OffList(y, id, k, Due)
    case StrayRead(id, k, data) => OffList(y, id, k, ForwardStray) && Of(y.lines, id)[k].s.down.reading && Chunk(data)
    case StrayFailed(id, k) => OffList(y, id, k, ConnectStray) || OffList(y, id, k, ForwardStray)
    case IcmpUp(data) => Legal(Icmp(data)) && !y.up.cache.destroyed
    case IcmpDown(data) => Legal(Icmp(data)) && !y.down.cache.destroyed
    case ReceivedUp(n) => 1 <= n <= |y.up.net| && n <= RECV_BUF_LENGTH && !y.down.cache.destroyed
    case ReceivedDown(n) => 1 <= n <= |y.down.net| && n <= RECV_BUF_LENGTH && !y.up.cache.destroyed
    case SentUp => y.up.cache.sending
    case SentDown => y.down.cache.sending
    case ClientPipeBroken => !y.up.cache.destroyed
    case ServerPipeBroken => !y.down.cache.destroyed
  }

  function WithClient(t: Lines, id: u16, c: Client): (r: Lines)
    requires Of(t, id) != []
  {
    var l := Of(t, id);
    t[id := l[|l| - 1 := l[|l| - 1].(c := c)]]
  }

  function WithServer(t: Lines, id: u16, s: Server): (r: Lines)
    requires Serves(t, id)
  {
    var l := Of(t, id);
    t[id := l[AliveAt(l) := l[AliveAt(l)].(s := s)]]
  }

  function UpSend(y: Sys, id: u16, c: Client, f: Frame, h: Handler): (r: Sys)
    requires Legal(f) && Of(y.lines, id) != []
  {
    y.(lines := WithClient(y.lines, id, c), up := Send(y.up, f, h))
  }

  function DownSend(y: Sys, id: u16, s: Server, f: Frame, h: Handler): (r: Sys)
    requires Legal(f) && Serves(y.lines, id)
  {
    y.(lines := WithServer(y.lines, id, s), down := Send(y.down, f, h))
  }

  /** The number a client's handlers carry. */
  function ClientNo(t: Lines, id: u16): (n: nat)
    requires Of(t, id) != []
  {
    |Of(t, id)| - 1
  }

  function ServerNo(t: Lines, id: u16): (n: nat) {
    AliveAt(Of(t, id))
  }

  /** The server's receive loop on its read buffer. */
  function ServeBuffer(y: Sys): (r: Sys) {
    var d := Drain(y.up.rbuf);
    y.(lines := ServeAll(y.cfg, y.lines, d.frames), up := y.up.(rbuf := d.rest), broken := y.broken || !d.ok)
  }

  /** The server's `in_recv`: first the password line, then frames. */
  function ServerIn(y: Sys): (r: Sys) {
    if y.up.streaming then ServeBuffer(y)
    else
      match FindCrlf(y.up.rbuf)
      case None => if |y.up.rbuf| < MAX_PASSWORD_LENGTH then y else y.(broken := true)
      case Some(k) =>
        if y.up.rbuf[..k] != y.pw then y.(broken := true)
        else ServeBuffer(y.(up := y.up.(streaming := true, rbuf := y.up.rbuf[k + 2..])))
  }

  function ClientIn(y: Sys): (r: Sys) {
    var d := Drain(y.down.rbuf);
    y.(lines := HearAll(y.lines, d.frames), down := y.down.(rbuf := d.rest), broken := y.broken || !d.ok)
  }

  /** A session off the list does what it does, and its frame, if it has one, leaves. */
  function Does(y: Sys, id: u16, k: nat, d: Deed): (r: Sys)
    requires k < |Of(y.lines, id)| && (d.Upon? ==> Serves(y.lines, id) && Legal(d.frame))
  {
    var z := y.(lines := y.lines[id := DeedLine(Of(y.lines, id), k, d)]);
    if d.Upon? then z.(down := Send(y.down, d.frame, d.handler)) else z
  }

  /** The events of server sessions off the list. */
  predicate Off(e: Event) {
    || e.ServerWrittenLate? || e.ServerWrittenAlone? || e.TargetConnectedLate? || e.ConnectFailedLate?
    || e.StrayRead? || e.StrayFailed?
  }

  function DeedOf(y: Sys, e: Event): (d: Deed)
    requires Off(e) && Enabled(y, e)
    ensures d.Upon? ==> Found(y, e.id) && Legal(d.frame)
  {
    var id, k, l := e.id, e.opening, Of(y.lines, e.id);
    match e
    case ServerWrittenLate(_, _) => LateDeed(l, id, k, Found(y, id))
    case ServerWrittenAlone(_, _) => Alone(SAlone(l[k].s))
    case TargetConnectedLate(_, _) => Alone(SRevived(l[k].s))
    case ConnectFailedLate(_, _) => Alone(SGone(l[k].s))
    case StrayRead(_, _, x) => ReadDeed(l, id, k, x, Found(y, id))
    case StrayFailed(_, _) => EndDeed(l, id, l[k].s, Found(y, id))
  }

  function OffStep(y: Sys, e: Event): (r: Sys)
    requires Off(e) && Enabled(y, e)
  {
    Does(y, e.id, e.opening, DeedOf(y, e))
  }

  /** The events of server sessions on the list. */
  predicate On(e: Event) {
    e.TargetConnected? || e.ServerRead? || e.ServerWritten? || e.ServerFailed?
  }

  function ServerStep(y: Sys, e: Event): (r: Sys)
    requires On(e) && Enabled(y, e)
  {
    var t := y.lines;
    match e
    case TargetConnected(id) => y.(lines := WithServer(t, id, SConnected(Serving(t, id))))
    case ServerRead(id, x) => DownSend(y, id, SRead(Serving(t, id), x), Data(id, x), DataSent(id, ServerNo(t, id)))
    case ServerWritten(id) =>
      var s := Serving(t, id);
      if WriteCloses(s.up) then DownSend(y, id, SWriteDone(s), Close(id), Ignored)
      else DownSend(y, id, SWriteDone(s), Ack(id, s.up.wack % 0x1_0000), AckSent(id, ServerNo(t, id)))
    case ServerFailed(id) => DownSend(y, id, SEnd(Serving(t, id), Failed), Close(id), Ignored)
  }

  function Step(y: Sys, e: Event): (r: Sys)
    requires Enabled(y, e)
  {
    var t := y.lines;
    match e
    case PipeConnected => y.(up := PasswordFirst(y.up, y.pw))
    case Opened(id) =>
      y.(lines := t[id := Of(t, id) + [NewPair(y.cfg)]], up := Send(y.up, Connect(id), ConnectSent(id, |Of(t, id)|)))
    case Requested(id, req) => UpSend(y, id, CRequest(Latest(t, id), req), Data(id, req), DataSent(id, ClientNo(t, id)))
    case ClientRead(id, x) => UpSend(y, id, CRead(Latest(t, id), x), Data(id, x), DataSent(id, ClientNo(t, id)))
    case ClientWritten(id) =>
      var c := Latest(t, id);
      if WriteCloses(c.down) then UpSend(y, id, CWriteDone(c), Close(id), Ignored)
      else UpSend(y, id, CWriteDone(c), Ack(id, c.down.wack % 0x1_0000), AckSent(id, ClientNo(t, id)))
    case ClientWrittenLate(id, k) => y.(lines := t[id := Of(t, id)[k := Of(t, id)[k].(c := CLate(Of(t, id)[k].c))]])
    case ClientFailed(id) => UpSend(y, id, CEnd(Latest(t, id), Failed), Close(id), Ignored)
    case IcmpUp(x) => y.(up := Send(y.up, Icmp(x), Ignored))
    case IcmpDown(x) => y.(down := Send(y.down, Icmp(x), Ignored))
    case ReceivedUp(n) => ServerIn(y.(up := Moved(y.up, n)))
    case ReceivedDown(n) => ClientIn(y.(down := Moved(y.down, n)))
    case SentUp => y.(lines := ResumeClients(t, y.up.cache.flying), up := Settle(y.up))
    case SentDown => y.(lines := ResumeServers(t, y.down.cache.flying), down := Settle(y.down))
    case ClientPipeBroken => y.(lines := LoseClients(t), up := Broken(y.up))
    case ServerPipeBroken => y.(lines := LoseServers(t, Handlers(y.down)), down := Broken(y.down))
    case TargetConnected(_) => ServerStep(y, e)
    case ServerRead(_, _) => ServerStep(y, e)
    case ServerWritten(_) => ServerStep(y, e)
    case ServerFailed(_) => ServerStep(y, e)
    case _ => OffStep(y, e)
  }

  function Start(cfg: Config, pw: bytes): (y: Sys) {
    Sys(cfg, pw, Pipe(Empty(false), [], [], false), Pipe(Empty(true), [], [], true), map[], false)
  }

  /** A run: every event happens when it can. */
  predicate IsRun(y: Sys, es: seq<Event>)
    decreases |es|
  {
    es != [] ==> Enabled(y, es[0]) && IsRun(Step(y, es[0]), es[1..])
  }

  function Run(y: Sys, es: seq<Event>): (r: Sys)
    requires IsRun(y, es)
    decreases |es|
  {
    if es == [] then y else Run(Step(y, es[0]), es[1..])
  }

  /** The id is not opened again before the server has ended the last session under it for good and nothing
      of that session is on its way back. */
  predicate Patient(y: Sys, e: Event, id: u16) {
    e == Opened(id) ==> Reusable(y.lines, AirOf(y), id)
  }

  /** A run that is calm as far as this id goes: patient about it throughout. */
  predicate IsCalm(y: Sys, es: seq<Event>, id: u16)
    requires IsRun(y, es)
    decreases |es|
  {
    es != [] ==> Patient(y, es[0], id) && IsCalm(Step(y, es[0]), es[1..], id)
  }

  // ---- the invariant of the whole ----

  /** A password a line can carry; the sources use the 56 hexadecimal digits of a hash. */
  predicate Configured(y: Sys) {
    NoCrlf(y.pw) && |y.pw| + 1 < MAX_PASSWORD_LENGTH
  }

  ghost predicate Inv(y: Sys) {
    && Configured(y)
    && !y.broken
    && PipeOk(y.pw, y.up)
    && PipeOk(y.pw, y.down) && y.down.cache.connected && y.down.streaming
    && Core(y.cfg, y.lines, AirOf(y))
  }

  /** Neither process has lost the connection. */
  predicate Intact(y: Sys) {
    !y.up.cache.destroyed && !y.down.cache.destroyed
  }

  /** The way back of this id is in order. */
  ghost predicate Still(y: Sys, id: u16) {
    CalmLine(y.cfg, id, Of(y.lines, id), AirOf(y), Intact(y))
  }

  lemma StartInv(cfg: Config, pw: bytes)
    requires Configured(Start(cfg, pw))
    ensures Inv(Start(cfg, pw)) && forall id: u16 :: Still(Start(cfg, pw), id)
  {
  }

  // ---- every event keeps it ----

  lemma SendStays(p: Pipe, f: Frame, h: Handler)
    requires Legal(f)
    ensures var q := Send(p, f, h);
      && q.cache.connected == p.cache.connected && q.streaming == p.streaming
      && q.cache.destroyed == p.cache.destroyed
  {
  }

  lemma SendUpKeeps(y: Sys, z: Sys, f: Frame, h: Handler)
    requires Inv(y) && Sendable(f) && !y.up.cache.destroyed
    requires z == y.(lines := z.lines, up := Send(y.up, f, h))
    requires Core(y.cfg, z.lines, PushUp(AirOf(y), f, h))
    ensures Inv(z) && AirOf(z) == PushUp(AirOf(y), f, h) && Intact(z) == Intact(y)
  {
    hide Core, CalmLine, PipeOk, Flying, Handlers, Send, Encode, Legal;
    SendPipe(y.pw, y.up, f, h);
    SendStays(y.up, f, h);
    assert AirOf(z) == PushUp(AirOf(y), f, h);
  }

  lemma SendDownKeeps(y: Sys, z: Sys, f: Frame, h: Handler)
    requires Inv(y) && Sendable(f) && !y.down.cache.destroyed
    requires z == y.(lines := z.lines, down := Send(y.down, f, h))
    requires Core(y.cfg, z.lines, PushDown(AirOf(y), f, h))
    ensures Inv(z) && AirOf(z) == PushDown(AirOf(y), f, h) && Intact(z) == Intact(y)
  {
    hide Core, CalmLine, PipeOk, Flying, Handlers, Send, Encode, Legal;
    SendPipe(y.pw, y.down, f, h);
    SendStays(y.down, f, h);
    assert AirOf(z) == PushDown(AirOf(y), f, h);
  }

  /** What an event leaves true. */
  ghost predicate Kept(y: Sys, z: Sys) {
    Inv(z) && forall x: u16 :: Still(y, x) ==> Still(z, x)
  }

  lemma CalmKept(y: Sys, z: Sys)
    requires Inv(z) && z.cfg == y.cfg
    requires KeepsCalm(y.cfg, y.lines, AirOf(y), Intact(y), z.lines, AirOf(z), Intact(z))
    ensures Kept(y, z)
  {
    hide CalmLine, Flying, Handlers, Inv;
  }

  lemma OpenedKeeps(y: Sys, id: u16)
    requires Inv(y) && Enabled(y, Opened(id))
    ensures var z := Step(y, Opened(id));
      Inv(z) && forall x: u16 :: Still(y, x) && Patient(y, Opened(id), x) ==> Still(z, x)
  {
    hide Core, CalmLine, PipeOk, Flying, Handlers, Send, Reusable;
    Opens(y.cfg, y.lines, AirOf(y), id, Intact(y));
    SendUpKeeps(y, Step(y, Opened(id)), Connect(id), ConnectSent(id, |Of(y.lines, id)|));
  }

  /** The session a client event belongs to. */
  lemma ClientFacts(y: Sys, id: u16)
    requires Inv(y) && Of(y.lines, id) != []
    ensures var l, a := Of(y.lines, id), AirOf(y); var j := |l| - 1;
      && PairOk(y.cfg, l[j], UpLane(id, |l|, j, a), HU(id, j, a), HD(id, j, a))
      && (Still(y, id) ==> DownOk(y.cfg, l[j], UpLane(id, |l|, j, a), DownLane(id, a), Intact(y)))
  {
    hide PairOk, DownOk, PipeOk, Flying, Handlers, UpLane, DownLane, HU, HD, Ordered;
    var l, a := Of(y.lines, id), AirOf(y);
    assert LineOk(y.cfg, id, l, a) && OpeningOk(y.cfg, id, l, |l| - 1, a);
  }

  /** The session a server event belongs to: in a calm run it is the last under its id. */
  lemma ServerFacts(y: Sys, id: u16)
    requires Inv(y) && Serves(y.lines, id)
    ensures var l, a := Of(y.lines, id), AirOf(y); var j := AliveAt(l);
      && PairOk(y.cfg, l[j], UpLane(id, |l|, j, a), HU(id, j, a), HD(id, j, a))
      && (Still(y, id) ==> j == |l| - 1 && DownOk(y.cfg, l[j], UpLane(id, |l|, j, a), DownLane(id, a), Intact(y)))
  {
    hide PairOk, DownOk, PipeOk, Flying, Handlers, UpLane, DownLane, HU, HD, Ordered;
    var l, a := Of(y.lines, id), AirOf(y);
    assert LineOk(y.cfg, id, l, a) && OpeningOk(y.cfg, id, l, AliveAt(l), a);
    if Still(y, id) {
      CalmStanding(y.cfg, id, l, a, Intact(y));
    }
  }

  lemma StillOpen(cfg: Config, p: Pair, u: Lane, hu: Pending, hd: Pending)
    requires PairOk(cfg, p, u, hu, hd) && CAlive(p.c)
    ensures !u.close
  {
  }

  /** A client callback that sends, given what it does to its own session. */
  lemma ClientSent(y: Sys, id: u16, c: Client, f: Frame, h: Handler)
    requires Inv(y) && Of(y.lines, id) != [] && CAlive(Latest(y.lines, id)) && !y.up.cache.destroyed
    requires Mine(id, f) && !f.Connect? && Sendable(f) && (f.Data? ==> f.payload != [])
    requires h == Ignored || Owns(id, ClientNo(y.lines, id), h)
    requires var l, a := Of(y.lines, id), AirOf(y); var j := |l| - 1; var u := UpLane(id, |l|, j, a);
      && PairOk(y.cfg, l[j].(c := c), Behind(u, f), PlusOne(h, HU(id, j, a)), HD(id, j, a))
      && (Still(y, id) ==> DownOk(y.cfg, l[j].(c := c), Behind(u, f), DownLane(id, a), Intact(y)))
    ensures Kept(y, UpSend(y, id, c, f, h))
  {
    hide PairOk, DownOk, PipeOk, Flying, Handlers, UpLane, DownLane, HU, HD, Behind, Plus, Core, CalmLine, Send, Legal;
    var l, a := Of(y.lines, id), AirOf(y);
    var j := |l| - 1;
    ClientFacts(y, id);
    StillOpen(y.cfg, l[j], UpLane(id, |l|, j, a), HU(id, j, a), HD(id, j, a));
    ClientSends(y.cfg, y.lines, a, id, c, f, h, Intact(y));
    SendUpKeeps(y, UpSend(y, id, c, f, h), f, h);
    CalmKept(y, UpSend(y, id, c, f, h));
  }

  /** The same of the server. */
  lemma ServerSent(y: Sys, id: u16, s: Server, f: Frame, h: Handler)
    requires Inv(y) && Serves(y.lines, id) && !y.down.cache.destroyed && s.phase != SNone
    requires Mine(id, f) && !f.Connect? && Sendable(f) && (f.Data? ==> f.payload != [])
    requires h == Ignored || Owns(id, ServerNo(y.lines, id), h)
    requires var l, a := Of(y.lines, id), AirOf(y); var j := AliveAt(l); var u := UpLane(id, |l|, j, a);
      && PairOk(y.cfg, l[j].(s := s), u, HU(id, j, a), PlusOne(h, HD(id, j, a)))
      && (Still(y, id) ==> DownOk(y.cfg, l[j].(s := s), u, Behind(DownLane(id, a), f), Intact(y)))
    ensures Kept(y, DownSend(y, id, s, f, h))
  {
    hide PairOk, DownOk, PipeOk, Flying, Handlers, UpLane, DownLane, HU, HD, Behind, Plus, Core, CalmLine, Send, Legal;
    var l, a := Of(y.lines, id), AirOf(y);
    var j := AliveAt(l);
    ServerFacts(y, id);
    if Still(y, id) {
      OpenWhileAlive(y.cfg, l[j], UpLane(id, |l|, j, a), DownLane(id, a), Intact(y));
    }
    ServerSends(y.cfg, y.lines, a, id, j, s, f, h, Intact(y));
    SendDownKeeps(y, DownSend(y, id, s, f, h), f, h);
    CalmKept(y, DownSend(y, id, s, f, h));
  }

  lemma RequestedKeeps(y: Sys, id: u16, req: bytes)
    requires Inv(y) && Enabled(y, Requested(id, req))
    ensures Kept(y, Step(y, Requested(id, req)))
  {
    hide PairOk, DownOk, PipeOk, Flying, Handlers, UpLane, DownLane, HU, HD, Core, CalmLine, Send, OpensUdp, Kept;
    var l, a := Of(y.lines, id), AirOf(y);
    var j := |l| - 1;
    var u, d, hu, hd := UpLane(id, |l|, j, a), DownLane(id, a), HU(id, j, a), HD(id, j, a);
    ClientFacts(y, id);
    RequestOk(y.cfg, l[j], u, hu, hd, req);
    if Still(y, id) {
      RequestDown(y.cfg, l[j], u, d, Intact(y), hu, hd, req);
    }
    ClientSent(y, id, CRequest(l[j].c, req), Data(id, req), DataSent(id, j));
  }

  lemma ClientReadKeeps(y: Sys, id: u16, x: bytes)
    requires Inv(y) && Enabled(y, ClientRead(id, x))
    ensures Kept(y, Step(y, ClientRead(id, x)))
  {
    hide PairOk, DownOk, PipeOk, Flying, Handlers, UpLane, DownLane, HU, HD, Core, CalmLine, Send, Kept;
    var l, a := Of(y.lines, id), AirOf(y);
    var j := |l| - 1;
    var u, d, hu, hd := UpLane(id, |l|, j, a), DownLane(id, a), HU(id, j, a), HD(id, j, a);
    ClientFacts(y, id);
    ClientReadOk(y.cfg, l[j], u, hu, hd, x);
    if Still(y, id) {
      ClientReadDown(y.cfg, l[j], u, d, Intact(y), hu, hd, x);
    }
    ClientSent(y, id, CRead(l[j].c, x), Data(id, x), DataSent(id, j));
  }

  lemma ClientWrittenKeeps(y: Sys, id: u16)
    requires Inv(y) && Enabled(y, ClientWritten(id))
    ensures Kept(y, Step(y, ClientWritten(id)))
  {
    hide PairOk, DownOk, PipeOk, Flying, Handlers, UpLane, DownLane, HU, HD, Core, CalmLine, Send, Kept, CWriteDone;
    var l, a := Of(y.lines, id), AirOf(y);
    var j := |l| - 1;
    var u, d, hu, hd := UpLane(id, |l|, j, a), DownLane(id, a), HU(id, j, a), HD(id, j, a);
    ClientFacts(y, id);
    ClientWriteDoneOk(y.cfg, l[j], u, hu, hd);
    if Still(y, id) {
      ClientWriteDoneDown(y.cfg, l[j], u, d, Intact(y), hu, hd);
    }
    if WriteCloses(l[j].c.down) {
      ClientSent(y, id, CWriteDone(l[j].c), Close(id), Ignored);
    } else {
      ClientSent(y, id, CWriteDone(l[j].c), Ack(id, l[j].c.down.wack % 0x1_0000), AckSent(id, j));
    }
  }

  lemma ClientWrittenLateKeeps(y: Sys, id: u16, k: nat)
    requires Inv(y) && Enabled(y, ClientWrittenLate(id, k))
    ensures Kept(y, Step(y, ClientWrittenLate(id, k)))
  {
    hide PairOk, DownOk, PipeOk, Flying, Handlers, UpLane, DownLane, HU, HD, Ordered;
    var l, a := Of(y.lines, id), AirOf(y);
    var u, d, hu, hd := UpLane(id, |l|, k, a), DownLane(id, a), HU(id, k, a), HD(id, k, a);
    assert LineOk(y.cfg, id, l, a) && OpeningOk(y.cfg, id, l, k, a);
    ClientLateOk(y.cfg, l[k], u, hu, hd);
    if Still(y, id) && k == |l| - 1 {
      ClientFacts(y, id);
      ClientLateDown(y.cfg, l[k], u, d, Intact(y), hu, hd);
    }
    StaysLocal(y.cfg, y.lines, a, id, k, l[k].(c := CLate(l[k].c)), Intact(y));
    CalmKept(y, Step(y, ClientWrittenLate(id, k)));
  }

  lemma ClientFailedKeeps(y: Sys, id: u16)
    requires Inv(y) && Enabled(y, ClientFailed(id))
    ensures Kept(y, Step(y, ClientFailed(id)))
  {
    hide PairOk, DownOk, PipeOk, Flying, Handlers, UpLane, DownLane, HU, HD, Core, CalmLine, Send, Kept;
    var l, a := Of(y.lines, id), AirOf(y);
    var j := |l| - 1;
    var u, d, hu, hd := UpLane(id, |l|, j, a), DownLane(id, a), HU(id, j, a), HD(id, j, a);
    ClientFacts(y, id);
    ClientFailOk(y.cfg, l[j], u, hu, hd);
    if Still(y, id) {
      ClientFailDown(y.cfg, l[j], u, d, Intact(y), hu, hd);
    }
    ClientSent(y, id, CEnd(l[j].c, Failed), Close(id), Ignored);
  }

  lemma TargetConnectedKeeps(y: Sys, id: u16)
    requires Inv(y) && Enabled(y, TargetConnected(id))
    ensures Kept(y, Step(y, TargetConnected(id)))
  {
    hide PairOk, DownOk, PipeOk, Flying, Handlers, UpLane, DownLane, HU, HD, Core, CalmLine;
    var l, a := Of(y.lines, id), AirOf(y);
    var j := AliveAt(l);
    var u, d, hu, hd := UpLane(id, |l|, j, a), DownLane(id, a), HU(id, j, a), HD(id, j, a);
    ServerFacts(y, id);
    ServerConnectedOk(y.cfg, l[j], u, hu, hd);
    if Still(y, id) {
      ServerConnectedDown(y.cfg, l[j], u, d, Intact(y), hu, hd);
    }
    StaysLocal(y.cfg, y.lines, a, id, j, l[j].(s := SConnected(l[j].s)), Intact(y));
    CalmKept(y, Step(y, TargetConnected(id)));
  }

  lemma ServerReadKeeps(y: Sys, id: u16, x: bytes)
    requires Inv(y) && Enabled(y, ServerRead(id, x))
    ensures Kept(y, Step(y, ServerRead(id, x)))
  {
    hide PairOk, DownOk, PipeOk, Flying, Handlers, UpLane, DownLane, HU, HD, Core, CalmLine, Send, Kept;
    var l, a := Of(y.lines, id), AirOf(y);
    var j := AliveAt(l);
    var u, d, hu, hd := UpLane(id, |l|, j, a), DownLane(id, a), HU(id, j, a), HD(id, j, a);
    ServerFacts(y, id);
    ServerReadOk(y.cfg, l[j], u, hu, hd, x);
    if Still(y, id) {
      ServerReadDown(y.cfg, l[j], u, d, Intact(y), hu, hd, x);
    }
    ServerSent(y, id, SRead(l[j].s, x), Data(id, x), DataSent(id, j));
  }

  lemma ServerWrittenKeeps(y: Sys, id: u16)
    requires Inv(y) && Enabled(y, ServerWritten(id))
    ensures Kept(y, Step(y, ServerWritten(id)))
  {
    hide PairOk, DownOk, PipeOk, Flying, Handlers, UpLane, DownLane, HU, HD, Core, CalmLine, Send, Kept;
    var l, a := Of(y.lines, id), AirOf(y);
    var j := AliveAt(l);
    var u, d, hu, hd := UpLane(id, |l|, j, a), DownLane(id, a), HU(id, j, a), HD(id, j, a);
    ServerFacts(y, id);
    ServerWriteDoneOk(y.cfg, l[j], u, hu, hd);
    if Still(y, id) {
      ServerWriteDoneDown(y.cfg, l[j], u, d, Intact(y), hu, hd);
    }
    if WriteCloses(l[j].s.up) {
      ServerSent(y, id, SWriteDone(l[j].s), Close(id), Ignored);
    } else {
      ServerSent(y, id, SWriteDone(l[j].s), Ack(id, l[j].s.up.wack % 0x1_0000), AckSent(id, j));
    }
  }

  lemma ServerFailedKeeps(y: Sys, id: u16)
    requires Inv(y) && Enabled(y, ServerFailed(id))
    ensures Kept(y, Step(y, ServerFailed(id)))
  {
    hide PairOk, DownOk, PipeOk, Flying, Handlers, UpLane, DownLane, HU, HD, Core, CalmLine, Send, Kept;
    var l, a := Of(y.lines, id), AirOf(y);
    var j := AliveAt(l);
    var u, d, hu, hd := UpLane(id, |l|, j, a), DownLane(id, a), HU(id, j, a), HD(id, j, a);
    ServerFacts(y, id);
    ServerFailOk(y.cfg, l[j], u, hu, hd);
    if Still(y, id) {
      ServerFailDown(y.cfg, l[j], u, d, Intact(y), hu, hd);
    }
    ServerSent(y, id, SEnd(l[j].s, Failed), Close(id), Ignored);
  }

  lemma DoesKeeps(y: Sys, id: u16, k: nat, d: Deed)
    requires Inv(y) && k < |Of(y.lines, id)| && Of(y.lines, id)[k].s.phase == SClosed
    requires d.Upon? ==> Found(y, id) && Sendable(d.frame)
    requires Sane(y.cfg, id, Of(y.lines, id), AirOf(y), k, d)
    requires Still(y, id) ==> CalmLine(y.cfg, id, DeedLine(Of(y.lines, id), k, d), DeedAir(AirOf(y), d), Intact(y))
    ensures Kept(y, Does(y, id, k, d))
  {
    hide Core, CalmLine, PipeOk, Flying, Handlers, DeedLine, Send, Sane, Encode, Legal, SameFor;
    DeedStep(y.cfg, y.lines, AirOf(y), id, k, d);
    CalmStep(y.cfg, y.lines, AirOf(y), id, DeedLine(Of(y.lines, id), k, d), DeedAir(AirOf(y), d), Intact(y));
    if d.Upon? {
      SendDownKeeps(y, Does(y, id, k, d), d.frame, d.handler);
    }
    CalmKept(y, Does(y, id, k, d));
  }

  lemma ServerWrittenLateKeeps(y: Sys, id: u16, k: nat)
    requires Inv(y) && Enabled(y, ServerWrittenLate(id, k))
    ensures Kept(y, Step(y, ServerWrittenLate(id, k)))
  {
    hide Core, CalmLine, PipeOk, Flying, Handlers, DeedLine, Send, Sane, Kept;
    LateStep(y.cfg, y.lines, AirOf(y), id, k, Found(y, id));
    if Still(y, id) {
      LateCalm(y.cfg, y.lines, AirOf(y), id, k, Intact(y), Found(y, id));
    }
    DoesKeeps(y, id, k, LateDeed(Of(y.lines, id), id, k, Found(y, id)));
  }

  lemma StrayIsLast(y: Sys, id: u16, k: nat)
    requires Inv(y) && Still(y, id) && k < |Of(y.lines, id)| && CanReturn(Of(y.lines, id)[k].s)
    ensures k == |Of(y.lines, id)| - 1
  {
    hide PairOk, DownOk, PipeOk, Flying, Handlers, UpLane, DownLane, HU, HD, Ordered, CanReturn;
  }

  /** What a session off the list does to itself only. */
  lemma AloneKeeps(y: Sys, id: u16, k: nat, s: Server)
    requires Inv(y) && k < |Of(y.lines, id)| && Of(y.lines, id)[k].s.phase == SClosed && s.phase == SClosed
    requires CanReturn(Of(y.lines, id)[k].s)
    requires var l, a := Of(y.lines, id), AirOf(y);
      && PairOk(y.cfg, l[k].(s := s), UpLane(id, |l|, k, a), HU(id, k, a), HD(id, k, a))
      && (Still(y, id) && k == |l| - 1 ==>
            DownOk(y.cfg, l[k].(s := s), UpLane(id, |l|, k, a), DownLane(id, a), Intact(y)))
    ensures Kept(y, Does(y, id, k, Alone(s)))
    ensures Still(y, id) ==> !Serves(y.lines, id)
  {
    hide Core, CalmLine, PipeOk, Flying, Handlers, PairOk, DownOk, UpLane, DownLane, HU, HD, Kept, CanReturn;
    if Still(y, id) {
      StrayIsLast(y, id, k);
      AloneCalm(y.cfg, y.lines, AirOf(y), id, k, s, Intact(y));
    }
    DoesKeeps(y, id, k, Alone(s));
  }

  /** The session off the list that an event belongs to. */
  lemma OffListFacts(y: Sys, id: u16, k: nat)
    requires Inv(y) && k < |Of(y.lines, id)|
    ensures var l, a := Of(y.lines, id), AirOf(y);
      && PairOk(y.cfg, l[k], UpLane(id, |l|, k, a), HU(id, k, a), HD(id, k, a))
      && (Still(y, id) && k == |l| - 1 ==> DownOk(y.cfg, l[k], UpLane(id, |l|, k, a), DownLane(id, a), Intact(y)))
  {
    hide Core, CalmLine, PipeOk, Flying, Handlers, PairOk, DownOk, UpLane, DownLane, HU, HD;
    Deeds(y.cfg, y.lines, AirOf(y), id, k);
    ClientFacts(y, id);
  }

  lemma AfterlifeKeeps(y: Sys, e: Event)
    requires Inv(y) && Enabled(y, e) && (e.ServerWrittenAlone? || e.TargetConnectedLate? || e.ConnectFailedLate?)
    ensures Kept(y, Step(y, e))
  {
    hide Core, CalmLine, PipeOk, Flying, Handlers, PairOk, DownOk, UpLane, DownLane, HU, HD, Kept, DeedLine;
    var id, k := e.id, e.opening;
    var l, a := Of(y.lines, id), AirOf(y);
    var u, d, hu, hd := UpLane(id, |l|, k, a), DownLane(id, a), HU(id, k, a), HD(id, k, a);
    OffListFacts(y, id, k);
    if Still(y, id) && k == |l| - 1 {
      ServerLateDown(y.cfg, l[k], u, d, Intact(y));
    }
    match e
    case ServerWrittenAlone(_, _) =>
      StrayAloneOk(y.cfg, l[k], u, hu, hd);
      AloneKeeps(y, id, k, SAlone(l[k].s));
    case TargetConnectedLate(_, _) =>
      ServerRevivedOk(y.cfg, l[k], u, hu, hd);
      if Still(y, id) && k == |l| - 1 {
        ServerRevivedDown(y.cfg, l[k], u, d, Intact(y), hu, hd);
      }
      AloneKeeps(y, id, k, SRevived(l[k].s));
    case ConnectFailedLate(_, _) =>
      ServerGoneOk(y.cfg, l[k], u, hu, hd, hd);
      AloneKeeps(y, id, k, SGone(l[k].s));
  }

  lemma StrayReadKeeps(y: Sys, id: u16, k: nat, x: bytes)
    requires Inv(y) && Enabled(y, StrayRead(id, k, x))
    ensures Kept(y, Step(y, StrayRead(id, k, x)))
  {
    hide Core, CalmLine, PipeOk, Flying, Handlers, PairOk, DownOk, UpLane, DownLane, HU, HD, Kept, DeedLine, Sane;
    var l, a := Of(y.lines, id), AirOf(y);
    var u, d, hu, hd := UpLane(id, |l|, k, a), DownLane(id, a), HU(id, k, a), HD(id, k, a);
    OffListFacts(y, id, k);
    StrayReadOk(y.cfg, l[k], u, hu, hd);
    if Still(y, id) && k == |l| - 1 {
      ServerLateDown(y.cfg, l[k], u, d, Intact(y));
    }
    AloneKeeps(y, id, k, SGone(SStrayRead(l[k].s)));
    if !Still(y, id) {
      StrayReadStep(y.cfg, y.lines, a, id, k, x, Found(y, id));
      DoesKeeps(y, id, k, ReadDeed(l, id, k, x, Found(y, id)));
    }
  }

  lemma StrayFailedKeeps(y: Sys, id: u16, k: nat)
    requires Inv(y) && Enabled(y, StrayFailed(id, k))
    ensures Kept(y, Step(y, StrayFailed(id, k)))
  {
    hide Core, CalmLine, PipeOk, Flying, Handlers, PairOk, DownOk, UpLane, DownLane, HU, HD, Kept, DeedLine, Sane;
    var l, a := Of(y.lines, id), AirOf(y);
    var u, d, hu, hd := UpLane(id, |l|, k, a), DownLane(id, a), HU(id, k, a), HD(id, k, a);
    OffListFacts(y, id, k);
    ServerGoneOk(y.cfg, l[k], u, hu, hd, hd);
    if Still(y, id) && k == |l| - 1 {
      ServerLateDown(y.cfg, l[k], u, d, Intact(y));
    }
    AloneKeeps(y, id, k, SStrayEnd(l[k].s));
    if !Still(y, id) {
      StrayEndStep(y.cfg, y.lines, a, id, k, Found(y, id));
      DoesKeeps(y, id, k, EndDeed(l, id, l[k].s, Found(y, id)));
    }
  }

  lemma PipeConnectedKeeps(y: Sys)
    requires Inv(y) && Enabled(y, PipeConnected)
    ensures Kept(y, Step(y, PipeConnected))
  {
    hide Core, CalmLine, PipeOk, Flying, Handlers;
    PasswordPipe(y.pw, y.up);
    assert AirOf(Step(y, PipeConnected)) == AirOf(y);
    assert Intact(Step(y, PipeConnected)) == Intact(y);
  }

  lemma SentKeeps(y: Sys, e: Event)
    requires Inv(y) && Enabled(y, e) && (e.SentUp? || e.SentDown?)
    ensures Kept(y, Step(y, e))
  {
    hide Core, CalmLine, Flying, ResumeClients, ResumeServers, Stream, Body, Drain;
    var a, z := AirOf(y), Step(y, e);
    if e.SentUp? {
      SettlePipe(y.pw, y.up);
      ResumeClientsStep(y.cfg, y.lines, a, y.up.cache.flying, y.up.cache.handlers, Intact(y));
      assert AirOf(z) == a.(hup := y.up.cache.handlers);
    } else {
      SettlePipe(y.pw, y.down);
      ResumeServersStep(y.cfg, y.lines, a, y.down.cache.flying, y.down.cache.handlers, Intact(y));
      assert AirOf(z) == a.(hdown := y.down.cache.handlers);
    }
    CalmKept(y, z);
  }

  lemma PipeBrokenKeeps(y: Sys, e: Event)
    requires Inv(y) && Enabled(y, e) && (e.ClientPipeBroken? || e.ServerPipeBroken?)
    ensures Kept(y, Step(y, e))
  {
    hide Core, CalmLine, Flying, Handlers, LoseClients, LoseServers, PipeOk, Stream, Body, Drain;
    if e.ClientPipeBroken? {
      BrokenPipe(y.pw, y.up);
      LoseClientsStep(y.cfg, y.lines, AirOf(y), Intact(y));
      assert AirOf(Step(y, e)) == NoUp(AirOf(y));
    } else {
      BrokenPipe(y.pw, y.down);
      LoseServersStep(y.cfg, y.lines, AirOf(y), Intact(y));
      assert AirOf(Step(y, e)) == NoDown(AirOf(y));
    }
    CalmKept(y, Step(y, e));
  }

  lemma ServeBufferKeeps(y: Sys)
    requires Inv(y) && y.up.streaming && y.up.cache.connected
    ensures Kept(y, ServeBuffer(y))
  {
    hide Core, CalmLine, PipeOk, Flying, Handlers, Drain, ServeAll;
    DrainPipe(y.pw, y.up);
    var d, q := Drain(y.up.rbuf), y.up.(rbuf := Drain(y.up.rbuf).rest);
    ServeAllStep(y.cfg, y.lines, AirOf(y), d.frames, Flying(y.pw, q), Intact(y));
    assert AirOf(ServeBuffer(y)) == AirOf(y).(up := Flying(y.pw, q));
    CalmKept(y, ServeBuffer(y));
  }

  lemma MoveStays(p: Pipe, n: nat)
    requires n <= |p.net|
    ensures Moved(p, n).cache == p.cache && Moved(p, n).streaming == p.streaming
  {
  }

  lemma ReceivedUpKeeps(y: Sys, n: nat)
    requires Inv(y) && Enabled(y, ReceivedUp(n))
    ensures Kept(y, Step(y, ReceivedUp(n)))
  {
    hide Core, CalmLine, PipeOk, Flying, Handlers, Drain, ServeAll, ServeBuffer, FindCrlf, NoCrlf, Moved;
    MovePipe(y.pw, y.up, n);
    MoveStays(y.up, n);
    var z := y.(up := Moved(y.up, n));
    assert AirOf(z) == AirOf(y) && Inv(z);
    if z.up.streaming {
      ServeBufferKeeps(z);
    } else {
      HandshakePipe(z.pw, z.up);
      if FindCrlf(z.up.rbuf).Some? {
        var w := z.(up := z.up.(streaming := true, rbuf := z.up.rbuf[|z.pw| + 2..]));
        assert AirOf(w) == AirOf(z);
        ServeBufferKeeps(w);
      }
    }
  }

  lemma ReceivedDownKeeps(y: Sys, n: nat)
    requires Inv(y) && Enabled(y, ReceivedDown(n))
    ensures Kept(y, Step(y, ReceivedDown(n)))
  {
    hide Core, CalmLine, PipeOk, Flying, Handlers, Drain, HearAll, Moved;
    MovePipe(y.pw, y.down, n);
    MoveStays(y.down, n);
    var z := y.(down := Moved(y.down, n));
    assert AirOf(z) == AirOf(y) && Inv(z);
    DrainPipe(z.pw, z.down);
    var d, q := Drain(z.down.rbuf), z.down.(rbuf := Drain(z.down.rbuf).rest);
    HearAllStep(z.cfg, z.lines, AirOf(z), d.frames, Flying(z.pw, q), Intact(y));
    assert AirOf(ClientIn(z)) == AirOf(z).(down := Flying(z.pw, q));
    CalmKept(y, ClientIn(z));
  }

  lemma IcmpKeeps(y: Sys, e: Event)
    requires Inv(y) && Enabled(y, e) && (e.IcmpUp? || e.IcmpDown?)
    ensures Kept(y, Step(y, e))
  {
    hide Core, CalmLine, PipeOk, Flying, Handlers, Send;
    Icmps(y.cfg, y.lines, AirOf(y), e.data, Intact(y));
    if e.IcmpUp? {
      SendUpKeeps(y, Step(y, e), Icmp(e.data), Ignored);
    } else {
      SendDownKeeps(y, Step(y, e), Icmp(e.data), Ignored);
    }
    CalmKept(y, Step(y, e));
  }

  lemma StepKeeps(y: Sys, e: Event)
    requires Inv(y) && Enabled(y, e)
    ensures Inv(Step(y, e)) && forall x: u16 :: Still(y, x) && Patient(y, e, x) ==> Still(Step(y, e), x)
  {
    hide Inv, Still, Enabled, Step, Patient;
    match e
    case PipeConnected => PipeConnectedKeeps(y);
    case Opened(id) => OpenedKeeps(y, id);
    case Requested(id, req) => RequestedKeeps(y, id, req);
    case ClientRead(id, x) => ClientReadKeeps(y, id, x);
    case ClientWritten(id) => ClientWrittenKeeps(y, id);
    case ClientWrittenLate(id, k) => ClientWrittenLateKeeps(y, id, k);
    case ClientFailed(id) => ClientFailedKeeps(y, id);
    case TargetConnected(id) => TargetConnectedKeeps(y, id);
    case ServerRead(id, x) => ServerReadKeeps(y, id, x);
    case ServerWritten(id) => ServerWrittenKeeps(y, id);
    case ServerWrittenLate(id, k) => ServerWrittenLateKeeps(y, id, k);
    case ServerWrittenAlone(_, _) => AfterlifeKeeps(y, e);
    case ServerFailed(id) => ServerFailedKeeps(y, id);
    case TargetConnectedLate(_, _) => AfterlifeKeeps(y, e);
    case ConnectFailedLate(_, _) => AfterlifeKeeps(y, e);
    case StrayRead(id, k, x) => StrayReadKeeps(y, id, k, x);
    case StrayFailed(id, k) => StrayFailedKeeps(y, id, k);
    case IcmpUp(x) => IcmpKeeps(y, e);
    case IcmpDown(x) => IcmpKeeps(y, e);
    case ReceivedUp(n) => ReceivedUpKeeps(y, n);
    case ReceivedDown(n) => ReceivedDownKeeps(y, n);
    case SentUp => SentKeeps(y, e);
    case SentDown => SentKeeps(y, e);
    case ClientPipeBroken => PipeBrokenKeeps(y, e);
    case ServerPipeBroken => PipeBrokenKeeps(y, e);
  }

  /** The invariant holds after every run, and the way back of an id is in order after every run that is
      calm as far as it goes. */
  lemma {:induction false} RunKeeps(y: Sys, es: seq<Event>)
    requires Inv(y) && IsRun(y, es)
    ensures Inv(Run(y, es)) && forall x: u16 :: Still(y, x) && IsCalm(y, es, x) ==> Still(Run(y, es), x)
    decreases |es|
  {
    hide Inv, Still, Enabled, Step, Patient;
    if es != [] {
      StepKeeps(y, es[0]);
      RunKeeps(Step(y, es[0]), es[1..]);
    }
  }
}
