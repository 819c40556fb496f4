/** One proxied TCP session seen from both ends of a pipeline: the client session and the server
    session, what each callback does to them, and the invariant of the pair. */
module Session {
  import opened Bytes
  import opened Component
  import opened Trojan

  // ---- one direction: the end that reads a socket and sends, and the end that writes a socket ----

  /** The sending end. `reading` is the guard of its read buffer, `fault` records that a second read
      was started (the source throws), `taken` is everything read from the near socket. */
  datatype Sender = Sender(gate: Gate, reading: bool, fault: bool, taken: bytes)

  /** The receiving end: its inbox, the socket write in progress with the frames it will acknowledge,
      the deferred close, and everything written to the far socket. */
  datatype Receiver = Receiver(inbox: Inbox, writing: bool, wdata: bytes, wack: nat, closing: bool, written: bytes)

  function NewSender(window: nat): (s: Sender) {
    Sender(Gate(window, true, false), false, false, [])
  }

  function NewReceiver(): (r: Receiver) {
    Receiver(Inbox([], 0, false), false, [], 0, false, [])
  }

  /** Ask the gate; if it opens, start a read. */
  function TryRead(s: Sender): (t: Sender) {
    if Open(s.gate) then Sender(Called(s.gate), true, s.fault || s.reading, s.taken)
    else s.(gate := Called(s.gate))
  }

  function ReadDone(s: Sender, d: bytes): (t: Sender) {
    s.(reading := false, taken := s.taken + d)
  }

  /** An ACK frame: more credit, and a sender that waits tries again. */
  function OnAck(s: Sender, n: nat): (t: Sender) {
    var a := s.(gate := Acked(s.gate, n));
    if a.gate.wait then TryRead(a) else a
  }

  function StartWrite(r: Receiver, call: Delivery): (t: Receiver) {
    match call
    case Nothing => r
    case Deliver(d, n) => r.(writing := true, wdata := d, wack := n)
  }

  function Arrive(r: Receiver, d: bytes): (t: Receiver) {
    StartWrite(r.(inbox := Pushed(r.inbox, d)), OnPush(r.inbox, d))
  }

  function Ask(r: Receiver): (t: Receiver) {
    StartWrite(r.(inbox := Asked(r.inbox)), OnAsk(r.inbox))
  }

  function WriteDone(r: Receiver): (t: Receiver) {
    r.(writing := false, wdata := [], wack := 0, written := r.written + r.wdata)
  }

  /** `canbe_closed_by_pipeline`. */
  predicate CanClose(r: Receiver) {
    !r.writing && r.inbox.queue == []
  }

  /** Whether a completed write ends the session: its close was deferred and nothing is queued. */
  predicate WriteCloses(r: Receiver) {
    r.closing && r.inbox.queue == []
  }

  // ---- the two ends of a session ----

  datatype CPhase = CNew | CReady | CForward | CClosed
  datatype SPhase = SNone | SHandshake | SConnect | SForward | SClosed

  /** How a session ended or, a server session, left the list: `Erased` is one that another session under
      its id took off the list. */
  datatype Ending = Running | Failed | PeerClosed | Erased

  /** What a server session still does once it is off the list. `Over`: it is destroyed. `Due`: so it is,
      but the connect it had started may still complete and bring it back. The others are strays, which
      live unlisted: waiting for a request, connecting, or forwarding. */
  datatype Life = Over | Due | IdleStray | ConnectStray | ForwardStray

  /** `req` is the request, the first data frame, once it is sent. */
  datatype Client = Client(phase: CPhase, up: Sender, down: Receiver, req: Option<bytes>, ended: Ending)

  /** `outBuf` is what the request left to write while the target is being connected. `SClosed` is a
      session off the list; what it read from its target since then is not in `down.taken`. */
  datatype Server = Server(phase: SPhase, up: Receiver, down: Sender, outBuf: bytes, ended: Ending, life: Life)

  /** One opening of a session id, and what earlier sessions under the id have sent as if they were its
      own: `foreign` sums the counts of their acknowledgements, `alien` counts their DATA frames. */
  datatype Pair = Pair(c: Client, s: Server, foreign: nat, alien: nat)

  /** The windows are those configured at each end; `cwindow` and `swindow` are what the credit counters
      start from. */
  datatype Config = Config(clientWindow: u32, serverWindow: u32, known: set<bytes>) {
    const cwindow: nat := InitialCounter(clientWindow)
    const swindow: nat := InitialCounter(serverWindow)
  }

  function NewPair(cfg: Config): (p: Pair) {
    Pair(Client(CNew, NewSender(cfg.cwindow), NewReceiver(), None, Running),
         Server(SNone, NewReceiver(), NewSender(cfg.swindow), [], Running, Over), 0, 0)
  }

  predicate CAlive(c: Client) {
    c.phase != CClosed
  }

  /** The server has this session in its list. */
  predicate SAlive(s: Server) {
    s.phase != SNone && s.phase != SClosed
  }

  /** A session off the list that forwards, or may come to. */
  predicate CanReturn(s: Server) {
    s.life == Due || s.life == ConnectStray || s.life == ForwardStray
  }

  /** Its status is FORWARD, whether it is listed or not. */
  predicate Forwards(s: Server) {
    s.phase == SForward || s.life == ForwardStray
  }

  // client callbacks

  function CConnectSent(c: Client): (r: Client) {
    if c.phase == CNew then c.(phase := CReady) else c
  }

  function CRequest(c: Client, req: bytes): (r: Client) {
    c.(phase := CForward, req := Some(req), down := Ask(c.down))
  }

  function CRead(c: Client, d: bytes): (r: Client) {
    c.(up := ReadDone(c.up, d))
  }

  function CDataSent(c: Client): (r: Client) {
    if c.phase == CForward then c.(up := TryRead(c.up)) else c
  }

  function CAckSent(c: Client): (r: Client) {
    if c.phase == CForward then c.(down := Ask(c.down)) else c
  }

  function CEnd(c: Client, how: Ending): (r: Client) {
    c.(phase := CClosed, ended := how)
  }

  function CWriteDone(c: Client): (r: Client) {
    var t := c.(down := WriteDone(c.down));
    if WriteCloses(c.down) then CEnd(t, PeerClosed) else t
  }

  function COnData(c: Client, d: bytes): (r: Client) {
    if CAlive(c) then c.(down := Arrive(c.down, d)) else c
  }

  function COnAck(c: Client, n: nat): (r: Client) {
    if CAlive(c) then c.(up := OnAck(c.up, n)) else c
  }

  function COnClose(c: Client): (r: Client) {
    if !CAlive(c) then c
    else if CanClose(c.down) then CEnd(c, PeerClosed)
    else c.(down := c.down.(closing := true))
  }

  /** A write that completes after its session has ended only reaches the socket. */
  function CLate(c: Client): (r: Client) {
    c.(down := WriteDone(c.down))
  }

  // server callbacks

  function SOnConnect(cfg: Config): (r: Server) {
    Server(SHandshake, Ask(NewReceiver()), NewSender(cfg.swindow), [], Running, Over)
  }

  function SOnData(cfg: Config, s: Server, d: bytes): (r: Server) {
    if !SAlive(s) then s
    else if s.phase == SHandshake && s.up.inbox.waiting then
      s.(phase := SConnect, outBuf := FirstWrite(d, cfg.known), up := s.up.(inbox := Pushed(s.up.inbox, d)))
    else s.(up := Arrive(s.up, d))
  }

  function SOnAck(s: Server, n: nat): (r: Server) {
    if SAlive(s) then s.(down := OnAck(s.down, n)) else s
  }

  /** The session is destroyed and leaves the list. A connect it has started is cancelled, which does not
      recall a completion already due. */
  function SEnd(s: Server, how: Ending): (r: Server) {
    s.(phase := SClosed, ended := how, life := if s.phase == SConnect then Due else Over)
  }

  function SOnClose(s: Server): (r: Server) {
    if !SAlive(s) then s
    else if CanClose(s.up) then SEnd(s, PeerClosed)
    else s.(up := s.up.(closing := true))
  }

  function SConnected(s: Server): (r: Server) {
    var t := s.(phase := SForward, down := TryRead(s.down), outBuf := []);
    if s.outBuf != [] then t.(up := StartWrite(t.up, Deliver(s.outBuf, 0))) else t.(up := Ask(t.up))
  }

  function SRead(s: Server, d: bytes): (r: Server) {
    s.(down := ReadDone(s.down, d))
  }

  function SDataSent(s: Server): (r: Server) {
    if Forwards(s) then s.(down := TryRead(s.down)) else s
  }

  function SAckSent(s: Server): (r: Server) {
    if Forwards(s) then s.(up := Ask(s.up)) else s
  }

  function SWriteDone(s: Server): (r: Server) {
    var t := s.(up := WriteDone(s.up));
    if WriteCloses(s.up) then SEnd(t, PeerClosed) else t
  }

  function SLate(s: Server): (r: Server) {
    s.(up := WriteDone(s.up))
  }

  // server sessions off the list

  /** Another session under the id takes it off the list. Nothing tells the session. */
  function SErased(s: Server): (r: Server) {
    s.(phase := SClosed, ended := Erased,
       life := match s.phase
         case SHandshake => IdleStray
         case SConnect => ConnectStray
         case SForward => ForwardStray
         case _ => s.life)
  }

  /** The connect completes: the session forwards, destroyed or not. */
  function SRevived(s: Server): (r: Server) {
    SConnected(s).(phase := SClosed, life := ForwardStray)
  }

  function SStrayRead(s: Server): (r: Server) {
    s.(down := s.down.(reading := false))
  }

  /** A write completes where the pipeline session itself is gone: nothing is acknowledged, a deferred
      close is not looked at, and the next bytes are asked for. */
  function SAlone(s: Server): (r: Server) {
    s.(up := Ask(WriteDone(s.up).(closing := false)))
  }

  /** A stray is destroyed; the connect of one that was connecting may still complete. */
  function SStrayEnd(s: Server): (r: Server) {
    s.(life := if s.life == ConnectStray then Due else Over)
  }

  function SGone(s: Server): (r: Server) {
    s.(life := Over)
  }

  // ---- what travels between them ----

  /** The frames of this session in flight one way, behind its CONNECT: the payloads, the sum of the
      acknowledgement counts, a closing CLOSE. */
  datatype Lane = Lane(datas: seq<bytes>, acks: nat, close: bool)

  const NoLane := Lane([], 0, false)

  /** Completion handlers of this session pending in one send cache. */
  datatype Pending = Pending(conn: nat, data: nat, ack: nat)

  const NoHandlers := Pending(0, 0, 0)

  /** A forwarding sender does exactly one thing: read its socket, wait for the send to complete
      (`h` handlers pending), or wait for credit, of which there is then none. */
  predicate OneActivity(s: Sender, h: nat) {
    && !s.fault
    && B(s.reading) + B(s.gate.wait) + h == 1
    && (s.gate.wait ==> s.gate.counter == 0 && !s.gate.first)
  }

  predicate Tidy(r: Receiver) {
    && (r.inbox.queue == [] <==> r.inbox.pushAck == 0)
    && (r.writing <==> r.wdata != [])
    && (!r.writing ==> r.wack == 0)
    && (r.closing ==> r.writing || r.inbox.queue != [])
  }

  /** A forwarding receiver does exactly one thing: wait for a frame, write its socket, or wait for
      its acknowledgement to be sent. Nothing is queued while it waits for a frame. */
  predicate OneDelivery(r: Receiver, h: nat) {
    && B(r.inbox.waiting) + B(r.writing) + h == 1
    && (r.inbox.waiting ==> r.inbox.queue == [])
    && Tidy(r)
  }

  /** Everything between the near and the far socket of one direction. */
  function Transit(r: Receiver, datas: seq<bytes>): (t: bytes) {
    r.written + r.wdata + r.inbox.queue + Concat(datas)
  }

  /** The credit of one direction: the counter, the free first call, a granted read, `n` frames in
      flight, frames delivered and not acknowledged, and acknowledgements in flight. */
  function Credit(s: Sender, r: Receiver, n: int, acks: nat): (t: int) {
    s.gate.counter + B(s.gate.first) + B(s.reading) + n + r.inbox.pushAck + r.wack + acks
  }

  /** The request is in flight, uncounted by the credit. */
  predicate RequestFlying(p: Pair) {
    p.c.req.Some? && (p.s.phase == SNone || p.s.phase == SHandshake)
  }

  // ---- what every run keeps ----

  /** Nothing was asked of this sender yet. */
  predicate Unasked(s: Sender) {
    s.gate.first && !s.gate.wait && !s.reading && !s.fault && s.taken == []
  }

  predicate Unrequested(c: Client) {
    && c.req.None? && c.ended == Running && Unasked(c.up)
    && !c.down.inbox.waiting && !c.down.writing && Tidy(c.down)
  }

  predicate ClientShape(c: Client, h: Pending) {
    match c.phase
    case CNew => h == Pending(1, 0, 0) && Unrequested(c)
    case CReady => h == NoHandlers && Unrequested(c)
    case CForward =>
      && h.conn == 0 && c.req.Some? && c.ended == Running
      && OneActivity(c.up, h.data) && OneDelivery(c.down, h.ack)
    case CClosed => !c.up.fault && c.ended != Running
  }

  predicate Listening(s: Server, h: Pending) {
    h == NoHandlers && s.up == Ask(NewReceiver()) && s.outBuf == [] && Unasked(s.down)
  }

  predicate Connecting(s: Server, h: Pending) {
    && h == NoHandlers && Unasked(s.down)
    && !s.up.inbox.waiting && !s.up.writing && Tidy(s.up) && s.up.written == []
  }

  predicate Relaying(s: Server, h: Pending) {
    h.conn == 0 && s.outBuf == [] && OneActivity(s.down, h.data) && OneDelivery(s.up, h.ack)
  }

  predicate StrayShape(s: Server, h: Pending) {
    match s.life
    case Over =>
      && !s.down.fault && (s.up.writing <==> s.up.wdata != [])
      && (s.outBuf != [] ==> s.up.written == [] && s.up.wdata == [])
    case Due => Connecting(s, h)
    case IdleStray => Listening(s, h)
    case ConnectStray => Connecting(s, h)
    case ForwardStray => Relaying(s, h)
  }

  predicate ServerShape(cfg: Config, s: Server, h: Pending) {
    && (s.phase != SClosed ==> s.life == Over && (s.phase != SNone ==> s.ended == Running))
    && match s.phase
       case SNone => h == NoHandlers && s == NewPair(cfg).s
       case SHandshake => Listening(s, h)
       case SConnect => Connecting(s, h)
       case SForward => Relaying(s, h)
       case SClosed => s.ended != Running && StrayShape(s, h)
  }

  /** The bytes that must reach the target: what the request leaves to write, then the stream. */
  function UpGoal(cfg: Config, p: Pair): (r: bytes)
    requires p.c.req.Some?
  {
    FirstWrite(p.c.req.value, cfg.known) + p.c.up.taken
  }

  predicate UpFifo(cfg: Config, p: Pair, u: Lane) {
    p.c.req.Some? ==>
      if RequestFlying(p) then
        u.datas != [] && u.datas[0] == p.c.req.value && Concat(u.datas[1..]) == p.c.up.taken
      else if p.s.phase == SClosed then
        && p.s.outBuf + Transit(p.s.up, []) <= UpGoal(cfg, p)
        && (p.s.ended == PeerClosed ==> p.s.up.inbox.queue == [] && p.s.outBuf + Transit(p.s.up, []) == UpGoal(cfg, p))
      else
        p.s.outBuf + Transit(p.s.up, u.datas) == UpGoal(cfg, p)
  }

  /** The way to the server: nothing before the request, nothing behind the CLOSE, and the bytes. */
  predicate UpLink(cfg: Config, p: Pair, u: Lane) {
    && (p.c.req.None? ==>
          && u.datas == [] && p.c.up.taken == [] && p.s.outBuf == []
          && p.s.up.written == [] && p.s.up.wdata == [] && p.s.up.inbox.queue == []
          && p.s.phase != SConnect && p.s.phase != SForward && !CanReturn(p.s) && p.s.down.taken == [])
    && (u.close ==> p.c.phase == CClosed)
    && (p.s.phase != SClosed && p.s.up.closing ==> p.c.phase == CClosed && u.datas == [] && !u.close)
    && (p.s.ended == PeerClosed ==> p.c.phase == CClosed)
    && UpFifo(cfg, p, u)
  }

  /** What holds of every opening in every run, whatever comes back from the server. */
  predicate PairOk(cfg: Config, p: Pair, u: Lane, hu: Pending, hd: Pending) {
    ClientShape(p.c, hu) && ServerShape(cfg, p.s, hd) && UpLink(cfg, p, u)
  }

  // ---- what holds where nothing but its own server comes back to a client ----

  predicate DownFifo(p: Pair, d: Lane) {
    if p.c.phase == CClosed then
      && p.c.down.written + p.c.down.wdata <= p.s.down.taken
      && (p.c.ended == PeerClosed ==> p.c.down.wdata == [] && p.c.down.written == p.s.down.taken)
    else Transit(p.c.down, d.datas) == p.s.down.taken
  }

  /** A window whose every acknowledgement count fits the 16 bits of its frame. */
  predicate Countable(window: nat) {
    window <= 65534
  }

  predicate BothAlive(p: Pair) {
    CAlive(p.c) && p.s.phase != SClosed
  }

  predicate UpCredit(cfg: Config, p: Pair, u: Lane, d: Lane, intact: bool) {
    var t := Credit(p.c.up, p.s.up, |u.datas| - B(RequestFlying(p)), d.acks);
    && (intact || p.s.phase != SClosed ==> t <= cfg.cwindow + 1 + p.foreign)
    && (BothAlive(p) && Countable(cfg.cwindow + p.foreign) ==> t == cfg.cwindow + 1 + p.foreign)
  }

  predicate DownCredit(cfg: Config, p: Pair, u: Lane, d: Lane) {
    var t := Credit(p.s.down, p.c.down, |d.datas|, u.acks);
    && t <= cfg.swindow + 1
    && (BothAlive(p) && Countable(cfg.swindow) ==> t == cfg.swindow + 1)
  }

  /** An end that is gone while the other lives has its CLOSE on the way, or deferred. */
  predicate Closes(p: Pair, u: Lane, d: Lane) {
    && (p.s.phase == SClosed && p.c.phase != CClosed ==> d.close || p.c.down.closing)
    && (p.c.phase == CClosed && p.s.phase != SClosed ==> u.close || p.s.up.closing)
    && (p.c.req.None? && CAlive(p.c) ==> p.s.phase != SClosed)
  }

  /** The way back. `intact` says that neither process has lost the connection. */
  predicate DownOk(cfg: Config, p: Pair, u: Lane, d: Lane, intact: bool) {
    && (d.close ==> p.s.phase == SClosed)
    && (p.s.phase != SForward && p.s.phase != SClosed ==> d.datas == [])
    && (p.c.phase != CClosed && p.c.down.closing ==> p.s.phase == SClosed && d == NoLane)
    && (p.c.ended == PeerClosed ==> p.s.phase == SClosed)
    && (p.s.phase != SClosed && p.s.up.closing ==> u == NoLane)
    && DownFifo(p, d)
    && UpCredit(cfg, p, u, d, intact)
    && DownCredit(cfg, p, u, d)
    && (intact ==> Closes(p, u, d))
  }

  lemma Fresh(cfg: Config, intact: bool)
    ensures PairOk(cfg, NewPair(cfg), NoLane, Pending(1, 0, 0), NoHandlers)
    ensures DownOk(cfg, NewPair(cfg), NoLane, NoLane, intact)
  {
  }
}
