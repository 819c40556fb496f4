/** Runs built step by step: where the limits of the protocol are met, and what is lost there. */
module Runs {
  import opened Bytes
  import opened Frames
  import opened SendCache
  import opened Trojan
  import opened Component
  import opened Session
  import opened Flight
  import opened Protocol
  import opened Progress
  import opened Delivery

  /** A run that is calm as far as id 0 goes leads from one state to the other. */
  ghost predicate Reaches(y: Sys, z: Sys) {
    exists es :: IsRun(y, es) && IsCalm(y, es, 0) && Run(y, es) == z
  }

  lemma {:induction false} Joined(y: Sys, a: seq<Event>, b: seq<Event>)
    requires IsRun(y, a) && IsRun(Run(y, a), b)
    ensures IsRun(y, a + b) && Run(y, a + b) == Run(Run(y, a), b)
    ensures IsCalm(y, a, 0) && IsCalm(Run(y, a), b, 0) ==> IsCalm(y, a + b, 0)
    decreases |a|
  {
    hide Enabled, Step, Patient;
    if a == [] {
      assert a + b == b;
    } else {
      assert (a + b)[1..] == a[1..] + b;
      Joined(Step(y, a[0]), a[1..], b);
    }
  }

  lemma Then(y: Sys, z: Sys, w: Sys)
    requires Reaches(y, z) && Reaches(z, w)
    ensures Reaches(y, w)
  {
    hide Run, IsRun, IsCalm;
    var a :| IsRun(y, a) && IsCalm(y, a, 0) && Run(y, a) == z;
    var b :| IsRun(z, b) && IsCalm(z, b, 0) && Run(z, b) == w;
    Joined(y, a, b);
  }

  lemma Takes(y: Sys, e: Event)
    requires Enabled(y, e) && Patient(y, e, 0)
    ensures Reaches(y, Step(y, e))
  {
    hide Enabled, Step, Patient;
    assert [e][1..] == [];
    assert IsRun(y, [e]) && IsCalm(y, [e], 0) && Run(y, [e]) == Step(y, e);
  }

  lemma Unhurried(y: Sys, e: Event)
    requires !e.Opened?
    ensures Patient(y, e, 0)
  {
  }

  // ---- one frame from end to end ----

  /** A pipe with nothing in it. */
  const IDLE := Pipe(Empty(true), [], [], true)

  /** The frame has arrived and the write that carried it has not been reported. */
  function Unreported(f: Frame, h: Handler): (p: Pipe)
    requires Legal(f)
  {
    IDLE.(cache := Empty(true).(sending := true, flying := [h], flight := Encode(f)))
  }

  lemma DrainNothing()
    ensures Drain([]) == Drained([], [], true)
  {
  }

  lemma SendIdle(f: Frame, h: Handler)
    requires Sendable(f)
    ensures Send(IDLE, f, h) == Unreported(f, h).(net := Encode(f)) && 1 <= |Encode(f)|
    ensures Settle(Unreported(f, h)) == IDLE
    ensures Drain(Encode(f)) == Drained([f], [], true)
    ensures Moved(Send(IDLE, f, h), |Encode(f)|) == Unreported(f, h).(rbuf := Encode(f))
  {
    hide Encode, Drain, Legal;
    EncodeNonEmpty(f);
    NextEmpty();
    assert Drain([]) == Drained([], [], true) by { DrainNothing(); }
    DrainAppend([], f);
    assert [] + Encode(f) == Encode(f);
    var e := Encode(f);
    assert e[..|e|] == e && e[|e|..] == [];
  }

  lemma UpArrives(y: Sys, t: Lines, f: Frame, h: Handler)
    requires y.up == IDLE && Intact(y) && !y.broken && Sendable(f) && |Encode(f)| <= RECV_BUF_LENGTH
    ensures Reaches(y.(lines := t, up := Send(IDLE, f, h)), y.(lines := Serve(y.cfg, t, f), up := Unreported(f, h)))
  {
    hide Encode, Drain, Legal, Send, Serve, Moved, Reaches;
    SendIdle(f, h);
    var z := y.(lines := t, up := Send(IDLE, f, h));
    assert [f][1..] == [];
    assert ServeAll(y.cfg, t, [f]) == Serve(y.cfg, t, f);
    Takes(z, ReceivedUp(|Encode(f)|));
    assert Step(z, ReceivedUp(|Encode(f)|)) == y.(lines := Serve(y.cfg, t, f), up := Unreported(f, h));
  }

  lemma UpReported(y: Sys, f: Frame, h: Handler)
    requires Sendable(f) && y.up == Unreported(f, h)
    ensures Reaches(y, y.(lines := ResumeClient(y.lines, h), up := IDLE))
  {
    hide Encode, Legal, ResumeClient, Settle, Reaches, Send, Moved, Drain, Patient;
    SendIdle(f, h);
    assert [h][1..] == [];
    assert ResumeClients(y.lines, [h]) == ResumeClient(y.lines, h);
    Unhurried(y, SentUp);
    assert Step(y, SentUp) == y.(lines := ResumeClient(y.lines, h), up := IDLE);
    Takes(y, SentUp);
  }

  /** A frame to the server, received and then reported. */
  lemma UpTrip(y: Sys, t: Lines, f: Frame, h: Handler)
    requires y.up == IDLE && Intact(y) && !y.broken && Sendable(f) && |Encode(f)| <= RECV_BUF_LENGTH
    ensures Reaches(y.(lines := t, up := Send(IDLE, f, h)), y.(lines := ResumeClient(Serve(y.cfg, t, f), h)))
  {
    hide Encode, Legal, Send, Serve, Reaches, ResumeClient;
    UpArrives(y, t, f, h);
    UpReported(y.(lines := Serve(y.cfg, t, f), up := Unreported(f, h)), f, h);
    Then(y.(lines := t, up := Send(IDLE, f, h)), y.(lines := Serve(y.cfg, t, f), up := Unreported(f, h)),
         y.(lines := ResumeClient(Serve(y.cfg, t, f), h)));
  }

  lemma DownArrives(y: Sys, t: Lines, f: Frame, h: Handler)
    requires y.down == IDLE && Intact(y) && !y.broken && Sendable(f) && |Encode(f)| <= RECV_BUF_LENGTH
    ensures Reaches(y.(lines := t, down := Send(IDLE, f, h)), y.(lines := Hear(t, f), down := Unreported(f, h)))
  {
    hide Encode, Drain, Legal, Send, Hear, Moved, Reaches;
    SendIdle(f, h);
    var z := y.(lines := t, down := Send(IDLE, f, h));
    assert [f][1..] == [];
    assert HearAll(t, [f]) == Hear(t, f);
    Takes(z, ReceivedDown(|Encode(f)|));
    assert Step(z, ReceivedDown(|Encode(f)|)) == y.(lines := Hear(t, f), down := Unreported(f, h));
  }

  lemma DownReported(y: Sys, f: Frame, h: Handler)
    requires Sendable(f) && y.down == Unreported(f, h)
    ensures Reaches(y, y.(lines := ResumeServer(y.lines, h), down := IDLE))
  {
    hide Encode, Legal, ResumeServer, Settle, Reaches, Send, Moved, Drain, Patient;
    SendIdle(f, h);
    assert [h][1..] == [];
    assert ResumeServers(y.lines, [h]) == ResumeServer(y.lines, h);
    Unhurried(y, SentDown);
    assert Step(y, SentDown) == y.(lines := ResumeServer(y.lines, h), down := IDLE);
    Takes(y, SentDown);
  }

  /** A frame to the client. */
  lemma DownTrip(y: Sys, t: Lines, f: Frame, h: Handler)
    requires y.down == IDLE && Intact(y) && !y.broken && Sendable(f) && |Encode(f)| <= RECV_BUF_LENGTH
    ensures Reaches(y.(lines := t, down := Send(IDLE, f, h)), y.(lines := ResumeServer(Hear(t, f), h)))
  {
    hide Encode, Legal, Send, Hear, Reaches, ResumeServer;
    DownArrives(y, t, f, h);
    DownReported(y.(lines := Hear(t, f), down := Unreported(f, h)), f, h);
    Then(y.(lines := t, down := Send(IDLE, f, h)), y.(lines := Hear(t, f), down := Unreported(f, h)),
         y.(lines := ResumeServer(Hear(t, f), h)));
  }

  // ---- a session up to its request ----

  /** One session, under id 0, and nothing in flight. */
  function At(cfg: Config, pw: bytes, p: Pair): (y: Sys) {
    Sys(cfg, pw, IDLE, IDLE, map[0 := [p]], false)
  }

  function Zeros(n: nat): (s: bytes) {
    seq(n, _ => 0)
  }

  /** The client has sent a request that is no request, and `k` bytes one by one; the server connects. */
  function Waiting(cfg: Config, k: nat): (p: Pair) {
    Pair(
      Client(CForward,
        Sender(Gate(if k <= cfg.cwindow then cfg.cwindow - k else 0, false, k > cfg.cwindow), k <= cfg.cwindow,
          false, Zeros(k)),
        Receiver(Inbox([], 0, true), false, [], 0, false, []), Some([0]), Running),
      Server(SConnect, Receiver(Inbox(Zeros(k), k, false), false, [], 0, false, []), NewSender(cfg.swindow), [0],
        Running, Over),
      0, 0)
  }

  lemma PlainRequest(known: set<bytes>)
    ensures FirstWrite([0], known) == [0] && !OpensUdp([0], known)
  {
  }

  /** The password line is on its way. */
  function Greeting(cfg: Config, pw: bytes): (y: Sys) {
    Start(cfg, pw).(up := Pipe(Empty(true).(sending := true, flight := pw + CRLF), pw + CRLF, [], false))
  }

  lemma Greets(cfg: Config, pw: bytes)
    ensures Reaches(Start(cfg, pw), Greeting(cfg, pw))
  {
    hide Reaches, Patient;
    var y, line := Start(cfg, pw), pw + CRLF;
    assert line + [] == line;
    Unhurried(y, PipeConnected);
    Takes(y, PipeConnected);
    assert Step(y, PipeConnected) == Greeting(cfg, pw);
  }

  /** The pipe comes up. */
  lemma Connects(cfg: Config, pw: bytes)
    requires Configured(Start(cfg, pw))
    ensures Reaches(Start(cfg, pw), Sys(cfg, pw, IDLE, IDLE, map[], false))
  {
    hide Reaches, FindCrlf, NoCrlf, Drain, Patient;
    var a, line := Greeting(cfg, pw), pw + CRLF;
    Greets(cfg, pw);
    FindsTheEnd(pw, []);
    assert pw + CRLF + [] == line && line[..|line|] == line && line[|line|..] == [] && line[..|pw|] == pw;
    DrainNothing();
    Unhurried(a, ReceivedUp(|line|));
    Takes(a, ReceivedUp(|line|));
    var b := Start(cfg, pw).(up := Pipe(Empty(true).(sending := true, flight := line), [], [], true));
    assert Moved(a.up, |line|) == a.up.(net := [], rbuf := line);
    assert line[|pw| + 2..] == [];
    assert Step(a, ReceivedUp(|line|)) == b;
    Unhurried(b, SentUp);
    Takes(b, SentUp);
    assert Step(b, SentUp) == Sys(cfg, pw, IDLE, IDLE, map[], false);
    Then(Start(cfg, pw), a, b);
    Then(Start(cfg, pw), b, Step(b, SentUp));
  }

  // ---- one session alone ----

  function One(p: Pair): (t: Lines) {
    map[0 := [p]]
  }

  predicate Small(f: Frame) {
    Mine(0, f) && (f.Data? ==> f.payload == [0])
  }

  lemma SmallFits(f: Frame)
    requires Small(f)
    ensures Sendable(f) && |Encode(f)| <= RECV_BUF_LENGTH
  {
  }

  lemma OneUpdate(p: Pair, q: Pair)
    ensures One(p)[0 := [q]] == One(q) && [p][0 := q] == [q] && Of(One(p), 0) == [p]
  {
  }

  /** What a frame does to a session alone. */
  function ServePair(cfg: Config, p: Pair, f: Frame): (r: Pair) {
    if f.Connect? then p.(s := SOnConnect(cfg))
    else if SAlive(p.s) then p.(s := OnServer(cfg, p.s, f))
    else p
  }

  lemma ServeOne(cfg: Config, p: Pair, f: Frame)
    requires Small(f) && (f.Connect? ==> p.s.phase == SNone)
    ensures Serve(cfg, One(p), f) == One(ServePair(cfg, p, f))
  {
    hide OnServer;
    OneUpdate(p, ServePair(cfg, p, f));
    assert AliveAt([p]) == if SAlive(p.s) then 0 else 1;
    assert f.Connect? ==> Evicted([p]) == [p] && NewAt([p]) == 0;
  }

  lemma HearOne(p: Pair, f: Frame)
    requires Small(f)
    ensures Hear(One(p), f) == One(p.(c := OnClient(p.c, f)))
  {
    hide OnClient;
    OneUpdate(p, p.(c := OnClient(p.c, f)));
  }

  lemma ResumeOne(p: Pair, h: Handler)
    requires h == Ignored || Owns(0, 0, h)
    ensures ResumeClient(One(p), h) == One(OnSent(p, h)) && ResumeServer(One(p), h) == One(OnServed(p, h))
  {
    hide CConnectSent, CDataSent, CAckSent, SDataSent, SAckSent;
    OneUpdate(p, OnSent(p, h));
    OneUpdate(p, OnServed(p, h));
  }

  /** A client callback whose frame is received and reported before anything else happens. */
  lemma ClientActs(y: Sys, p: Pair, e: Event, c: Client, f: Frame, h: Handler)
    requires y.lines == One(p) && y.up == IDLE && Intact(y) && !y.broken && Enabled(y, e) && !e.Opened?
    requires Small(f) && !f.Connect? && (h == Ignored || Owns(0, 0, h)) && Step(y, e) == UpSend(y, 0, c, f, h)
    ensures Reaches(y, y.(lines := One(OnSent(ServePair(y.cfg, p.(c := c), f), h))))
  {
    hide Enabled, Step, Patient, Small, Encode, Reaches, Send, ServePair, OnSent, Owns, Serve, ResumeClient;
    Unhurried(y, e);
    Takes(y, e);
    SmallFits(f);
    OneUpdate(p, p.(c := c));
    var t := One(p.(c := c));
    assert Step(y, e) == y.(lines := t, up := Send(IDLE, f, h));
    UpTrip(y, t, f, h);
    ServeOne(y.cfg, p.(c := c), f);
    ResumeOne(ServePair(y.cfg, p.(c := c), f), h);
    Then(y, Step(y, e), y.(lines := One(OnSent(ServePair(y.cfg, p.(c := c), f), h))));
  }

  /** A server callback likewise. */
  lemma ServerActs(y: Sys, p: Pair, e: Event, s: Server, f: Frame, h: Handler)
    requires y.lines == One(p) && SAlive(p.s) && y.down == IDLE && Intact(y) && !y.broken && Enabled(y, e) && !e.Opened?
    requires Small(f) && !f.Connect? && (h == Ignored || Owns(0, 0, h)) && Step(y, e) == DownSend(y, 0, s, f, h)
    ensures var q := p.(s := s); Reaches(y, y.(lines := One(OnServed(q.(c := OnClient(q.c, f)), h))))
  {
    hide Enabled, Step, Patient, Small, Encode, Reaches, Send, OnClient, OnServed, Owns, Hear, ResumeServer;
    Unhurried(y, e);
    Takes(y, e);
    SmallFits(f);
    var q := p.(s := s);
    OneUpdate(p, q);
    assert AliveAt([p]) == 0;
    var t := One(q);
    assert Step(y, e) == y.(lines := t, down := Send(IDLE, f, h));
    DownTrip(y, t, f, h);
    HearOne(q, f);
    ResumeOne(q.(c := OnClient(q.c, f)), h);
    Then(y, Step(y, e), y.(lines := One(OnServed(q.(c := OnClient(q.c, f)), h))));
  }

  lemma FirstOpening(y: Sys)
    requires y.lines == map[]
    ensures Patient(y, Opened(0), 0)
  {
  }

  lemma Requests(cfg: Config, pw: bytes, p: Pair)
    requires p == Pair(CConnectSent(NewPair(cfg).c), SOnConnect(cfg), 0, 0)
    ensures Reaches(At(cfg, pw, p), At(cfg, pw, Waiting(cfg, 0)))
  {
    hide Reaches, Send, Encode, FirstWrite, OpensUdp;
    PlainRequest(cfg.known);
    var y := At(cfg, pw, p);
    SmallFits(Data(0, [0]));
    ClientActs(y, p, Requested(0, [0]), CRequest(p.c, [0]), Data(0, [0]), DataSent(0, 0));
    var q := OnSent(ServePair(cfg, p.(c := CRequest(p.c, [0])), Data(0, [0])), DataSent(0, 0));
    assert q == Waiting(cfg, 0);
  }

  /** From the start to a session whose request has arrived. */
  lemma Opens0(cfg: Config, pw: bytes)
    requires Configured(Start(cfg, pw))
    ensures Reaches(Start(cfg, pw), At(cfg, pw, Waiting(cfg, 0)))
  {
    hide Reaches, Send, Serve, ResumeClient, Encode, NoCrlf, Patient, FirstWrite, OpensUdp;
    Connects(cfg, pw);
    var y := Sys(cfg, pw, IDLE, IDLE, map[], false);
    var n := NewPair(cfg);
    assert Patient(y, Opened(0), 0) by { FirstOpening(y); }
    Takes(y, Opened(0));
    assert [] + [n] == [n];
    assert Step(y, Opened(0)) == y.(lines := One(n), up := Send(IDLE, Connect(0), ConnectSent(0, 0)));
    SmallFits(Connect(0));
    UpTrip(y, One(n), Connect(0), ConnectSent(0, 0));
    ServeOne(cfg, n, Connect(0));
    ResumeOne(ServePair(cfg, n, Connect(0)), ConnectSent(0, 0));
    var p := Pair(CConnectSent(n.c), SOnConnect(cfg), 0, 0);
    assert OnSent(ServePair(cfg, n, Connect(0)), ConnectSent(0, 0)) == p;
    Then(Start(cfg, pw), y, Step(y, Opened(0)));
    Then(Start(cfg, pw), Step(y, Opened(0)), At(cfg, pw, p));
    Requests(cfg, pw, p);
    Then(Start(cfg, pw), At(cfg, pw, p), At(cfg, pw, Waiting(cfg, 0)));
  }

  // ---- more frames than a count can tell ----

  lemma ReadsOne(cfg: Config, pw: bytes, k: nat)
    requires k <= cfg.cwindow
    ensures Reaches(At(cfg, pw, Waiting(cfg, k)), At(cfg, pw, Waiting(cfg, k + 1)))
  {
    hide Reaches, Send, Encode, FirstWrite;
    var p := Waiting(cfg, k);
    SmallFits(Data(0, [0]));
    assert Zeros(k) + [0] == Zeros(k + 1);
    ClientActs(At(cfg, pw, p), p, ClientRead(0, [0]), CRead(p.c, [0]), Data(0, [0]), DataSent(0, 0));
    var q := OnSent(ServePair(cfg, p.(c := CRead(p.c, [0])), Data(0, [0])), DataSent(0, 0));
    assert q == Waiting(cfg, k + 1);
  }

  /** The target takes its time, and the client reads until its credit is gone. */
  lemma {:induction false} ReadsAll(cfg: Config, pw: bytes, k: nat)
    requires Configured(Start(cfg, pw)) && k <= cfg.cwindow + 1
    ensures Reaches(Start(cfg, pw), At(cfg, pw, Waiting(cfg, k)))
  {
    hide Reaches, Waiting, Configured;
    if k == 0 {
      Opens0(cfg, pw);
    } else {
      ReadsAll(cfg, pw, k - 1);
      ReadsOne(cfg, pw, k - 1);
      Then(Start(cfg, pw), At(cfg, pw, Waiting(cfg, k - 1)), At(cfg, pw, Waiting(cfg, k)));
    }
  }

  /** The target is connected and the request written; all the rest is being written in one piece. */
  function Writing(cfg: Config, k: nat): (p: Pair) {
    Waiting(cfg, k).(s := Server(SForward, Receiver(Inbox([], 0, false), true, Zeros(k), k, false, [0]),
                                 TryRead(NewSender(cfg.swindow)), [], Running, Over))
  }

  lemma ConnectsTarget(cfg: Config, pw: bytes, p: Pair)
    requires p.s.phase == SConnect
    ensures Reaches(At(cfg, pw, p), At(cfg, pw, p.(s := SConnected(p.s))))
  {
    hide Reaches, Patient, SConnected;
    var y, q := At(cfg, pw, p), p.(s := SConnected(p.s));
    OneUpdate(p, q);
    assert AliveAt([p]) == 0;
    Unhurried(y, TargetConnected(0));
    Takes(y, TargetConnected(0));
    assert Step(y, TargetConnected(0)) == At(cfg, pw, q);
  }

  lemma WrittenPair(cfg: Config, k: nat)
    requires k > 0
    ensures var p := Waiting(cfg, k); var q := p.(s := SConnected(p.s)); var r := q.(s := SWriteDone(q.s));
      OnServed(r.(c := OnClient(r.c, Ack(0, 0))), AckSent(0, 0)) == Writing(cfg, k)
  {
  }

  lemma Writes(cfg: Config, pw: bytes, k: nat)
    requires k > 0
    ensures Reaches(At(cfg, pw, Waiting(cfg, k)), At(cfg, pw, Writing(cfg, k)))
  {
    hide Reaches, Send, Encode, Writing, OnServed, OnClient;
    var p := Waiting(cfg, k);
    ConnectsTarget(cfg, pw, p);
    var q := p.(s := SConnected(p.s));
    assert AliveAt([q]) == 0;
    SmallFits(Ack(0, 0));
    ServerActs(At(cfg, pw, q), q, ServerWritten(0), SWriteDone(q.s), Ack(0, 0), AckSent(0, 0));
    WrittenPair(cfg, k);
    Then(At(cfg, pw, p), At(cfg, pw, q), At(cfg, pw, Writing(cfg, k)));
  }

  /** That one write is acknowledged with what is left of its count in 16 bits. */
  function Overrun(cfg: Config): (p: Pair) {
    var n, w := (cfg.cwindow + 1) % 0x1_0000, Writing(cfg, cfg.cwindow + 1);
    Pair(
      w.c.(up := w.c.up.(gate := Gate(if n == 0 then 0 else n - 1, false, n == 0), reading := n > 0)),
      w.s.(up := Receiver(Inbox([], 0, true), false, [], 0, false, [0] + Zeros(cfg.cwindow + 1))),
      0, 0)
  }

  lemma WritesAll(cfg: Config, pw: bytes, k: nat)
    requires Configured(Start(cfg, pw)) && 1 <= k <= cfg.cwindow + 1
    ensures Reaches(Start(cfg, pw), At(cfg, pw, Writing(cfg, k)))
  {
    hide Reaches, Configured, Waiting;
    ReadsAll(cfg, pw, k);
    Writes(cfg, pw, k);
    Then(Start(cfg, pw), At(cfg, pw, Waiting(cfg, k)), At(cfg, pw, Writing(cfg, k)));
  }

  lemma AcknowledgedPair(cfg: Config)
    ensures var p, n := Writing(cfg, cfg.cwindow + 1), (cfg.cwindow + 1) % 0x1_0000;
      var r := p.(s := SWriteDone(p.s));
      OnServed(r.(c := OnClient(r.c, Ack(0, n))), AckSent(0, 0)) == Overrun(cfg)
  {
  }

  lemma Acknowledges(cfg: Config, pw: bytes)
    ensures Reaches(At(cfg, pw, Writing(cfg, cfg.cwindow + 1)), At(cfg, pw, Overrun(cfg)))
  {
    hide Reaches, Send, Encode, Overrun, OnServed, OnClient;
    var p, n := Writing(cfg, cfg.cwindow + 1), (cfg.cwindow + 1) % 0x1_0000;
    var y := At(cfg, pw, p);
    assert AliveAt([p]) == 0;
    SmallFits(Ack(0, n));
    ServerActs(y, p, ServerWritten(0), SWriteDone(p.s), Ack(0, n), AckSent(0, 0));
    AcknowledgedPair(cfg);
  }

  lemma Overruns(cfg: Config, pw: bytes)
    requires Configured(Start(cfg, pw))
    ensures Reaches(Start(cfg, pw), At(cfg, pw, Overrun(cfg)))
  {
    hide Reaches, Send, Encode, Patient, Configured, Waiting;
    var k := cfg.cwindow + 1;
    WritesAll(cfg, pw, k);
    Acknowledges(cfg, pw);
    Then(Start(cfg, pw), At(cfg, pw, Writing(cfg, k)), At(cfg, pw, Overrun(cfg)));
  }

  lemma IdleAir(y: Sys)
    requires y.up == IDLE && y.down == IDLE
    ensures AirOf(y) == Air([], [], [], [])
  {
  }

  predicate UpExactAt(y: Sys, id: u16) {
    Of(y.lines, id) != [] && BothAlive(LastOf(y, id)) && LastOf(y, id).foreign == 0 ==>
      UpTotal(y, id) == y.cfg.cwindow + 1
  }

  /** The credit between two live ends is exact after every calm run, late acknowledgements aside. */
  ghost predicate UpExact(cfg: Config, pw: bytes) {
    forall es, id: u16 :: IsRun(Start(cfg, pw), es) && IsCalm(Start(cfg, pw), es, id) ==>
      UpExactAt(After(cfg, pw, es), id)
  }

  lemma ExactWhenCountable(cfg: Config, pw: bytes, es: seq<Event>, id: u16)
    requires Configured(Start(cfg, pw)) && IsRun(Start(cfg, pw), es) && IsCalm(Start(cfg, pw), es, id)
    requires Countable(cfg.cwindow)
    ensures UpExactAt(After(cfg, pw, es), id)
  {
    hide Configured, UpTotal, DownTotal, Run, IsRun, IsCalm;
    CreditConserved(cfg, pw, es, id);
    RunConfig(Start(cfg, pw), es);
  }

  lemma NotExact(cfg: Config, pw: bytes)
    requires !Countable(cfg.cwindow)
    ensures !UpExactAt(At(cfg, pw, Overrun(cfg)), 0)
  {
  }

  lemma RunTo(y: Sys, z: Sys) returns (es: seq<Event>)
    requires Reaches(y, z)
    ensures IsRun(y, es) && IsCalm(y, es, 0) && Run(y, es) == z
  {
    hide Run, IsRun, IsCalm;
    es :| IsRun(y, es) && IsCalm(y, es, 0) && Run(y, es) == z;
  }

  /** Client to target the credit is exact if and only if the window fits a count. */
  lemma UpCreditExactIff(cfg: Config, pw: bytes)
    requires Configured(Start(cfg, pw))
    ensures UpExact(cfg, pw) <==> Countable(cfg.cwindow)
  {
    hide Reaches, Configured, UpExactAt, Run, IsRun, IsCalm;
    if Countable(cfg.cwindow) {
      forall es, id: u16 | IsRun(Start(cfg, pw), es) && IsCalm(Start(cfg, pw), es, id)
        ensures UpExactAt(After(cfg, pw, es), id)
      {
        ExactWhenCountable(cfg, pw, es, id);
      }
    } else {
      Overruns(cfg, pw);
      var es := RunTo(Start(cfg, pw), At(cfg, pw, Overrun(cfg)));
      NotExact(cfg, pw);
      assert !UpExactAt(After(cfg, pw, es), 0);
    }
  }

  /** Where the count is cut to nothing, the client waits for credit at rest. */
  lemma StuckAtRest(cfg: Config, pw: bytes)
    requires Configured(Start(cfg, pw)) && (cfg.cwindow + 1) % 0x1_0000 == 0
    ensures var y := At(cfg, pw, Overrun(cfg)); var p := LastOf(y, 0);
      && Reaches(Start(cfg, pw), y) && AtRest(y)
      && p.c.phase == CForward && p.s.phase == SForward && p.c.up.gate.wait && !p.c.up.reading
  {
    hide Reaches, Configured;
    Overruns(cfg, pw);
    var y, p := At(cfg, pw, Overrun(cfg)), Overrun(cfg);
    assert AliveAt([p]) == 0;
    forall id: u16 | id != 0
      ensures Of(y.lines, id) == []
    {
    }
  }

  // ---- the same from target to client ----

  /** The target has sent `k` bytes one by one; the client is still writing the first. */
  function Sending(cfg: Config, k: nat): (p: Pair) {
    var w := Waiting(cfg, 0);
    Pair(
      if k == 0 then w.c
      else w.c.(down := Receiver(Inbox(Zeros(k - 1), k - 1, false), true, [0], 1, false, [])),
      SConnected(w.s).(down :=
        Sender(Gate(if k <= cfg.swindow then cfg.swindow - k else 0, false, k > cfg.swindow), k <= cfg.swindow,
          false, Zeros(k))),
      0, 0)
  }

  lemma SendsOne(cfg: Config, pw: bytes, k: nat)
    requires k <= cfg.swindow
    ensures Reaches(At(cfg, pw, Sending(cfg, k)), At(cfg, pw, Sending(cfg, k + 1)))
  {
    hide Reaches, Send, Encode;
    var p := Sending(cfg, k);
    SmallFits(Data(0, [0]));
    assert Zeros(k) + [0] == Zeros(k + 1) && (k > 0 ==> Zeros(k - 1) + [0] == Zeros(k));
    assert AliveAt([p]) == 0;
    ServerActs(At(cfg, pw, p), p, ServerRead(0, [0]), SRead(p.s, [0]), Data(0, [0]), DataSent(0, 0));
    var q := p.(s := SRead(p.s, [0]));
    assert OnServed(q.(c := OnClient(q.c, Data(0, [0]))), DataSent(0, 0)) == Sending(cfg, k + 1);
  }

  lemma {:induction false} SendsAll(cfg: Config, pw: bytes, k: nat)
    requires Configured(Start(cfg, pw)) && k <= cfg.swindow + 1
    ensures Reaches(Start(cfg, pw), At(cfg, pw, Sending(cfg, k)))
  {
    hide Reaches, Configured;
    if k == 0 {
      Opens0(cfg, pw);
      ConnectsTarget(cfg, pw, Waiting(cfg, 0));
      assert Waiting(cfg, 0).(s := SConnected(Waiting(cfg, 0).s)) == Sending(cfg, 0);
      Then(Start(cfg, pw), At(cfg, pw, Waiting(cfg, 0)), At(cfg, pw, Sending(cfg, 0)));
    } else {
      SendsAll(cfg, pw, k - 1);
      SendsOne(cfg, pw, k - 1);
      Then(Start(cfg, pw), At(cfg, pw, Sending(cfg, k - 1)), At(cfg, pw, Sending(cfg, k)));
    }
  }

  /** The first byte is written and its ACK has reached the server, but has not been reported as sent: one
      more byte arrives behind those that wait. */
  function Squeezed(cfg: Config, more: bool): (p: Pair) {
    var v, w := cfg.swindow + (if more then 1 else 0), Sending(cfg, cfg.swindow + 1);
    Pair(
      w.c.(down := Receiver(Inbox(Zeros(v), v, false), false, [], 0, false, [0])),
      w.s.(down := Sender(Gate(0, false, more), !more, false, Zeros(v + 1))),
      0, 0)
  }

  function Pressed(cfg: Config, pw: bytes, more: bool): (y: Sys) {
    At(cfg, pw, Squeezed(cfg, more)).(up := Unreported(Ack(0, 1), AckSent(0, 0)))
  }

  lemma SqueezedPair(cfg: Config)
    ensures var p := Sending(cfg, cfg.swindow + 1);
      ServePair(cfg, p.(c := CWriteDone(p.c)), Ack(0, 1)) == Squeezed(cfg, false)
  {
  }

  lemma Squeezes(cfg: Config, pw: bytes)
    ensures Reaches(At(cfg, pw, Sending(cfg, cfg.swindow + 1)), Pressed(cfg, pw, false))
  {
    hide Reaches, Send, Encode, Patient, ServePair;
    var p := Sending(cfg, cfg.swindow + 1);
    var y, q := At(cfg, pw, p), p.(c := CWriteDone(p.c));
    OneUpdate(p, q);
    Unhurried(y, ClientWritten(0));
    Takes(y, ClientWritten(0));
    SmallFits(Ack(0, 1));
    var z := y.(lines := One(q), up := Send(IDLE, Ack(0, 1), AckSent(0, 0)));
    assert Step(y, ClientWritten(0)) == z;
    UpArrives(y, One(q), Ack(0, 1), AckSent(0, 0));
    ServeOne(cfg, q, Ack(0, 1));
    SqueezedPair(cfg);
    Then(y, z, Pressed(cfg, pw, false));
  }

  lemma SqueezesMore(cfg: Config, pw: bytes)
    ensures Reaches(Pressed(cfg, pw, false), Pressed(cfg, pw, true))
  {
    hide Reaches, Send, Encode;
    var p := Squeezed(cfg, false);
    SmallFits(Data(0, [0]));
    var v := cfg.swindow;
    assert Zeros(v) + [0] == Zeros(v + 1) && Zeros(v + 1) + [0] == Zeros(v + 2);
    assert AliveAt([p]) == 0;
    ServerActs(Pressed(cfg, pw, false), p, ServerRead(0, [0]), SRead(p.s, [0]), Data(0, [0]), DataSent(0, 0));
    var q := p.(s := SRead(p.s, [0]));
    assert OnServed(q.(c := OnClient(q.c, Data(0, [0]))), DataSent(0, 0)) == Squeezed(cfg, true);
  }

  /** The ACK is reported, and a window and one frames are written at once. */
  lemma SqueezesOut(cfg: Config, pw: bytes)
    ensures var p := Squeezed(cfg, true); Reaches(Pressed(cfg, pw, true), At(cfg, pw, p.(c := CAckSent(p.c))))
  {
    hide Reaches, Encode, CAckSent;
    var p := Squeezed(cfg, true);
    SmallFits(Ack(0, 1));
    UpReported(Pressed(cfg, pw, true), Ack(0, 1), AckSent(0, 0));
    ResumeOne(p, AckSent(0, 0));
  }

  function DownOverrun(cfg: Config): (p: Pair) {
    var n, v, w := (cfg.swindow + 1) % 0x1_0000, cfg.swindow + 1, Squeezed(cfg, true);
    Pair(
      w.c.(down := Receiver(Inbox([], 0, true), false, [], 0, false, [0] + Zeros(v))),
      w.s.(down := w.s.down.(gate := Gate(if n == 0 then 0 else n - 1, false, n == 0), reading := n > 0)),
      0, 0)
  }

  lemma DownAcknowledgedPair(cfg: Config)
    ensures var w, n := Squeezed(cfg, true), (cfg.swindow + 1) % 0x1_0000;
      var p := w.(c := CAckSent(w.c));
      OnSent(ServePair(cfg, p.(c := CWriteDone(p.c)), Ack(0, n)), AckSent(0, 0)) == DownOverrun(cfg)
  {
  }

  lemma DownAcknowledges(cfg: Config, pw: bytes)
    ensures var p := Squeezed(cfg, true); Reaches(At(cfg, pw, p.(c := CAckSent(p.c))), At(cfg, pw, DownOverrun(cfg)))
  {
    hide Reaches, Send, Encode, OnSent, ServePair, DownOverrun;
    var w, n := Squeezed(cfg, true), (cfg.swindow + 1) % 0x1_0000;
    var p := w.(c := CAckSent(w.c));
    SmallFits(Ack(0, n));
    ClientActs(At(cfg, pw, p), p, ClientWritten(0), CWriteDone(p.c), Ack(0, n), AckSent(0, 0));
    DownAcknowledgedPair(cfg);
  }

  lemma DownOverruns(cfg: Config, pw: bytes)
    requires Configured(Start(cfg, pw))
    ensures Reaches(Start(cfg, pw), At(cfg, pw, DownOverrun(cfg)))
  {
    hide Reaches, Configured, Sending, Squeezed, Pressed, DownOverrun;
    var y := Start(cfg, pw);
    SendsAll(cfg, pw, cfg.swindow + 1);
    Squeezes(cfg, pw);
    Then(y, At(cfg, pw, Sending(cfg, cfg.swindow + 1)), Pressed(cfg, pw, false));
    SqueezesMore(cfg, pw);
    Then(y, Pressed(cfg, pw, false), Pressed(cfg, pw, true));
    SqueezesOut(cfg, pw);
    var p := Squeezed(cfg, true);
    Then(y, Pressed(cfg, pw, true), At(cfg, pw, p.(c := CAckSent(p.c))));
    DownAcknowledges(cfg, pw);
    Then(y, At(cfg, pw, p.(c := CAckSent(p.c))), At(cfg, pw, DownOverrun(cfg)));
  }

  predicate DownExactAt(y: Sys, id: u16) {
    Of(y.lines, id) != [] && BothAlive(LastOf(y, id)) ==> DownTotal(y, id) == y.cfg.swindow + 1
  }

  ghost predicate DownExact(cfg: Config, pw: bytes) {
    forall es, id: u16 :: IsRun(Start(cfg, pw), es) && IsCalm(Start(cfg, pw), es, id) ==>
      DownExactAt(After(cfg, pw, es), id)
  }

  lemma DownExactWhenCountable(cfg: Config, pw: bytes, es: seq<Event>, id: u16)
    requires Configured(Start(cfg, pw)) && IsRun(Start(cfg, pw), es) && IsCalm(Start(cfg, pw), es, id)
    requires Countable(cfg.swindow)
    ensures DownExactAt(After(cfg, pw, es), id)
  {
    hide Configured, UpTotal, DownTotal, Run, IsRun, IsCalm;
    CreditConserved(cfg, pw, es, id);
    RunConfig(Start(cfg, pw), es);
  }

  lemma NotDownExact(cfg: Config, pw: bytes)
    requires !Countable(cfg.swindow)
    ensures !DownExactAt(At(cfg, pw, DownOverrun(cfg)), 0)
  {
  }

  /** Target to client the credit is exact if and only if the window fits a count. */
  lemma DownCreditExactIff(cfg: Config, pw: bytes)
    requires Configured(Start(cfg, pw))
    ensures DownExact(cfg, pw) <==> Countable(cfg.swindow)
  {
    hide Reaches, Configured, DownExactAt, Run, IsRun, IsCalm;
    if Countable(cfg.swindow) {
      forall es, id: u16 | IsRun(Start(cfg, pw), es) && IsCalm(Start(cfg, pw), es, id)
        ensures DownExactAt(After(cfg, pw, es), id)
      {
        DownExactWhenCountable(cfg, pw, es, id);
      }
    } else {
      DownOverruns(cfg, pw);
      var es := RunTo(Start(cfg, pw), At(cfg, pw, DownOverrun(cfg)));
      NotDownExact(cfg, pw);
      assert !DownExactAt(After(cfg, pw, es), 0);
    }
  }

  // ---- what a close can lose ----

  /** The session under id 0 was closed by its peer with bytes unwritten. */
  predicate Dropped(y: Sys) {
    && Of(y.lines, 0) != []
    && var p := LastOf(y, 0);
    && p.s.ended == PeerClosed && p.c.req.Some? && p.s.outBuf != []
    && p.s.up.written != FirstWrite(p.c.req.value, y.cfg.known) + p.c.up.taken
  }

  /** A client that ends while the target is being connected: its request is dropped, and nothing else
      could be. */
  lemma DropsRequest(cfg: Config, pw: bytes)
    requires Configured(Start(cfg, pw))
    ensures exists es :: IsRun(Start(cfg, pw), es) && IsCalm(Start(cfg, pw), es, 0) && Dropped(After(cfg, pw, es))
  {
    hide Reaches, Send, Encode, Configured, Run, IsRun, IsCalm;
    Opens0(cfg, pw);
    var p := Waiting(cfg, 0);
    var y := At(cfg, pw, p);
    SmallFits(Close(0));
    ClientActs(y, p, ClientFailed(0), CEnd(p.c, Failed), Close(0), Ignored);
    var q := OnSent(ServePair(cfg, p.(c := CEnd(p.c, Failed)), Close(0)), Ignored);
    assert Dropped(At(cfg, pw, q)) by { PlainRequest(cfg.known); }
    Then(Start(cfg, pw), y, At(cfg, pw, q));
    var es := RunTo(Start(cfg, pw), At(cfg, pw, q));
    assert Dropped(After(cfg, pw, es));
  }
}
