/** The server as the source has it: `ServerSession` objects whose callbacks change them in place, and
    the list of them that `PipelineSession` keeps. */
module ServerSide {
  import opened Bytes
  import opened Frames
  import opened SendCache
  import opened Trojan
  import opened Component
  import opened Session
  import opened Flight
  import P = Protocol

  datatype Status = Handshake | Forward | Destroyed

  /** The session of one line the server has. */
  function LivingIn(l: seq<Pair>): (r: Option<Server>) {
    if AliveAt(l) < |l| then Some(l[AliveAt(l)].s) else None
  }

  lemma Lives(l: seq<Pair>)
    requires LivingIn(l).Some?
    ensures SAlive(LivingIn(l).value)
  {
  }

  class ServerSession {
    const id: u16
    const opening: nat        // tells it from the other sessions under its id, as its address does
    const cfg: Config
    const component: PipelineComponent
    var status: Status
    var hasQueriedOut: bool
    var outWriteBuf: bytes
    var outReading: bool      // the guard of out_read_buf
    ghost var connected: bool // the target was reached; outWriteBuf is not used any more
    ghost var connecting: bool // a connect may still complete
    ghost var listed: bool    // the list of the pipeline has it

    ghost var threw: bool     // the guard refused a second read
    ghost var taken: bytes    // read from the target
    ghost var written: bytes  // written to the target
    ghost var writing: bool   // a write to the target is in progress, of `wdata`, acknowledging `wack`
    ghost var wdata: bytes
    var wack: nat
    ghost var ended: Ending

    ghost function Left(): (life: Life)
      reads this
    {
      match status
      case Destroyed => if connecting then Due else Over
      case Handshake => if hasQueriedOut then ConnectStray else IdleStray
      case Forward => ForwardStray
    }

    ghost function State(): (s: Server)
      reads this, component, component.cache
    {
      Server(
        if !listed then SClosed
        else if status == Forward then SForward
        else if hasQueriedOut then SConnect else SHandshake,
        Receiver(component.cache.State(), writing, wdata, wack, component.writeCloseFuture, written),
        Sender(component.Credit(), outReading, threw, taken),
        if connected then [] else outWriteBuf, ended, if listed then Over else Left())
    }

    /** What the phase says of the status. */
    lemma PhaseIs()
      requires Valid() && listed
      ensures State().phase == SHandshake <==> status == Handshake && !hasQueriedOut
    {
    }

    /** What is left of a listed session, and of one off the list that writes. */
    lemma Lives()
      requires Valid()
      ensures listed ==> status != Destroyed
      ensures !listed && writing ==> State().life == if status == Destroyed then Over else ForwardStray
    {
    }

    lemma Pending()
      requires Valid() && listed && connecting
      ensures SEnd(State(), Failed).life == Due
    {
    }

    lemma IsDue()
      requires State().life == Due
      ensures connecting && status == Destroyed && !listed
    {
    }

    /** A session is listed while it lives; one that has not reached its target waits for nothing but that. */
    ghost predicate Valid()
      reads this, component, component.cache
    {
      && component.isUsePipeline
      && (listed ==> status != Destroyed)
      && (connecting ==> hasQueriedOut && !connected)
      && (status != Destroyed ==> (connected <==> status == Forward))
      && (status != Destroyed || connecting ==> component.isAsyncWriting == writing)
      && (status == Handshake ==> (connecting <==> hasQueriedOut))
      && (status == Handshake || connecting ==> !writing && component.cache.isWaiting == !hasQueriedOut)
      && (status == Handshake && !hasQueriedOut ==> outWriteBuf == [])
    }

    /** Constructed and started by a CONNECT frame. */
    constructor (id: u16, opening: nat, cfg: Config)
      ensures Valid() && fresh(component) && fresh(component.cache) && status == Handshake && listed
      ensures this.id == id && this.opening == opening && this.cfg == cfg && State() == SOnConnect(cfg)
    {
      this.id, this.opening, this.cfg := id, opening, cfg;
      var c := new PipelineComponent(cfg.serverWindow);
      c.isUsePipeline := true;
      var call := c.cache.AsyncRead();
      component := c;
      status, hasQueriedOut, outWriteBuf, outReading := Handshake, false, [], false;
      connected, connecting, listed, threw, taken, ended := false, false, true, false, [], Running;
      written, writing, wdata, wack := [], false, [], 0;
    }

    method OutAsyncRead()
      requires Valid()
      modifies this`outReading, this`threw, component
      ensures Valid() && State() == old(State()).(down := TryRead(old(State()).down))
      ensures component.writeCloseFuture == old(component.writeCloseFuture)
    {
      var ok := component.PreCallAckFunc();
      if !ok {
        return;
      }
      threw := threw || outReading;
      outReading := true;
    }

    method OutAsyncWrite(data: bytes, ackCount: nat)
      requires Valid() && status == Forward
      modifies this`writing, this`wdata, this`wack, component`isAsyncWriting
      ensures Valid() && State() == old(State()).(up := StartWrite(old(State()).up, Deliver(data, ackCount)))
    {
      component.isAsyncWriting := true;
      writing, wdata, wack := true, data, ackCount;
    }

    /** A handler of the read cache: the request first, data to forward later. */
    method InRecv(data: bytes, ackCount: nat)
      requires Waited() && status != Destroyed && (status == Handshake && !hasQueriedOut ==> !OpensUdp(data, cfg.known))
      requires status == Handshake ==> listed
      modifies this, component, component.cache
      ensures Valid() && status == old(status) && listed == old(listed)
      ensures State() ==
        if old(status) == Handshake then
          old(State()).(phase := SConnect,
            outBuf := old(outWriteBuf) + (if old(hasQueriedOut) then data else FirstWrite(data, cfg.known)))
        else old(State()).(up := StartWrite(old(State()).up, Deliver(data, ackCount)))
    {
      hide ParseRequest, OpensUdp;
      if status == Handshake && hasQueriedOut {
        outWriteBuf := outWriteBuf + data;
      } else if status == Handshake {
        var req := ParseRequest(data);
        var useAlpn := req.None? || req.value.password !in cfg.known;
        outWriteBuf := outWriteBuf + (if useAlpn then data else req.value.payload);
        hasQueriedOut, connecting := true, true;
      } else {
        OutAsyncWrite(data, ackCount);
      }
    }

    /** Valid but for the handler of the read cache having been taken out. */
    ghost predicate Waited()
      reads this, component, component.cache
    {
      && component.isUsePipeline
      && (listed ==> status != Destroyed)
      && (connecting ==> hasQueriedOut && !connected)
      && (status != Destroyed ==> component.isAsyncWriting == writing && (connected <==> status == Forward))
      && (status == Handshake ==> !writing && !component.cache.isWaiting && (connecting <==> hasQueriedOut))
    }

    method InAsyncRead()
      requires Valid() && status == Forward
      modifies this, component, component.cache
      ensures Valid() && status == old(status) && listed == old(listed)
      ensures State() == old(State()).(up := Ask(old(State()).up))
    {
      var call := component.cache.AsyncRead();
      if call.Deliver? {
        InRecv(call.data, call.count);
      }
    }

    // ---- frames ----

    method RecvData(data: bytes)
      requires Valid() && listed && (status == Handshake && !hasQueriedOut ==> !OpensUdp(data, cfg.known))
      modifies this, component, component.cache
      ensures Valid() && listed && State() == SOnData(cfg, old(State()), data)
    {
      hide FirstWrite, OpensUdp;
      var ok, call := component.PipelineInRecv(data);
      if call.Deliver? {
        InRecv(call.data, call.count);
      }
    }

    method RecvAck(count: nat)
      requires Valid() && listed
      modifies this, component, component.cache
      ensures Valid() && listed && State() == SOnAck(old(State()), count)
    {
      component.RecvAckCmd(count);
      if component.waitForAck {
        OutAsyncRead();
      }
    }

    /** A CLOSE frame: at once, or after the bytes already received are written. */
    method RecvClose() returns (gone: bool)
      requires Valid() && listed
      modifies this, component, component.cache
      ensures Valid() && State() == SOnClose(old(State()))
      ensures gone == !listed == (State().phase == SClosed)
    {
      gone := component.CanbeClosedByPipeline();
      if gone {
        status, ended, listed := Destroyed, PeerClosed, false;
      } else {
        component.writeCloseFuture := true;
      }
    }

    // ---- completions ----

    /** The target is reached. Nothing looks at the status: a session destroyed meanwhile comes back. */
    method OnConnected()
      requires Valid() && connecting
      modifies this, component, component.cache
      ensures Valid() && status == Forward && listed == old(listed)
      ensures State() == if listed then SConnected(old(State())) else SRevived(old(State()))
    {
      status, connected, connecting := Forward, true, false;
      OutAsyncRead();
      if |outWriteBuf| != 0 {
        OutAsyncWrite(outWriteBuf, 0);
      } else {
        InAsyncRead();
      }
    }

    /** The connect of a destroyed session fails. */
    ghost method ConnectFailed()
      requires Valid() && connecting && status == Destroyed
      modifies this
      ensures Valid() && !connecting && status == old(status) && listed == old(listed)
      ensures State() == SGone(old(State()))
    {
      connecting := false;
    }

    method OutReadDone(data: bytes)
      requires Valid() && status == Forward
      modifies this
      ensures Valid() && status == old(status) && listed == old(listed)
      ensures State() == if listed then SRead(old(State()), data) else SStrayRead(old(State()))
    {
      outReading, taken := false, if listed then taken + data else taken;
    }

    /** The DATA frame was sent. */
    method InSent()
      requires Valid()
      modifies this, component, component.cache
      ensures Valid() && State() == SDataSent(old(State()))
    {
      if status == Forward {
        OutAsyncRead();
      }
    }

    /** The ACK frame was sent. */
    method OutSent()
      requires Valid()
      modifies this, component, component.cache
      ensures Valid() && State() == SAckSent(old(State()))
    {
      if status == Forward {
        InAsyncRead();
      }
    }

    /** Whether a completed write ends the session: its close was deferred and nothing is queued. */
    method ClosesNow() returns (ends: bool)
      ensures ends == WriteCloses(State().up)
    {
      ends := component.writeCloseFuture;
      if ends {
        var queued := component.cache.HasQueuedData();
        ends := !queued;
      }
    }

    method FinishWrite()
      modifies `writing, `wdata, `wack, `written
      ensures State() == SLate(old(State())) && !writing
    {
      writing, wdata, wack, written := false, [], 0, written + wdata;
    }

    /** A write to the target completed: a deferred close is due, or an acknowledgement. */
    method OutWritten() returns (ends: bool)
      requires Valid() && listed && status == Forward && writing
      modifies this, component
      ensures Valid() && State() == SWriteDone(old(State()))
      ensures ends == !listed == WriteCloses(old(State()).up)
    {
      ends := ClosesNow();
      FinishWrite();
      if ends {
        status, ended, listed := Destroyed, PeerClosed, false;
      } else {
        component.isAsyncWriting := false;
      }
    }

    /** The same of a session off the list, destroyed or not. */
    method OutWrittenLate() returns (ends: bool)
      requires Valid() && !listed && writing
      modifies this, component
      ensures Valid() && !listed && ends == WriteCloses(old(State()).up)
      ensures status == if ends then Destroyed else old(status)
      ensures State() == if ends then SStrayEnd(SLate(old(State()))) else SLate(old(State()))
    {
      ends := ClosesNow();
      FinishWrite();
      if ends {
        status := Destroyed;
      } else {
        component.isAsyncWriting := false;
      }
    }

    /** `destroy`, on a failure or because the pipeline says so. */
    method Fail()
      requires Valid()
      modifies this
      ensures Valid() && status == Destroyed && !listed
      ensures State() ==
        if old(listed) then SEnd(old(State()), Failed)
        else if old(status) == Destroyed then old(State()) else SStrayEnd(old(State()))
    {
      if status != Destroyed {
        status := Destroyed;
        ended, listed := if listed then Failed else ended, false;
      }
    }

    /** Another session under its id had it erased from the list; nothing tells this one. */
    ghost method Erase()
      requires Valid() && listed
      modifies this`listed, this`ended
      ensures Valid() && !listed && State() == SErased(old(State()))
    {
      listed, ended := false, Erased;
    }
  }

  // ---- the table ----

  /** Erasing one of distinct elements. */
  lemma RemovedAt<T>(xs: seq<T>, i: nat)
    requires i < |xs| && forall j, k :: 0 <= j < k < |xs| ==> xs[j] != xs[k]
    ensures forall x :: x in xs[..i] + xs[i + 1..] <==> x in xs && x != xs[i]
  {
  }

  /** What a frame does to the sessions a server has, by their ids. */
  function Served(cfg: Config, m: map<u16, Server>, f: Frame): (r: map<u16, Server>) {
    match f
    case Connect(id) => m[id := SOnConnect(cfg)]
    case Data(id, d) => if id in m then m[id := SOnData(cfg, m[id], d)] else m
    case Ack(id, n) => if id in m then m[id := SOnAck(m[id], n)] else m
    case Close(id) =>
      if id !in m then m
      else if SOnClose(m[id]).phase == SClosed then m - {id}
      else m[id := SOnClose(m[id])]
    case Icmp(_) => m
  }

  function ServedAll(cfg: Config, m: map<u16, Server>, fs: seq<Frame>): (r: map<u16, Server>)
    decreases |fs|
  {
    if fs == [] then m else ServedAll(cfg, Served(cfg, m, fs[0]), fs[1..])
  }

  /** A frame that is no request for UDP, which is not modelled: only the first frame of a session is a
      request, later ones are taken as they come. */
  predicate TcpOnly(cfg: Config, m: map<u16, Server>, f: Frame) {
    f.Data? && f.id in m && m[f.id].phase == SHandshake ==> !OpensUdp(f.payload, cfg.known)
  }

  predicate TcpOnlyAll(cfg: Config, m: map<u16, Server>, fs: seq<Frame>)
    decreases |fs|
  {
    fs != [] ==> TcpOnly(cfg, m, fs[0]) && TcpOnlyAll(cfg, Served(cfg, m, fs[0]), fs[1..])
  }

  /** The server sessions alive in the lines of the protocol. */
  function Living(t: Lines): (m: map<u16, Server>) {
    map id | id in t && AliveAt(t[id]) < |t[id]| :: t[id][AliveAt(t[id])].s
  }

  lemma ConnectLives(cfg: Config, id: u16, l: seq<Pair>, a: Air)
    requires LineOk(cfg, id, l, a) && a.up != [] && a.up[0] == Connect(id)
    ensures LivingIn(ServeLine(cfg, l, a.up[0])) == Some(SOnConnect(cfg))
  {
    hide LineOk, AliveAt, NewAt;
    EvictLine(cfg, id, l, a);
    var e := Evicted(l);
    StartLine(cfg, id, e, a);
    var k := NewAt(e);
    var r := e[k := e[k].(s := SOnConnect(cfg))];
    assert SAlive(r[k].s);
    assert forall i :: 0 <= i < k ==> r[i] == e[i] && !SAlive(e[i].s);
    assert AliveAt(r) == k;
  }

  lemma SameNew(l: seq<Pair>, r: seq<Pair>, j: nat)
    requires j < |l| == |r| && r == l[j := r[j]] && l[j].s.phase != SNone && r[j].s.phase != SNone
    ensures NewAt(r) == NewAt(l)
  {
    hide NewAt;
    var k, m := NewAt(l), NewAt(r);
    assert k < |l| ==> r[k] == l[k];
    assert m < |l| ==> r[m] == l[m];
  }

  lemma FrameLives(cfg: Config, id: u16, l: seq<Pair>, a: Air)
    requires LineOk(cfg, id, l, a) && a.up != [] && Mine(id, a.up[0]) && !a.up[0].Connect? && Loaded(a.up)
    ensures LivingIn(ServeLine(cfg, l, a.up[0])) ==
      if LivingIn(l).None? then None
      else var s := OnServer(cfg, LivingIn(l).value, a.up[0]); if s.phase == SClosed then None else Some(s)
  {
    hide LineOk, AliveAt, NewAt;
    var f, j := a.up[0], AliveAt(l);
    FrameLine(cfg, id, l, a);
    var r := ServeLine(cfg, l, f);
    if j < |l| {
      OnServerPhase(cfg, l[j].s, f);
      Standing(cfg, id, l, a);
      Standing(cfg, id, r, PopUp(a));
      assert r[j].s == OnServer(cfg, l[j].s, f);
      if SAlive(r[j].s) {
        NoneElse(cfg, id, r, PopUp(a), j);
      } else {
        assert NewAt(r) == NewAt(l) by { SameNew(l, r, j); }
      }
    }
  }

  lemma LivingUpdate(t: Lines, id: u16, l: seq<Pair>)
    ensures id in Living(t) <==> LivingIn(Of(t, id)).Some?
    ensures id in Living(t) ==> Living(t)[id] == LivingIn(Of(t, id)).value
    ensures Living(t[id := l]) == if LivingIn(l).None? then Living(t) - {id} else Living(t)[id := LivingIn(l).value]
  {
    hide AliveAt;
  }

  lemma OnlyClosesEnd(cfg: Config, s: Server, f: Frame)
    requires SAlive(s)
    ensures !f.Close? ==> OnServer(cfg, s, f).phase != SClosed
  {
  }

  /** The list of a server and the lines of the protocol take a frame alike. */
  lemma ServesTheLines(cfg: Config, t: Lines, a: Air)
    requires Core(cfg, t, a) && a.up != []
    ensures Living(Serve(cfg, t, a.up[0])) == Served(cfg, Living(t), a.up[0])
  {
    hide LineOk, Living, LivingIn, ServeLine, SOnData, SOnAck, SOnClose, SOnConnect;
    var f := a.up[0];
    if !f.Icmp? {
      var l := Of(t, f.id);
      assert LineOk(cfg, f.id, l, a);
      LivingUpdate(t, f.id, ServeLine(cfg, l, f));
      if f.Connect? {
        ConnectLives(cfg, f.id, l, a);
      } else {
        FrameLives(cfg, f.id, l, a);
        if LivingIn(l).Some? {
          Lives(l);
          OnlyClosesEnd(cfg, LivingIn(l).value, f);
        } else {
          assert Living(t) - {f.id} == Living(t);
        }
      }
    }
  }

  lemma {:induction false} ServesTheLinesAll(cfg: Config, t: Lines, a: Air, fs: seq<Frame>, rest: seq<Frame>)
    requires Core(cfg, t, a) && a.up == fs + rest
    ensures Living(ServeAll(cfg, t, fs)) == ServedAll(cfg, Living(t), fs)
    decreases |fs|
  {
    hide Core, Serve, Served, Living;
    if fs != [] {
      ServesTheLines(cfg, t, a);
      ServeStep(cfg, t, a);
      assert a.up[0] == fs[0] && a.up[1..] == fs[1..] + rest;
      ServesTheLinesAll(cfg, Serve(cfg, t, fs[0]), PopUp(a), fs[1..], rest);
    }
  }

  /** What the server's list is after a read is what the protocol says: the server sessions that live
      among the lines of all sessions. */
  lemma ListRefinesLines(y: P.Sys)
    requires P.Inv(y) && y.up.streaming && y.up.cache.connected
    ensures Living(P.ServeBuffer(y).lines) == ServedAll(y.cfg, Living(y.lines), Drain(y.up.rbuf).frames)
  {
    hide Drain, Core, ServedAll, ServeAll, Living, P.PipeOk, P.Flying, P.Handlers;
    P.DrainPipe(y.pw, y.up);
    var q := y.up.(rbuf := Drain(y.up.rbuf).rest);
    ServesTheLinesAll(y.cfg, y.lines, P.AirOf(y), Drain(y.up.rbuf).frames, P.Flying(y.pw, q));
  }

  class PipelineSession {
    const cfg: Config
    const cache: SendDataCache
    const inReadBuf: StreamBuf
    const password: bytes
    var streaming: bool                     // past the password
    var sessions: seq<ServerSession>
    var destroyed: bool
    var started: map<u16, nat>              // how many sessions were started under an id, to tell them apart
    var all: set<ServerSession>             // every session ever started here, which callbacks still hold
    ghost var table: map<u16, Server>       // the sessions listed, by their ids

    /** The sessions do not share their parts. */
    ghost predicate Apart()
      reads this`all
    {
      forall s, r :: s in all && r in all && s != r ==>
        s.component != r.component && s.component.cache != r.component.cache
    }

    /** The sessions listed, whose ids are distinct; each of them lives. */
    ghost predicate Exact()
      reads this`sessions, this`all, this`destroyed, all
    {
      && (forall s :: s in sessions ==> s in all)
      && (forall s :: s in all ==> (s in sessions <==> s.listed))
      && (forall s, r :: s in sessions && r in sessions && s != r ==> s.id != r.id)
      && (forall i, j :: 0 <= i < j < |sessions| ==> sessions[i] != sessions[j])
      && (destroyed ==> sessions == [])
    }

    ghost predicate Sane(s: ServerSession)
      reads s, s.component, s.component.cache
    {
      s.cfg == cfg && s.Valid()
    }

    ghost predicate Tabled()
      reads this`sessions, this`all, this`table
      reads all, set s | s in all :: s.component, set s | s in all :: s.component.cache
    {
      && (forall s :: s in all ==> Sane(s))
      && (forall s :: s in sessions ==> s in all && s.id in table && table[s.id] == s.State())
      && (forall id :: id in table ==> exists s :: s in sessions && s.id == id)
    }

    /** Id and number together name one session. */
    ghost predicate Numbered()
      reads this`all, this`started
    {
      && (forall s :: s in all ==> s.id in started && s.opening < started[s.id])
      && (forall s, r :: s in all && r in all && s != r && s.id == r.id ==> s.opening != r.opening)
    }

    ghost predicate Valid()
      reads this`sessions, this`all, this`table, this`destroyed, this`started, cache
      reads all, set s | s in all :: s.component, set s | s in all :: s.component.cache
    {
      cache.Valid() && cache.destroyed == destroyed && Apart() && Numbered() && Exact() && Tabled()
    }

    twostate predicate NewParts(new s: ServerSession)
    {
      fresh(s) && fresh(s.component) && fresh(s.component.cache)
    }

    twostate predicate OnlyChanged(new s: ServerSession)
      reads this`all, all, set s | s in all :: s.component, set s | s in all :: s.component.cache
    {
      forall r :: r in old(all) && r != s ==>
        r in all && unchanged(r) && unchanged(r.component) && unchanged(r.component.cache)
    }

    /** Where one listed session changed and lives on, and its entry with it. */
    twostate lemma Updated(i: nat)
      requires old(Exact()) && old(Tabled()) && sessions == old(sessions) && all == old(all)
      requires destroyed == old(destroyed)
      requires i < |sessions| && OnlyChanged(sessions[i])
      requires Sane(sessions[i]) && sessions[i].listed
      requires table == old(table)[sessions[i].id := sessions[i].State()]
      ensures Exact() && Tabled()
    {
      hide ServerSession.State, ServerSession.Valid;
      forall s | s in sessions
        ensures s.id in table && table[s.id] == s.State()
      {
        assert s != sessions[i] ==> s.id != sessions[i].id && unchanged(s);
      }
    }

    constructor (cfg: Config, password: bytes)
      ensures Valid() && table == map[] && !destroyed && all == {} && !streaming
      ensures this.cfg == cfg && this.password == password
      ensures fresh(cache) && cache.State() == Empty(true) && fresh(inReadBuf) && inReadBuf.data == []
    {
      this.cfg, this.password, streaming := cfg, password, false;
      cache := new SendDataCache(true);
      inReadBuf := new StreamBuf();
      sessions, destroyed, started, all, table := [], false, map[], {}, map[];
    }

    /** `find_and_process_session`: the listed session of that id, which lives. */
    method Find(id: u16) returns (found: bool, i: nat)
      requires Exact() && Tabled()
      ensures found <==> id in table
      ensures found ==> i < |sessions| && sessions[i].id == id && Listed(i) && !destroyed
    {
      hide ServerSession.State, ServerSession.Valid;
      i := 0;
      while i < |sessions|
        invariant 0 <= i <= |sessions| && forall j :: 0 <= j < i ==> sessions[j].id != id
      {
        if sessions[i].id == id {
          sessions[i].Lives();
          return true, i;
        }
        i := i + 1;
      }
      return false, 0;
    }

    /** What holds of a listed session. */
    ghost predicate Listed(i: nat)
      reads this`sessions, this`all, this`table
      reads all, set s | s in all :: s.component, set s | s in all :: s.component.cache
    {
      && i < |sessions| && sessions[i] in all && Sane(sessions[i])
      && sessions[i].listed && sessions[i].status != Destroyed
      && sessions[i].id in table && table[sessions[i].id] == sessions[i].State()
    }

    method RecvData(id: u16, data: bytes)
      requires Valid() && TcpOnly(cfg, table, Data(id, data))
      modifies this`table
      modifies all, set s | s in all :: s.component, set s | s in all :: s.component.cache
      ensures Valid() && table == Served(cfg, old(table), Data(id, data))
    {
      hide SOnData, OpensUdp, Sound, ServerSession.State, ServerSession.Valid, Exact, Tabled, Numbered;
      var found, i := Find(id);
      if found {
        sessions[i].PhaseIs();
        sessions[i].RecvData(data);
        table := table[id := sessions[i].State()];
        Updated(i);
      }
    }

    method RecvAck(id: u16, count: u16)
      requires Valid()
      modifies this`table
      modifies all, set s | s in all :: s.component, set s | s in all :: s.component.cache
      ensures Valid() && table == Served(cfg, old(table), Ack(id, count))
    {
      hide SOnAck, Sound, ServerSession.State, ServerSession.Valid, Exact, Tabled, Numbered;
      var found, i := Find(id);
      if found {
        sessions[i].RecvAck(count);
        table := table[id := sessions[i].State()];
        Updated(i);
      }
    }

    /** Where a listed session ended, and left the list and the table. */
    twostate lemma Dropped(i: nat)
      requires old(Exact()) && old(Tabled()) && all == old(all) && destroyed == old(destroyed)
      requires i < old(|sessions|) && OnlyChanged(old(sessions[i]))
      requires Sane(old(sessions[i])) && !old(sessions[i]).listed
      requires sessions == old(sessions)[..i] + old(sessions)[i + 1..]
      requires table == old(table) - {old(sessions[i]).id}
      ensures Exact() && Tabled()
    {
      hide Exact, Tabled;
      DroppedExact(i);
      DroppedTabled(i);
    }

    twostate lemma DroppedExact(i: nat)
      requires old(Exact()) && all == old(all) && destroyed == old(destroyed)
      requires i < old(|sessions|) && OnlyChanged(old(sessions[i])) && !old(sessions[i]).listed
      requires sessions == old(sessions)[..i] + old(sessions)[i + 1..]
      ensures Exact()
    {
      var was := old(sessions);
      RemovedAt(was, i);
      forall s | s in all
        ensures s in sessions <==> s.listed
      {
        assert s != was[i] ==> unchanged(s);
      }
    }

    twostate lemma DroppedTabled(i: nat)
      requires old(Exact()) && old(Tabled()) && all == old(all)
      requires i < old(|sessions|) && OnlyChanged(old(sessions[i])) && Sane(old(sessions[i]))
      requires sessions == old(sessions)[..i] + old(sessions)[i + 1..]
      requires table == old(table) - {old(sessions[i]).id}
      ensures Tabled()
    {
      hide ServerSession.State, ServerSession.Valid;
      var was := old(sessions);
      RemovedAt(was, i);
      forall s | s in sessions
        ensures s in all && s.id in table && table[s.id] == s.State()
      {
        assert s.id != was[i].id && unchanged(s);
      }
    }

    /** A CLOSE frame; the session may stay until its bytes are written. */
    method RecvClose(id: u16)
      requires Valid()
      modifies this`table, this`sessions
      modifies all, set s | s in all :: s.component, set s | s in all :: s.component.cache
      ensures Valid() && table == Served(cfg, old(table), Close(id))
    {
      hide SOnClose, Sound, ServerSession.State, ServerSession.Valid, Exact, Tabled, Numbered;
      var found, i := Find(id);
      if found {
        var s := sessions[i];
        var gone := s.RecvClose();
        if gone {
          sessions := sessions[..i] + sessions[i + 1..];
          table := table - {id};
          Dropped(i);
        } else {
          table := table[id := s.State()];
          Updated(i);
        }
      }
    }

    /** Where a session was started under an id not listed. */
    twostate lemma Added(new s: ServerSession)
      requires old(Exact()) && old(Tabled()) && destroyed == old(destroyed) && !destroyed
      requires s.id !in old(table) && s !in old(all) && all == old(all) + {s} && OnlyChanged(s)
      requires Sane(s) && s.listed
      requires sessions == old(sessions) + [s] && table == old(table)[s.id := s.State()]
      ensures Exact() && Tabled()
    {
      hide ServerSession.State, ServerSession.Valid;
      var was := old(sessions);
      assert forall r :: r in sessions <==> r in was || r == s;
      assert s in sessions;
      forall r | r in was
        ensures unchanged(r) && r.id != s.id && unchanged(r.component) && unchanged(r.component.cache)
      {
      }
      forall id | id in table
        ensures exists r :: r in sessions && r.id == id
      {
        if id != s.id {
          var r :| r in was && r.id == id;
          assert r in sessions;
        }
      }
    }

    twostate lemma AddedNumbered(new s: ServerSession)
      requires old(Numbered()) && all == old(all) + {s} && started == old(started)[s.id := s.opening + 1]
      requires s.opening == if s.id in old(started) then old(started)[s.id] else 0
      ensures Numbered()
    {
    }

    /** A CONNECT frame: the session that holds the id, if any, is destroyed and replaced. */
    method RecvConnect(id: u16)
      requires Valid() && !destroyed
      modifies this`table, this`sessions, this`all, this`started
      modifies all, set s | s in all :: s.component, set s | s in all :: s.component.cache
      ensures Valid() && table == Served(cfg, old(table), Connect(id))
      ensures forall s :: s in old(all) ==> s in all
      ensures forall s :: s in all ==> s in old(all) || NewParts(s)
      ensures forall s :: s in old(all) && s.id == id ==> !s.listed
      ensures forall s :: s in old(all) && s.id == id && old(s.listed) ==> s.State() == SEnd(old(s.State()), Failed)
    {
      hide Sound, ServerSession.State, ServerSession.Valid, Exact, Tabled, Numbered;
      Evict(id);
      StartSession(id);
    }

    method Evict(id: u16)
      requires Valid()
      modifies this`table, this`sessions
      modifies all, set s | s in all :: s.component, set s | s in all :: s.component.cache
      ensures Valid() && table == old(table) - {id}
      ensures forall s :: s in all && s.id == id ==> !s.listed
      ensures forall s :: s in all && s.id == id && old(s.listed) ==> s.State() == SEnd(old(s.State()), Failed)
    {
      hide Sound, ServerSession.State, ServerSession.Valid, Exact, Tabled, Numbered;
      var found, i := Find(id);
      if found {
        sessions[i].Fail();
        sessions := sessions[..i] + sessions[i + 1..];
        table := table - {id};
        Dropped(i);
      }
      NoneListed(id);
    }

    method StartSession(id: u16)
      requires Valid() && !destroyed && id !in table
      modifies this`table, this`sessions, this`all, this`started
      ensures Valid() && table == old(table)[id := SOnConnect(cfg)]
      ensures forall s :: s in old(all) ==> s in all
      ensures forall s :: s in all ==> s in old(all) || NewParts(s)
    {
      hide Sound, ServerSession.State, ServerSession.Valid, Exact, Tabled, Numbered;
      var n := if id in started then started[id] else 0;
      var s := new ServerSession(id, n, cfg);
      started := started[id := n + 1];
      sessions := sessions + [s];
      all := all + {s};
      table := table[id := s.State()];
      Added(s);
      AddedNumbered(s);
    }

    lemma NoneListed(id: u16)
      requires Exact() && Tabled() && id !in table
      ensures forall s :: s in all && s.id == id ==> !s.listed
    {
    }

    method Dispatch(f: Frame)
      requires Valid() && !destroyed && TcpOnly(cfg, table, f)
      modifies this`table, this`sessions, this`all, this`started
      modifies all, set s | s in all :: s.component, set s | s in all :: s.component.cache
      ensures Valid() && table == Served(cfg, old(table), f)
      ensures forall s :: s in old(all) ==> s in all
      ensures forall s :: s in all ==> s in old(all) || NewParts(s)
    {
      hide Sound, ServerSession.State, ServerSession.Valid, Exact, Tabled, Numbered, TcpOnly;
      match f
      case Connect(id) => RecvConnect(id);
      case Data(id, data) => RecvData(id, data);
      case Ack(id, count) => RecvAck(id, count);
      case Close(id) => RecvClose(id);
      case Icmp(_) =>
    }

    /** Parse and dispatch until the buffer runs short; a format error destroys the pipeline. */
    method ProcessStreamingData()
      requires Valid() && !destroyed && TcpOnlyAll(cfg, table, Drain(inReadBuf.data).frames)
      modifies this`table, this`sessions, this`all, this`started, this`destroyed, inReadBuf, cache
      modifies all, set s | s in all :: s.component, set s | s in all :: s.component.cache
      ensures Valid()
      ensures var d := Drain(old(inReadBuf.data));
        && inReadBuf.data == d.rest && destroyed == !d.ok
        && table == if d.ok then ServedAll(cfg, old(table), d.frames) else map[]
    {
      hide Sound, ServerSession.State, ServerSession.Valid, Exact, Tabled, Numbered, ParseFrame, Served, TcpOnly;
      NextEmpty();
      ghost var d := Drain(inReadBuf.data);
      while |inReadBuf.data| != 0
        invariant Valid() && !destroyed
        invariant forall s :: s in all ==> s in old(all) || NewParts(s)
        invariant Drain(inReadBuf.data).rest == d.rest && Drain(inReadBuf.data).ok == d.ok
        invariant TcpOnlyAll(cfg, table, Drain(inReadBuf.data).frames)
        invariant ServedAll(cfg, table, Drain(inReadBuf.data).frames) == ServedAll(cfg, old(table), d.frames)
        decreases |inReadBuf.data|
      {
        var req := new PipelineRequest();
        var ret := req.Parse(inReadBuf.data);
        if ret == -1 {
          break;
        }
        if ret == -2 {
          Destroy();
          break;
        }
        ghost var fs := Drain(inReadBuf.data).frames;
        var f := ParseFrame(inReadBuf.data).frame;
        assert fs[0] == f;
        Dispatch(f);
        inReadBuf.Consume(req.consumeLength);
        assert fs[1..] == Drain(inReadBuf.data).frames;
      }
    }

    /** One read is in the buffer: the password line first, frames from then on. A wrong or overlong
        line gives the connection up to a plain session. */
    method InRecv()
      requires Valid() && !destroyed
      requires TcpOnlyAll(cfg, table, Drain(Past(inReadBuf.data)).frames)
      modifies this`table, this`sessions, this`all, this`started, this`destroyed, this`streaming, inReadBuf, cache
      modifies all, set s | s in all :: s.component, set s | s in all :: s.component.cache
      ensures Valid()
      ensures streaming == (old(streaming) || HasLine(old(inReadBuf.data)))
      ensures !streaming ==> table == (if destroyed then map[] else old(table)) && inReadBuf.data == old(inReadBuf.data)
      ensures !streaming ==>
        (destroyed <==> FindCrlf(inReadBuf.data).Some? || |inReadBuf.data| >= P.MAX_PASSWORD_LENGTH)
      ensures streaming ==>
        var d := Drain(old(Past(inReadBuf.data)));
        && inReadBuf.data == d.rest && destroyed == !d.ok
        && table == if d.ok then ServedAll(cfg, old(table), d.frames) else map[]
    {
      hide Sound, ServerSession.State, ServerSession.Valid, Exact, Tabled, Numbered;
      hide Drain, ServedAll, TcpOnlyAll, FindCrlf;
      if !streaming {
        var npos := FindCrlf(inReadBuf.data);
        if npos.None? {
          if |inReadBuf.data| >= P.MAX_PASSWORD_LENGTH {
            Destroy();
          }
          return;
        }
        if inReadBuf.data[..npos.value] != password {
          Destroy();
          return;
        }
        streaming := true;
        inReadBuf.Consume(npos.value + 2);
      }
      ProcessStreamingData();
    }

    predicate HasLine(s: bytes) {
      FindCrlf(s).Some? && s[..FindCrlf(s).value] == password
    }

    /** The part of the buffer that holds frames. */
    function Past(s: bytes): (r: bytes)
      reads this
    {
      if !streaming && HasLine(s) then s[FindCrlf(s).value + 2..] else s
    }

    // ---- what sessions do by themselves ----

    /** `in_send`, once the session is found. */
    method InSend(f: Frame, h: Handler)
      requires cache.Valid() && !cache.destroyed && Legal(f)
      modifies cache
      ensures cache.Valid() && !cache.destroyed && cache.State() == Kick(Queued(old(cache.State()), Encode(f), h))
    {
      cache.PushData(Encode(f), h);
    }

    /** Searching by the id of a listed session finds that session. */
    method Place(s: ServerSession) returns (i: nat)
      requires Exact() && Tabled() && s in all && s.listed
      ensures i < |sessions| && sessions[i] == s && Listed(i) && !destroyed
    {
      hide ServerSession.State, ServerSession.Valid;
      var found;
      found, i := Find(s.id);
    }

    /** What is known of any session, and of one off the list whose id is listed. */
    lemma Known(s: ServerSession)
      requires Exact() && Tabled() && s in all
      ensures Sane(s)
      ensures !s.listed && s.id in table ==> !destroyed && exists r :: r in sessions && r.id == s.id && r != s
    {
      hide ServerSession.State, ServerSession.Valid;
    }

    /** Where a session off the list changed. */
    twostate lemma Aside(s: ServerSession)
      requires old(Exact()) && old(Tabled()) && unchanged(this) && s in all && OnlyChanged(s)
      requires Sane(s) && !s.listed && !old(s.listed)
      ensures Exact() && Tabled()
    {
      hide ServerSession.State, ServerSession.Valid;
    }

    /** `remove_session_after_destroy`: the listed session of that id, whichever it is, leaves the list and
        its client is told to close. If it lives, it lives on, and nothing tells it. */
    method RemoveAfterDestroy(id: u16) returns (ghost r: ServerSession?)
      requires Valid()
      modifies this`table, this`sessions, cache, all
      ensures Valid() && table == old(table) - {id} && destroyed == old(destroyed) && (r == null <==> id !in old(table))
      ensures r == null ==> sessions == old(sessions) && cache.State() == old(cache.State()) && OnlyOther(r)
      ensures r != null ==>
        && r in all && r.id == id && old(r.listed) && r.State() == SErased(old(r.State())) && OnlyOther(r)
        && r.status == old(r.status) != Destroyed && !r.listed
        && cache.State() == Kick(Queued(old(cache.State()), Encode(Close(id)), Ignored))
    {
      hide Sound, ServerSession.State, ServerSession.Valid, Exact, Tabled, Numbered, Kick, Encode, SErased;
      var found, i := Find(id);
      r := null;
      if found {
        r := sessions[i];
        sessions[i].Erase();
        sessions := sessions[..i] + sessions[i + 1..];
        table := table - {id};
        Dropped(i);
        InSend(Close(id), Ignored);
      }
    }

    /** No session but one changed what it is. */
    twostate predicate OnlyOther(s: ServerSession?)
      reads this`all, all
    {
      forall r :: r in old(all) && r != s ==> r in all && unchanged(r)
    }

    /** A session that lives off the list destroys itself, and takes the session that holds its id off the
        list: this is where a former session erases its replacement. */
    method StrayEnds(s: ServerSession)
      requires Valid() && s in all && !s.listed
      modifies this`table, this`sessions, cache, all
      ensures Valid() && s.status == Destroyed && !s.listed
      ensures old(s.status) == Destroyed ==> table == old(table) && cache.State() == old(cache.State())
      ensures old(s.status) != Destroyed ==>
        && table == old(table) - {s.id} && s.State() == SStrayEnd(old(s.State()))
        && cache.State() == if s.id in old(table) then Kick(Queued(old(cache.State()), Encode(Close(s.id)), Ignored))
                            else old(cache.State())
      ensures forall t :: t in all && t != s ==> t.status == old(t.status)
      ensures forall t :: t in all && t != s ==>
        (t.listed <==> old(t.listed) && (t.id != s.id || old(s.status) == Destroyed))
    {
      hide Sound, ServerSession.State, ServerSession.Valid, Exact, Tabled, Numbered, Kick, Encode, SErased, SStrayEnd;
      Known(s);
      if s.status == Destroyed {
        return;
      }
      s.Fail();
      Aside(s);
      ghost var r := RemoveAfterDestroy(s.id);
      NoneListed(s.id);
    }

    /** A listed session fails and destroys itself. */
    method SessionFails(s: ServerSession)
      requires Valid() && s in all && s.listed
      modifies this`table, this`sessions, cache, all
      ensures Valid() && s.status == Destroyed && s.State() == SEnd(old(s.State()), Failed)
      ensures table == old(table) - {s.id} && forall r :: r in all && r != s ==> unchanged(r)
      ensures cache.State() == Kick(Queued(old(cache.State()), Encode(Close(s.id)), Ignored))
    {
      hide Sound, ServerSession.State, ServerSession.Valid, Exact, Tabled, Numbered, Kick, Encode, SEnd;
      var i := Place(s);
      s.Fail();
      sessions := sessions[..i] + sessions[i + 1..];
      table := table - {s.id};
      Dropped(i);
      InSend(Close(s.id), Ignored);
    }

    /** Bytes read from a target leave as a DATA frame. */
    method SessionRead(s: ServerSession, data: bytes)
      requires Valid() && s in all && s.listed && s.status == Forward && Legal(Data(s.id, data))
      modifies this`table, cache
      modifies all, set s | s in all :: s.component, set s | s in all :: s.component.cache
      ensures Valid() && s.id in old(table) && table == old(table)[s.id := SRead(old(table[s.id]), data)]
      ensures cache.State() == Kick(Queued(old(cache.State()), Encode(Data(s.id, data)), DataSent(s.id, s.opening)))
    {
      hide Sound, ServerSession.State, ServerSession.Valid, Exact, Tabled, Numbered, SRead, Kick, Encode, Legal;
      var i := Place(s);
      s.OutReadDone(data);
      table := table[s.id := s.State()];
      Updated(i);
      InSend(Data(s.id, data), DataSent(s.id, s.opening));
    }

    /** A write to a target completed and a deferred close is due: the session ends with a CLOSE frame. */
    method SessionWrittenLast(s: ServerSession)
      requires Valid() && s in all && s.listed && s.status == Forward && s.writing && WriteCloses(s.State().up)
      modifies this`table, this`sessions, cache
      modifies all, set s | s in all :: s.component, set s | s in all :: s.component.cache
      ensures Valid() && table == old(table) - {s.id} && s.State() == SWriteDone(old(s.State()))
      ensures cache.State() == Kick(Queued(old(cache.State()), Encode(Close(s.id)), Ignored))
    {
      hide Sound, ServerSession.State, ServerSession.Valid, Exact, Tabled, Numbered;
      hide SWriteDone, Kick, Encode, WriteCloses;
      var i := Place(s);
      var ends := s.OutWritten();
      sessions := sessions[..i] + sessions[i + 1..];
      table := table - {s.id};
      Dropped(i);
      InSend(Close(s.id), Ignored);
    }

    /** Otherwise an ACK frame leaves. */
    method SessionWritten(s: ServerSession)
      requires Valid() && s in all && s.listed && s.status == Forward && s.writing && !WriteCloses(s.State().up)
      modifies this`table, cache
      modifies all, set s | s in all :: s.component, set s | s in all :: s.component.cache
      ensures Valid() && s.id in old(table) && table == old(table)[s.id := SWriteDone(old(table[s.id]))]
      ensures cache.State() ==
        Kick(Queued(old(cache.State()), Encode(Ack(s.id, old(s.wack) % 0x1_0000)), AckSent(s.id, s.opening)))
    {
      hide Sound, ServerSession.State, ServerSession.Valid, Exact, Tabled, Numbered;
      hide SWriteDone, Kick, Encode, WriteCloses;
      var i := Place(s);
      var count := s.wack % 0x1_0000;
      var ends := s.OutWritten();
      table := table[s.id := s.State()];
      Updated(i);
      InSend(Ack(s.id, count), AckSent(s.id, s.opening));
    }

    // ---- and what they do off the list ----

    /** A connect completes after its session has left the list: it forwards all the same. */
    method StaleConnected(s: ServerSession)
      requires Valid() && s in all && !s.listed && s.connecting
      modifies s, s.component, s.component.cache
      ensures Valid() && table == old(table) && sessions == old(sessions)
      ensures s.status == Forward && !s.listed && s.State() == SRevived(old(s.State()))
    {
      hide Sound, ServerSession.State, ServerSession.Valid, Exact, Tabled, Numbered, SRevived;
      Known(s);
      s.OnConnected();
      Aside(s);
    }

    /** Or it fails, and the session, destroyed before, stays so. */
    ghost method StaleConnectFailed(s: ServerSession)
      requires Valid() && s in all && !s.listed && s.connecting && s.status == Destroyed
      modifies s
      ensures Valid() && table == old(table) && sessions == old(sessions)
      ensures s.status == Destroyed && !s.connecting && !s.listed && s.State() == SGone(old(s.State()))
    {
      hide Sound, ServerSession.State, ServerSession.Valid, Exact, Tabled, Numbered;
      Known(s);
      s.ConnectFailed();
      Aside(s);
    }

    /** A frame of a session off the list leaves under its id if another session holds it; else the session
        is destroyed. */
    method SendOrEnd(s: ServerSession, f: Frame, h: Handler)
      requires Valid() && s in all && !s.listed && Legal(f)
      modifies cache, s
      ensures Valid() && table == old(table) && sessions == old(sessions) && !s.listed
      ensures s.State() ==
        if s.id in table || old(s.status) == Destroyed then old(s.State()) else SStrayEnd(old(s.State()))
      ensures cache.State() ==
        if s.id in table then Kick(Queued(old(cache.State()), Encode(f), h)) else old(cache.State())
    {
      hide Sound, ServerSession.State, ServerSession.Valid, Exact, Tabled, Numbered, Kick, Encode, SStrayEnd, Legal;
      Known(s);
      var found, i := Find(s.id);
      if found {
        InSend(f, h);
      } else {
        s.Fail();
        Aside(s);
      }
    }

    /** Bytes a session off the list reads go to the session that holds its id. */
    method StrayRead(s: ServerSession, data: bytes)
      requires Valid() && s in all && !s.listed && s.status == Forward && Legal(Data(s.id, data))
      modifies cache, s
      ensures Valid() && table == old(table) && sessions == old(sessions)
      ensures s.State() == if s.id in table then SStrayRead(old(s.State())) else SGone(SStrayRead(old(s.State())))
      ensures cache.State() ==
        if s.id in table then Kick(Queued(old(cache.State()), Encode(Data(s.id, data)), DataSent(s.id, s.opening)))
        else old(cache.State())
    {
      hide Sound, ServerSession.Valid, Exact, Tabled, Numbered, Kick, Encode, Legal;
      Known(s);
      s.OutReadDone(data);
      Aside(s);
      SendOrEnd(s, Data(s.id, data), DataSent(s.id, s.opening));
    }

    /** A write of a session off the list completes. It is acknowledged if another session holds the id, and
        counts for that one; a stray ends if its close was deferred, or if none does. */
    method StaleWritten(s: ServerSession)
      requires Valid() && s in all && !s.listed && s.writing
      modifies this`table, this`sessions, cache, all, s.component
      ensures Valid()
      ensures var was, closes, ack := old(s.State()), WriteCloses(old(s.State()).up), Ack(s.id, old(s.wack) % 0x1_0000);
        && (closes && was.life == ForwardStray ==> table == old(table) - {s.id} && s.State() == SStrayEnd(SLate(was)))
        && (closes && was.life != ForwardStray ==>
              table == old(table) && s.State() == SLate(was) && cache.State() == old(cache.State()))
        && (!closes ==>
              && table == old(table) && s.State() == (if s.id in table then SLate(was) else SGone(SLate(was)))
              && cache.State() ==
                   if s.id in table then Kick(Queued(old(cache.State()), Encode(ack), AckSent(s.id, s.opening)))
                   else old(cache.State()))
    {
      hide Sound, ServerSession.Valid, Exact, Tabled, Numbered, Kick, Encode, WriteCloses;
      Known(s);
      s.Lives();
      var count, lived := s.wack % 0x1_0000, s.status != Destroyed;
      var ends := s.OutWrittenLate();
      Aside(s);
      if !ends {
        SendOrEnd(s, Ack(s.id, count), AckSent(s.id, s.opening));
      } else if lived {
        ghost var r := RemoveAfterDestroy(s.id);
      }
    }

    /** The target of a listed session is connected. */
    method SessionConnected(s: ServerSession)
      requires Valid() && s in all && s.listed && s.connecting
      modifies this`table, all, set s | s in all :: s.component, set s | s in all :: s.component.cache
      ensures Valid() && s.id in old(table) && table == old(table)[s.id := SConnected(old(table[s.id]))]
    {
      hide Sound, ServerSession.State, ServerSession.Valid, Exact, Tabled, Numbered, SConnected;
      var i := Place(s);
      s.OnConnected();
      table := table[s.id := s.State()];
      Updated(i);
    }

    // ---- the end of the pipeline ----

    /** The cache has a handler of this session. */
    predicate Awaited(s: ServerSession)
      reads cache
    {
      var hs := cache.handlerQueue + cache.handlerQueueOther;
      DataSent(s.id, s.opening) in hs || AckSent(s.id, s.opening) in hs
    }

    method FailThese(these: set<ServerSession>)
      requires these <= all && forall s :: s in all ==> Sane(s)
      modifies all
      ensures forall s :: s in all ==> Sane(s) && s.status == (if s in these then Destroyed else old(s.status))
      ensures forall s :: s in all ==> s.listed == (old(s.listed) && s !in these)
    {
      hide ServerSession.State, ServerSession.Valid;
      var rest := these;
      while rest != {}
        invariant rest <= these
        invariant forall s :: s in all ==>
          Sane(s) && s.status == (if s in these - rest then Destroyed else old(s.status))
        invariant forall s :: s in all ==> s.listed == (old(s.listed) && s !in these - rest)
      {
        var s :| s in rest;
        s.Fail();
        rest := rest - {s};
      }
    }

    lemma AllSane()
      requires Tabled()
      ensures forall s :: s in all ==> Sane(s)
    {
    }

    lemma EmptyTable()
      requires Tabled() && sessions == []
      ensures table == map[]
    {
    }

    lemma Emptied()
      requires sessions == [] && table == map[] && forall s :: s in all ==> Sane(s)
      ensures Tabled()
    {
    }

    /** Every listed session is destroyed, and every handler of the cache called, which destroys the session
        it belongs to. A stray that waits for no handler lives on. */
    method Destroy()
      requires Valid()
      modifies this`table, this`sessions, this`destroyed, cache, all
      ensures Valid() && destroyed && table == map[]
      ensures !old(destroyed) ==> forall s :: s in all ==>
        s.status == if old(s.listed) || old(Awaited(s)) then Destroyed else old(s.status)
      ensures cache.wire == old(cache.wire)
    {
      hide Sound, ServerSession.State, ServerSession.Valid, Interleave, Flatten, Permuted, Tabled, Numbered;
      if destroyed {
        EmptyTable();
        return;
      }
      AllSane();
      destroyed := true;
      var told := set s | s in all && (Awaited(s) || s in sessions);
      cache.Destroy(seq(|cache.handlerQueueOther| + |cache.handlerQueue|, i => []));
      FailThese(told);
      sessions, table := [], map[];
      Emptied();
    }

    // ---- a replacement erased ----

    /** A CONNECT replaces a session whose target is still being connected. */
    method ReplaceConnecting(s: ServerSession) returns (r: ServerSession)
      requires Valid() && !destroyed && s in all && s.listed && s.connecting
      modifies this`table, this`sessions, this`all, this`started
      modifies all, set s | s in all :: s.component, set s | s in all :: s.component.cache
      ensures Valid() && table == old(table)[s.id := SOnConnect(cfg)] && s in all && !s.listed && s.connecting
      ensures r in all && r.listed && r.id == s.id && r.status == Handshake
    {
      hide Sound, ServerSession.State, ServerSession.Valid, Exact, Tabled, Numbered;
      Known(s);
      s.Pending();
      RecvConnect(s.id);
      s.IsDue();
      var found, i := Find(s.id);
      r := sessions[i];
      r.PhaseIs();
    }

    /** In whatever state: the connect of a replaced session completes and the session fails. Then its
        replacement is off the list, alive, and the client of both is told to close. */
    method ErasesItsReplacement(s: ServerSession, r: ServerSession)
      requires Valid() && s in all && !s.listed && s.connecting
      requires r in all && r.listed && r.id == s.id
      modifies this`table, this`sessions, cache, all, s.component, s.component.cache
      ensures Valid() && table == old(table) - {s.id} && !r.listed && r.status == old(r.status)
      ensures cache.State() == Kick(Queued(old(cache.State()), Encode(Close(s.id)), Ignored))
    {
      hide Sound, ServerSession.State, ServerSession.Valid, Exact, Tabled, Numbered, Kick, Encode, SRevived, SStrayEnd;
      Elsewhere(r);
      StaleConnected(s);
      StrayEnds(s);
    }

    /** A listed session is found by its id. */
    lemma Elsewhere(s: ServerSession)
      requires Exact() && Tabled() && s in all && s.listed
      ensures s.id in table
    {
      hide ServerSession.State, ServerSession.Valid;
    }
  }
}
