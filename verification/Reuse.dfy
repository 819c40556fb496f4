/** A session id used again: what a former session under the id can still do to the new one, and when. */
module Reuse {
  import opened Bytes
  import opened Frames
  import opened SendCache
  import opened Trojan
  import opened Session
  import opened Flight
  import opened Protocol
  import opened Progress
  import opened Delivery
  import opened Runs

  /** A session whose write is in progress and will be acknowledged, whether the session lives or not. */
  predicate Owes(p: Pair) {
    p.s.up.writing && !WriteCloses(p.s.up) && p.s.up.wack % 0x1_0000 != 0
  }

  /** A session whose server session has sent nothing yet. */
  predicate Unserved(p: Pair) {
    p.s.phase == SNone || p.s.phase == SHandshake
  }

  // ---- what stays of a server session off the list ----

  /** Nothing is sent on behalf of others, nothing is erased, sessions forwarding go on or end for good, and
      those off the list stay as they are, but that strays forwarding may read or ask on. */
  predicate FrozenPair(p: Pair, q: Pair) {
    && q.foreign == p.foreign && q.alien == p.alien
    && (q.s.ended == Erased ==> p.s.ended == Erased)
    && (p.c.phase == CClosed ==> q.c.phase == CClosed && q.c.req == p.c.req)
    && (Unserved(q) ==> Unserved(p))
    && (p.s.phase == SForward ==> q.s.phase == SForward || (q.s.phase == SClosed && !CanReturn(q.s)))
    && (p.s.phase == SClosed ==>
          && q.s.phase == SClosed && q.s.life == p.s.life
          && (p.s.life != ForwardStray ==> q.s == p.s))
  }

  ghost predicate Frozen(l: seq<Pair>, m: seq<Pair>) {
    |l| == |m| && forall i :: 0 <= i < |l| ==> FrozenPair(l[i], m[i])
  }

  lemma {:induction false} FrozenOn(l: seq<Pair>, m: seq<Pair>, n: seq<Pair>)
    requires Frozen(l, m) && Frozen(m, n)
    ensures Frozen(l, n)
  {
  }

  lemma ServedFrozen(cfg: Config, p: Pair, f: Frame)
    requires SAlive(p.s)
    ensures FrozenPair(p, p.(s := OnServer(cfg, p.s, f)))
    ensures FrozenPair(p, p.(s := SEnd(p.s, Failed))) && SEnd(p.s, Failed).phase == SClosed
  {
  }

  lemma StartedFrozen(cfg: Config)
    ensures forall p: Pair :: p.s.phase == SNone ==> FrozenPair(p, p.(s := SOnConnect(cfg)))
  {
  }

  lemma ServeLineFrozen(cfg: Config, l: seq<Pair>, f: Frame)
    ensures Frozen(l, ServeLine(cfg, l, f))
  {
    hide AliveAt, NewAt, OnServer, SEnd, SOnConnect;
    var j := AliveAt(l);
    if j < |l| {
      ServedFrozen(cfg, l[j], f);
    }
    StartedFrozen(cfg);
  }

  lemma HearLineFrozen(l: seq<Pair>, f: Frame)
    ensures Frozen(l, HearLine(l, f))
  {
  }

  lemma {:induction false} ServeAllFrozen(cfg: Config, t: Lines, fs: seq<Frame>, id: u16)
    ensures Frozen(Of(t, id), Of(ServeAll(cfg, t, fs), id))
    decreases |fs|
  {
    hide ServeLine;
    if fs != [] {
      if !fs[0].Icmp? {
        ServeLineFrozen(cfg, Of(t, fs[0].id), fs[0]);
      }
      ServeAllFrozen(cfg, Serve(cfg, t, fs[0]), fs[1..], id);
    }
  }

  lemma {:induction false} HearAllFrozen(t: Lines, fs: seq<Frame>, id: u16)
    ensures Frozen(Of(t, id), Of(HearAll(t, fs), id))
    decreases |fs|
  {
    hide HearLine;
    if fs != [] {
      if !fs[0].Icmp? {
        HearLineFrozen(Of(t, fs[0].id), fs[0]);
      }
      HearAllFrozen(Hear(t, fs[0]), fs[1..], id);
    }
  }

  lemma ResumeClientFrozen(t: Lines, h: Handler, id: u16)
    ensures Frozen(Of(t, id), Of(ResumeClient(t, h), id))
  {
    hide CConnectSent, CDataSent, CAckSent;
    if h != Ignored && h.opening < |Of(t, h.id)| {
      ResumedPhases(Of(t, h.id)[h.opening], h);
    }
  }

  lemma {:induction false} ResumeClientsFrozen(t: Lines, hs: seq<Handler>, id: u16)
    ensures Frozen(Of(t, id), Of(ResumeClients(t, hs), id))
    decreases |hs|
  {
    hide OnSent;
    if hs != [] {
      ResumeClientFrozen(t, hs[0], id);
      ResumeClientsFrozen(ResumeClient(t, hs[0]), hs[1..], id);
      FrozenOn(Of(t, id), Of(ResumeClient(t, hs[0]), id), Of(ResumeClients(t, hs), id));
    }
  }

  lemma {:induction false} ResumeServersFrozen(t: Lines, hs: seq<Handler>, id: u16)
    ensures Frozen(Of(t, id), Of(ResumeServers(t, hs), id))
    decreases |hs|
  {
    if hs != [] {
      ResumeServersFrozen(ResumeServer(t, hs[0]), hs[1..], id);
    }
  }

  lemma ReceivedFrozen(y: Sys, e: Event, id: u16)
    requires Enabled(y, e) && (e.ReceivedUp? || e.ReceivedDown?)
    ensures Frozen(Of(y.lines, id), Of(Step(y, e).lines, id))
  {
    hide Drain, FindCrlf, Moved, ServeAll, HearAll;
    if e.ReceivedUp? {
      var p := Moved(y.up, e.n);
      ServeAllFrozen(y.cfg, y.lines, Drain(p.rbuf).frames, id);
      if FindCrlf(p.rbuf).Some? {
        ServeAllFrozen(y.cfg, y.lines, Drain(p.rbuf[FindCrlf(p.rbuf).value + 2..]).frames, id);
      }
    } else {
      HearAllFrozen(y.lines, Drain(Moved(y.down, e.n).rbuf).frames, id);
    }
  }

  lemma WithClientFrozen(t: Lines, x: u16, c: Client, id: u16)
    requires Of(t, x) != [] && CAlive(Latest(t, x))
    ensures Frozen(Of(t, id), Of(WithClient(t, x, c), id))
  {
  }

  lemma WithServerFrozen(t: Lines, x: u16, s: Server, id: u16)
    requires Serves(t, x) && (s.ended == Erased ==> Serving(t, x).ended == Erased)
    requires s.phase == SForward || (s.phase == SClosed && (Serving(t, x).phase == SForward ==> !CanReturn(s)))
    ensures Frozen(Of(t, id), Of(WithServer(t, x, s), id))
  {
  }

  lemma ServerStepFrozen(y: Sys, e: Event, id: u16)
    requires On(e) && Enabled(y, e)
    ensures Frozen(Of(y.lines, id), Of(ServerStep(y, e).lines, id))
  {
    hide AliveAt, WithServer, Send, Encode, Legal, OffList, Found, OpensUdp, Sendable;
    var t := y.lines;
    match e
    case TargetConnected(x) => WithServerFrozen(t, x, SConnected(Serving(t, x)), id);
    case ServerRead(x, d) => WithServerFrozen(t, x, SRead(Serving(t, x), d), id);
    case ServerWritten(x) => WithServerFrozen(t, x, SWriteDone(Serving(t, x)), id);
    case ServerFailed(x) => WithServerFrozen(t, x, SEnd(Serving(t, x), Failed), id);
  }

  lemma OffStepFrozen(y: Sys, e: Event, id: u16)
    requires Off(e) && Enabled(y, e) && e.id != id
    ensures Frozen(Of(y.lines, id), Of(OffStep(y, e).lines, id))
  {
    hide DeedOf, DeedLine, Send;
  }

  lemma LostClientsFrozen(t: Lines, id: u16)
    ensures Frozen(Of(t, id), Of(LoseClients(t), id))
  {
  }

  predicate ByClient(e: Event) {
    e.Requested? || e.ClientRead? || e.ClientWritten? || e.ClientFailed?
  }

  lemma ClientFrozen(y: Sys, e: Event, id: u16)
    requires ByClient(e) && Enabled(y, e)
    ensures Frozen(Of(y.lines, id), Of(Step(y, e).lines, id))
  {
    hide AliveAt, WithClient, Send, Encode, Legal, OpensUdp, Sendable, CRequest, CRead, CWriteDone, CEnd;
    var t := y.lines;
    match e
    case Requested(x, req) => WithClientFrozen(t, x, CRequest(Latest(t, x), req), id);
    case ClientRead(x, d) => WithClientFrozen(t, x, CRead(Latest(t, x), d), id);
    case ClientWritten(x) => WithClientFrozen(t, x, CWriteDone(Latest(t, x)), id);
    case ClientFailed(x) => WithClientFrozen(t, x, CEnd(Latest(t, x), Failed), id);
  }

  /** Only what it does itself changes a session off the list, unless the server loses the connection, and
      only what sessions off the list do gives others credit or bytes, or erases them. */
  lemma StepFrozen(y: Sys, e: Event, id: u16)
    requires Enabled(y, e) && e != Opened(id) && !(Off(e) && e.id == id) && e != ServerPipeBroken
    ensures Frozen(Of(y.lines, id), Of(Step(y, e).lines, id))
  {
    hide ServeAll, HearAll, ResumeClients, ResumeServers, Send, Settle, PasswordFirst, ServerIn, ClientIn;
    hide ServerStep, OffStep, AliveAt, LoseClients, LoseServers, Broken, OffList, Found, Sendable, OpensUdp;
    if ByClient(e) {
      ClientFrozen(y, e, id);
    } else if e.ReceivedUp? || e.ReceivedDown? {
      ReceivedFrozen(y, e, id);
    } else if On(e) {
      ServerStepFrozen(y, e, id);
    } else if Off(e) {
      OffStepFrozen(y, e, id);
    } else {
      ResumeClientsFrozen(y.lines, y.up.cache.flying, id);
      ResumeServersFrozen(y.lines, y.down.cache.flying, id);
      LostClientsFrozen(y.lines, id);
    }
  }

  // ---- former sessions ----

  /** A former session that is off the list and can return, or may come to: its target is being connected, or
      its request has not reached the server yet. */
  predicate MayReturn(p: Pair) {
    CanReturn(p.s) || p.s.phase == SConnect || RequestFlying(p)
  }

  /** One that can still send under the id. */
  predicate MaySend(p: Pair) {
    MayReturn(p) || p.s.phase == SForward || Owes(p)
  }

  /** One whose client is gone and that cannot return: it never made a request, or it forwards, or it is off
      the list for good. */
  predicate Spent(p: Pair) {
    p.c.phase == CClosed && (p.c.req.None? || p.s.phase == SForward || (p.s.phase == SClosed && !CanReturn(p.s)))
  }

  /** And that sends nothing more. */
  predicate Mute(p: Pair) {
    p.c.phase == CClosed && (p.c.req.None? || (p.s.phase == SClosed && !CanReturn(p.s) && !Owes(p)))
  }

  lemma SpentIff(cfg: Config, p: Pair, u: Lane, hu: Pending, hd: Pending)
    requires PairOk(cfg, p, u, hu, hd) && p.c.phase == CClosed
    ensures (Spent(p) <==> !MayReturn(p)) && (Mute(p) <==> !MaySend(p))
  {
  }

  ghost predicate AllSpent(l: seq<Pair>) {
    forall i :: 0 <= i < |l| - 1 ==> Spent(l[i])
  }

  ghost predicate AllMute(l: seq<Pair>) {
    forall i :: 0 <= i < |l| - 1 ==> Mute(l[i])
  }

  lemma FormerFacts(y: Sys, id: u16, k: nat)
    requires Inv(y) && k < |Of(y.lines, id)| - 1
    ensures var p := Of(y.lines, id)[k];
      p.c.phase == CClosed && (Spent(p) <==> !MayReturn(p)) && (Mute(p) <==> !MaySend(p))
  {
    hide PairOk, Inv, Flying, Handlers, UpLane, HU, HD, MayReturn, MaySend, Spent, Mute;
    var l, a := Of(y.lines, id), AirOf(y);
    Facts(y, id, k);
    ClosedBefore(y, id, k);
    SpentIff(y.cfg, l[k], UpLane(id, |l|, k, a), HU(id, k, a), HD(id, k, a));
  }

  /** The id is not opened again. */
  predicate NoReopening(es: seq<Event>, id: u16) {
    forall i :: 0 <= i < |es| ==> es[i] != Opened(id)
  }

  predicate ErasedIn(l: seq<Pair>) {
    l != [] && l[|l| - 1].s.ended == Erased
  }

  /** A session off the list has given the last session of the line an acknowledgement or bytes, or erased it. */
  predicate Meddled(l: seq<Pair>) {
    l != [] && (l[|l| - 1].foreign > 0 || l[|l| - 1].alien > 0 || l[|l| - 1].s.ended == Erased)
  }

  lemma FrozenSpent(l: seq<Pair>, m: seq<Pair>)
    requires Frozen(l, m)
    ensures (AllSpent(l) ==> AllSpent(m)) && (AllMute(l) ==> AllMute(m))
    ensures |l| == |m| && (ErasedIn(m) ==> ErasedIn(l)) && (Meddled(m) ==> Meddled(l))
  {
  }

  // ---- what sessions off the list do ----

  lemma LostNone(hs: seq<Handler>)
    ensures forall id: u16 :: LostServers(id, [], hs) == []
  {
  }

  lemma StepOff(y: Sys, e: Event)
    requires Enabled(y, e)
    ensures Off(e) ==> Step(y, e) == OffStep(y, e)
    ensures On(e) ==> Step(y, e) == ServerStep(y, e)
    ensures e == ServerPipeBroken ==>
      forall id: u16 :: Of(Step(y, e).lines, id) == LostServers(id, Of(y.lines, id), Handlers(y.down))
  {
    hide OffStep, ServerStep, ServerIn, ClientIn, Enabled, LostServers, ResumeClients, ResumeServers, LoseClients;
    hide Send, Settle, PasswordFirst, Moved, Broken, Handlers, UpSend, Latest, CWriteDone, CLate;
    assert forall id: u16 :: LostServers(id, [], Handlers(y.down)) == [] by { LostNone(Handlers(y.down)); }
  }

  /** Where the server has taken the last CONNECT and has that session off its list, it has none. */
  lemma LastOffAlone(cfg: Config, id: u16, l: seq<Pair>, a: Air)
    requires LineOk(cfg, id, l, a) && l != [] && l[|l| - 1].s.phase == SClosed
    ensures AliveAt(l) == |l|
  {
    hide PairOk, UpLane, HU, HD, Coming, Ordered, AliveAt, NewAt;
    Standing(cfg, id, l, a);
    assert OpeningOk(cfg, id, l, |l| - 1, a);
  }

  /** What a session that cannot return still does: it may acknowledge a write, and that is all. */
  ghost predicate Harmless(l: seq<Pair>, id: u16, k: nat, d: Deed)
    requires k < |l|
  {
    && d.s.phase == SClosed && d.s.ended == l[k].s.ended
    && (k < |l| - 1 ==> !CanReturn(d.s) && (!Owes(l[k]) ==> !Owes(l[k].(s := d.s))))
    && (d.Upon? ==>
          && AliveAt(l) < |l| && AliveAt(l) != k && k < |l| - 1 && d.frame.Ack? && d.frame.id == id
          && d.q == l[AliveAt(l)].(foreign := d.q.foreign)
          && (!Owes(l[k]) ==> d.frame.count == 0 && d.q == l[AliveAt(l)]))
  }

  lemma LateHarmless(l: seq<Pair>, id: u16, k: nat, held: bool)
    requires k < |l| - 1 && l[k].s.phase == SClosed && l[k].s.up.writing && l[k].s.life == Over
    requires held ==> AliveAt(l) < |l|
    ensures Harmless(l, id, k, LateDeed(l, id, k, held))
  {
    hide AliveAt;
  }

  lemma FormerHarmless(y: Sys, e: Event)
    requires Inv(y) && Off(e) && Enabled(y, e) && AllSpent(Of(y.lines, e.id)) && e.opening < |Of(y.lines, e.id)| - 1
    ensures Harmless(Of(y.lines, e.id), e.id, e.opening, DeedOf(y, e))
  {
    hide AliveAt, Inv, LateDeed, Harmless, EndDeed, ReadDeed, MaySend;
    FormerFacts(y, e.id, e.opening);
    LateHarmless(Of(y.lines, e.id), e.id, e.opening, Found(y, e.id));
  }

  /** A session off the list that finds no other does what it does alone. */
  lemma FindsNone(y: Sys, e: Event)
    requires Off(e) && Enabled(y, e) && !Found(y, e.id)
    ensures var d, s := DeedOf(y, e), Of(y.lines, e.id)[e.opening].s;
      d.Alone? && d.s.phase == SClosed && d.s.ended == s.ended && s.phase == SClosed
  {
    hide AliveAt;
  }

  lemma LastHarmless(y: Sys, e: Event)
    requires Inv(y) && Off(e) && Enabled(y, e) && e.opening == |Of(y.lines, e.id)| - 1
    ensures Harmless(Of(y.lines, e.id), e.id, e.opening, DeedOf(y, e)) && DeedOf(y, e).Alone?
  {
    hide AliveAt, Inv, LineOk, DeedOf, Owes, CanReturn;
    CoreLine(y, e.id);
    LastOffAlone(y.cfg, e.id, Of(y.lines, e.id), AirOf(y));
    FindsNone(y, e);
  }

  lemma OwnHarmless(y: Sys, e: Event)
    requires Inv(y) && Off(e) && Enabled(y, e) && AllSpent(Of(y.lines, e.id))
    ensures var l := Of(y.lines, e.id);
      && e.opening < |l| && l[e.opening].s.phase == SClosed && Harmless(l, e.id, e.opening, DeedOf(y, e))
      && (AllMute(l) && e.opening < |l| - 1 ==> !Owes(l[e.opening]))
  {
    hide AliveAt, Inv, Harmless, DeedOf, Owes;
    var l := Of(y.lines, e.id);
    if e.opening < |l| - 1 {
      FormerFacts(y, e.id, e.opening);
      FormerHarmless(y, e);
    } else {
      LastHarmless(y, e);
    }
  }

  lemma DeedSpent(l: seq<Pair>, id: u16, k: nat, d: Deed)
    requires AllSpent(l) && k < |l| && l[k].s.phase == SClosed && Harmless(l, id, k, d)
    ensures var m := DeedLine(l, k, d);
      && AllSpent(m) && |m| == |l| && (ErasedIn(m) ==> ErasedIn(l))
      && (AllMute(l) && (k < |l| - 1 ==> !Owes(l[k])) ==> AllMute(m) && (Meddled(m) ==> Meddled(l)))
  {
    hide AliveAt, Owes;
  }

  lemma StaysGone(y: Sys, e: Event)
    requires Enabled(y, e) && y.down.cache.destroyed
    ensures Step(y, e).down.cache.destroyed
  {
    hide Drain, FindCrlf, ServeAll, HearAll, ResumeClients, ResumeServers;
    hide PasswordFirst, Send, Moved, OpensUdp, Sendable, OffList, Settle;
    hide AliveAt, WithClient, WithServer, DeedOf, DeedLine, LoseClients, LoseServers;
    if e.ReceivedDown? {
      MoveStays(y.down, e.n);
    }
    SettleStays(y.down);
    if Off(e) {
      FindsNone(y, e);
    }
  }

  /** A line of which nothing is left but what the server's end does after the loss of the connection. */
  lemma GoneOff(y: Sys, e: Event)
    requires Off(e) && Enabled(y, e) && y.down.cache.destroyed
    ensures var l, m := Of(y.lines, e.id), Of(OffStep(y, e).lines, e.id);
      |m| == |l| && (Meddled(m) ==> Meddled(l)) && (ErasedIn(m) ==> ErasedIn(l))
  {
    hide DeedOf, AliveAt;
    FindsNone(y, e);
  }

  lemma LostUntouched(id: u16, l: seq<Pair>, hs: seq<Handler>)
    ensures var m := LostServers(id, l, hs);
      |m| == |l| && (Meddled(m) ==> Meddled(l)) && (ErasedIn(m) ==> ErasedIn(l))
  {
    hide PendingOf;
  }

  /** While the server has the connection no former session of the line can return; the last is not erased. */
  ghost predicate Guarded(y: Sys, id: u16) {
    var l := Of(y.lines, id);
    l != [] && !ErasedIn(l) && (y.down.cache.destroyed || AllSpent(l))
  }

  /** Nor can any send, and nothing of theirs has been given to the last. */
  ghost predicate Shielded(y: Sys, id: u16) {
    var l := Of(y.lines, id);
    l != [] && !Meddled(l) && (y.down.cache.destroyed || AllMute(l))
  }

  lemma OwnShielded(y: Sys, e: Event)
    requires Inv(y) && Off(e) && Enabled(y, e)
    ensures Guarded(y, e.id) ==> Guarded(OffStep(y, e), e.id)
    ensures Shielded(y, e.id) ==> Shielded(OffStep(y, e), e.id)
  {
    hide AliveAt, Inv, Send, Harmless, DeedOf, DeedLine, Owes, Enabled, ErasedIn, Meddled, CanReturn;
    StepOff(y, e);
    var l := Of(y.lines, e.id);
    if y.down.cache.destroyed {
      GoneOff(y, e);
      StaysGone(y, e);
    } else if AllSpent(l) {
      OwnHarmless(y, e);
      DeedSpent(l, e.id, e.opening, DeedOf(y, e));
    }
  }

  lemma Lost(y: Sys)
    requires Enabled(y, ServerPipeBroken)
    ensures Step(y, ServerPipeBroken).down.cache.destroyed
  {
  }

  lemma StepShielded(y: Sys, e: Event, id: u16)
    requires Inv(y) && Enabled(y, e) && e != Opened(id)
    ensures Guarded(y, id) ==> Guarded(Step(y, e), id)
    ensures Shielded(y, id) ==> Shielded(Step(y, e), id)
  {
    hide Inv, Enabled, OffStep, Frozen, LostServers, Step, ErasedIn, Meddled, AllSpent, AllMute;
    StepOff(y, e);
    if y.down.cache.destroyed {
      StaysGone(y, e);
    }
    if Off(e) && e.id == id {
      OwnShielded(y, e);
    } else if e == ServerPipeBroken {
      LostUntouched(id, Of(y.lines, id), Handlers(y.down));
      Lost(y);
    } else {
      StepFrozen(y, e, id);
      FrozenSpent(Of(y.lines, id), Of(Step(y, e).lines, id));
    }
  }

  lemma {:induction false} RunGuarded(y: Sys, es: seq<Event>, id: u16)
    requires Inv(y) && IsRun(y, es) && NoReopening(es, id) && Guarded(y, id)
    ensures Guarded(Run(y, es), id)
    decreases |es|
  {
    hide Inv, Still, Enabled, Step, Guarded, Shielded, Patient;
    if es != [] {
      StepKeeps(y, es[0]);
      StepShielded(y, es[0], id);
      assert NoReopening(es[1..], id);
      RunGuarded(Step(y, es[0]), es[1..], id);
    }
  }

  // ---- what reaches the client of the last session ----

  /** The frames that can still reach the client: those the transport has, and while the server has the
      connection those queued. */
  function Landing(y: Sys): (fs: seq<Frame>) {
    Drain(y.down.rbuf + (y.down.net + (if y.down.cache.destroyed then [] else y.down.cache.queue))).frames
  }

  /** None of them is of this id, but for empty acknowledgements. */
  predicate Silent(y: Sys, id: u16) {
    Segs(id, Landing(y))[0] == NoLane
  }

  /** The client of a session has bytes, credit or a CLOSE. */
  predicate Heard(cfg: Config, c: Client) {
    || c.ended == PeerClosed || c.down.closing || c.down.writing || c.down.inbox.queue != [] || c.down.written != []
    || c.up.gate.counter > cfg.cwindow
  }

  lemma LandingIs(y: Sys)
    requires Inv(y)
    ensures !y.down.cache.destroyed ==> Landing(y) == AirOf(y).down
    ensures Landing(y) <= AirOf(y).down && Downward(Landing(y))
  {
    hide Drain;
    var a, q := y.down.rbuf + y.down.net, y.down.cache.queue;
    assert y.down.rbuf + (y.down.net + q) == a + q && y.down.rbuf + (y.down.net + []) == a;
    DrainSplit(a, q);
    assert Stream(y.down) == a + q;
  }

  lemma {:induction false} SilentPrefix(id: u16, a: seq<Frame>, b: seq<Frame>)
    requires Downward(a + b) && Segs(id, a + b)[0] == NoLane
    ensures Segs(id, a)[0] == NoLane
  {
    if a != [] {
      assert (a + b)[1..] == a[1..] + b && (a + b)[0] == a[0];
      assert Downward(a[1..] + b) by { assert forall i :: 0 <= i < |a[1..] + b| ==> (a[1..] + b)[i] == (a + b)[i + 1]; }
      SilentPrefix(id, a[1..], b);
    }
  }

  lemma SilentHead(id: u16, fs: seq<Frame>)
    requires fs != [] && !fs[0].Connect? && Segs(id, fs)[0] == NoLane
    ensures Segs(id, fs[1..])[0] == NoLane && (Mine(id, fs[0]) ==> fs[0] == Ack(id, 0))
  {
  }

  /** A receive takes its frames off the front of what can reach the client. */
  lemma LandingDrains(y: Sys, n: nat)
    requires Inv(y) && Enabled(y, ReceivedDown(n))
    ensures var fs := Drain(Moved(y.down, n).rbuf).frames;
      && Landing(y) == fs + Landing(Step(y, ReceivedDown(n)))
      && Step(y, ReceivedDown(n)).lines == HearAll(y.lines, fs) && Downward(Landing(y))
  {
    hide Core, Drain, HearAll, Downward, Flying, Stream, Body, PipeOk;
    var p := Moved(y.down, n);
    MovePipe(y.pw, y.down, n);
    DrainPipe(y.pw, p);
    LandingIs(y);
    var more := p.net + (if p.cache.destroyed then [] else p.cache.queue);
    assert y.down.rbuf + (y.down.net + (if y.down.cache.destroyed then [] else y.down.cache.queue)) == p.rbuf + more;
    DrainSplit(p.rbuf, more);
  }

  lemma {:induction false} SilentRest(id: u16, a: seq<Frame>, b: seq<Frame>)
    requires Downward(a + b) && Segs(id, a + b)[0] == NoLane
    ensures Segs(id, b)[0] == NoLane
  {
    if a == [] {
      assert a + b == b;
    } else {
      assert (a + b)[1..] == a[1..] + b && (a + b)[0] == a[0];
      assert Downward(a[1..] + b) by { assert forall i :: 0 <= i < |a[1..] + b| ==> (a[1..] + b)[i] == (a + b)[i + 1]; }
      SilentHead(id, a + b);
      SilentRest(id, a[1..], b);
    }
  }

  lemma SettledNet(p: Pipe)
    ensures p.cache.destroyed ==> Settle(p).net == p.net && Settle(p).rbuf == p.rbuf
  {
  }

  lemma SameSilent(y: Sys, z: Sys, id: u16)
    requires z.down == y.down && Silent(y, id)
    ensures Silent(z, id)
  {
  }

  /** What a server session that sends leaves of the silence. */
  lemma SentSilent(y: Sys, z: Sys, f: Frame, h: Handler, id: u16)
    requires Inv(y) && Inv(z) && !y.down.cache.destroyed && Sendable(f) && z.down == Send(y.down, f, h) && z.pw == y.pw
    requires Silent(y, id) && (!Mine(id, f) || f == Ack(id, 0))
    ensures Silent(z, id)
  {
    hide Core, PipeOk, Flying, Handlers, Send, Segs, Encode, Legal, Landing;
    SendPipe(y.pw, y.down, f, h);
    SendStays(y.down, f, h);
    LandingIs(y);
    LandingIs(z);
    SegsAppend(id, Flying(y.pw, y.down), f);
    OneLane(id, Flying(y.pw, y.down));
  }

  /** The events that leave the way back as it is. */
  predicate Aside(e: Event) {
    !On(e) && !Off(e) && !e.IcmpDown? && !e.ReceivedDown? && !e.SentDown? && !e.ServerPipeBroken?
  }

  lemma AsideSame(y: Sys, e: Event)
    requires Enabled(y, e) && Aside(e)
    ensures Step(y, e).down == y.down
  {
    hide Send, Encode, Legal, Moved, Drain, FindCrlf, ServeAll, ResumeClients, Settle, PasswordFirst, LoseClients;
    hide OpensUdp, Sendable, WithClient, Latest, CRequest, CRead, CWriteDone, CEnd, CLate;
  }

  /** A listed session that acts is no former one where all are mute, and not unserved. */
  lemma NoneActs(y: Sys, e: Event, id: u16)
    requires Inv(y) && Enabled(y, e) && On(e) && AllMute(Of(y.lines, id))
    requires Of(y.lines, id) != [] && Unserved(Of(y.lines, id)[|Of(y.lines, id)| - 1])
    ensures e.id != id
  {
    hide Inv, AliveAt, Mute, Owes, CanReturn;
    if e.id == id && AliveAt(Of(y.lines, id)) < |Of(y.lines, id)| - 1 {
      FormerFacts(y, id, AliveAt(Of(y.lines, id)));
    }
  }

  /** What a session on the list sends. */
  lemma SentOn(y: Sys, e: Event) returns (f: Frame, h: Handler)
    requires On(e) && Enabled(y, e)
    ensures e.TargetConnected? ==> ServerStep(y, e).down == y.down
    ensures !e.TargetConnected? ==>
      && !y.down.cache.destroyed && Sendable(f) && Mine(e.id, f) && ServerStep(y, e).down == Send(y.down, f, h)
  {
    hide AliveAt, Send, SConnected, SWriteDone, SRead, SEnd, WithServer;
    var t, x := y.lines, e.id;
    f, h := Close(x), Ignored;
    if e.ServerRead? {
      f, h := Data(x, e.data), DataSent(x, ServerNo(t, x));
    } else if e.ServerWritten? && !WriteCloses(Serving(t, x).up) {
      f, h := Ack(x, Serving(t, x).up.wack % 0x1_0000), AckSent(x, ServerNo(t, x));
    }
  }

  lemma OnSilent(y: Sys, e: Event, id: u16)
    requires Inv(y) && Enabled(y, e) && On(e) && e.id != id && Silent(y, id)
    ensures Silent(Step(y, e), id)
  {
    hide Inv, Silent, Send, Sendable, Flying, Handlers, Enabled, Step, ServerStep;
    StepKeeps(y, e);
    StepConfig(y, e);
    StepOff(y, e);
    var f, h := SentOn(y, e);
    if e.TargetConnected? {
      SameSilent(y, Step(y, e), id);
    } else {
      SentSilent(y, Step(y, e), f, h, id);
    }
  }

  lemma SentDeed(y: Sys, e: Event)
    requires Off(e) && Enabled(y, e)
    ensures var d, z := DeedOf(y, e), OffStep(y, e);
      && (d.Alone? ==> z.down == y.down)
      && (d.Upon? ==>
            && !y.down.cache.destroyed && Sendable(d.frame) && Mine(e.id, d.frame)
            && z.down == Send(y.down, d.frame, d.handler))
  {
    hide AliveAt, Send, SConnected, SAlone, SStrayRead, SLate, SErased, SStrayEnd;
  }

  /** Where all former sessions are mute and the last is unserved, none acts under the id but to send an
      empty acknowledgement. */
  lemma OwnEmpty(y: Sys, e: Event)
    requires Inv(y) && Enabled(y, e) && Off(e) && DeedOf(y, e).Upon? && Shielded(y, e.id)
    requires Unserved(Of(y.lines, e.id)[|Of(y.lines, e.id)| - 1])
    ensures DeedOf(y, e).frame == Ack(e.id, 0)
  {
    hide Inv, AliveAt, DeedOf, Owes, CanReturn, Meddled, Enabled;
    SentDeed(y, e);
    assert AllSpent(Of(y.lines, e.id));
    OwnHarmless(y, e);
  }

  lemma OffSilent(y: Sys, e: Event, id: u16)
    requires Inv(y) && Enabled(y, e) && Off(e) && Silent(y, id) && Shielded(y, id)
    requires Unserved(Of(y.lines, id)[|Of(y.lines, id)| - 1])
    ensures Silent(Step(y, e), id)
  {
    hide Inv, Silent, Send, Sendable, Enabled, Step, DeedOf, OffStep, Flying, Handlers, Shielded, Unserved;
    var z, d := Step(y, e), DeedOf(y, e);
    StepKeeps(y, e);
    StepConfig(y, e);
    StepOff(y, e);
    SentDeed(y, e);
    if d.Alone? {
      SameSilent(y, z, id);
    } else {
      if e.id == id {
        OwnEmpty(y, e);
      }
      SentSilent(y, z, d.frame, d.handler, id);
    }
  }

  lemma LostSilent(y: Sys, id: u16)
    requires Inv(y) && Enabled(y, ServerPipeBroken) && Silent(y, id)
    ensures Silent(Step(y, ServerPipeBroken), id)
  {
    hide Core, Drain, Segs, Downward, LoseServers;
    var z := Step(y, ServerPipeBroken);
    var a, q := y.down.rbuf + y.down.net, y.down.cache.queue;
    LandingIs(y);
    assert y.down.rbuf + (y.down.net + q) == a + q && y.down.rbuf + (y.down.net + []) == a;
    DrainSplit(a, q);
    assert Landing(z) <= Landing(y);
    var rest := Landing(y)[|Landing(z)|..];
    assert Landing(y) == Landing(z) + rest;
    SilentPrefix(id, Landing(z), rest);
  }

  lemma IcmpSilent(y: Sys, x: bytes, id: u16)
    requires Inv(y) && Enabled(y, IcmpDown(x)) && Silent(y, id)
    ensures Silent(Step(y, IcmpDown(x)), id)
  {
    hide Inv, Silent, Send, Encode, Flying, Handlers;
    StepKeeps(y, IcmpDown(x));
    SentSilent(y, Step(y, IcmpDown(x)), Icmp(x), Ignored, id);
  }

  lemma SentDownSilent(y: Sys, id: u16)
    requires Inv(y) && Enabled(y, SentDown) && Silent(y, id)
    ensures Silent(Step(y, SentDown), id)
  {
    hide Core, Drain, Segs, ResumeServers, Flying, Handlers, PipeOk, Settle;
    var z := Step(y, SentDown);
    StepKeeps(y, SentDown);
    SettleStays(y.down);
    SettledNet(y.down);
    if !y.down.cache.destroyed {
      SettlePipe(y.pw, y.down);
      LandingIs(y);
      LandingIs(z);
    }
  }

  lemma ReceivedSilent(y: Sys, n: nat, id: u16)
    requires Inv(y) && Enabled(y, ReceivedDown(n)) && Silent(y, id)
    ensures Silent(Step(y, ReceivedDown(n)), id)
  {
    hide Inv, Step, Segs, Landing, Moved, Drain, HearAll;
    LandingDrains(y, n);
    SilentRest(id, Drain(Moved(y.down, n).rbuf).frames, Landing(Step(y, ReceivedDown(n))));
  }

  lemma HasConnection(y: Sys, e: Event, id: u16)
    requires Enabled(y, e) && On(e) && Shielded(y, id)
    ensures AllMute(Of(y.lines, id)) && Of(y.lines, id) != []
  {
    hide AliveAt;
  }

  lemma StepSilent(y: Sys, e: Event, id: u16)
    requires Inv(y) && Enabled(y, e) && Silent(y, id) && Shielded(y, id)
    requires Unserved(Of(y.lines, id)[|Of(y.lines, id)| - 1])
    ensures Silent(Step(y, e), id)
  {
    hide Inv, Enabled, Step, Shielded, Segs, Landing, Moved, Flying, Handlers;
    if Aside(e) {
      AsideSame(y, e);
      SameSilent(y, Step(y, e), id);
    } else if On(e) {
      HasConnection(y, e, id);
      NoneActs(y, e, id);
      OnSilent(y, e, id);
    } else if Off(e) {
      OffSilent(y, e, id);
    } else if e.IcmpDown? {
      IcmpSilent(y, e.data, id);
    } else if e.ReceivedDown? {
      ReceivedSilent(y, e.n, id);
    } else if e.SentDown? {
      SentDownSilent(y, id);
    } else {
      LostSilent(y, id);
    }
  }

  // ---- and its client hears nothing ----

  lemma UnheardFrame(cfg: Config, c: Client, f: Frame, id: u16)
    requires !Heard(cfg, c) && (Mine(id, f) ==> f == Ack(id, 0))
    ensures Mine(id, f) ==> !Heard(cfg, OnClient(c, f))
  {
  }

  lemma {:induction false} HearAllUnheard(cfg: Config, t: Lines, fs: seq<Frame>, id: u16)
    requires Of(t, id) != [] && !Heard(cfg, Latest(t, id)) && Downward(fs) && Segs(id, fs)[0] == NoLane
    ensures Of(HearAll(t, fs), id) != [] && !Heard(cfg, Latest(HearAll(t, fs), id))
    decreases |fs|
  {
    hide Heard, Segs, OnClient;
    if fs != [] {
      SilentHead(id, fs);
      UnheardFrame(cfg, Latest(t, id), fs[0], id);
      assert Downward(fs[1..]);
      HearAllUnheard(cfg, Hear(t, fs[0]), fs[1..], id);
    }
  }

  lemma {:induction false} ServeAllUnheard(cfg: Config, t: Lines, fs: seq<Frame>, id: u16)
    requires Of(t, id) != []
    ensures Of(ServeAll(cfg, t, fs), id) != [] && Latest(ServeAll(cfg, t, fs), id) == Latest(t, id)
    decreases |fs|
  {
    hide SOnConnect, OnServer, SEnd;
    if fs != [] {
      ServeAllUnheard(cfg, Serve(cfg, t, fs[0]), fs[1..], id);
    }
  }

  lemma {:induction false} ResumeUnheard(cfg: Config, t: Lines, hs: seq<Handler>, id: u16)
    requires Of(t, id) != [] && !Heard(cfg, Latest(t, id))
    ensures Of(ResumeClients(t, hs), id) != [] && !Heard(cfg, Latest(ResumeClients(t, hs), id))
    ensures Of(ResumeServers(t, hs), id) != [] && !Heard(cfg, Latest(ResumeServers(t, hs), id))
    decreases |hs|
  {
    hide SDataSent, SAckSent;
    if hs != [] {
      ResumeUnheard(cfg, ResumeClient(t, hs[0]), hs[1..], id);
      ResumeUnheard(cfg, ResumeServer(t, hs[0]), hs[1..], id);
    }
  }

  lemma ReceivedUnheard(y: Sys, e: Event, id: u16)
    requires Inv(y) && Enabled(y, e) && (e.ReceivedUp? || e.ReceivedDown?) && Silent(y, id)
    requires Of(y.lines, id) != [] && !Heard(y.cfg, Latest(y.lines, id))
    ensures var t := Step(y, e).lines; Of(t, id) != [] && !Heard(y.cfg, Latest(t, id))
  {
    hide Inv, Drain, FindCrlf, Moved, ServeAll, HearAll, Heard, Segs, Landing, Latest;
    if e.ReceivedUp? {
      var p := Moved(y.up, e.n);
      ServeAllUnheard(y.cfg, y.lines, Drain(p.rbuf).frames, id);
      if FindCrlf(p.rbuf).Some? {
        ServeAllUnheard(y.cfg, y.lines, Drain(p.rbuf[FindCrlf(p.rbuf).value + 2..]).frames, id);
      }
    } else {
      var fs, rest := Drain(Moved(y.down, e.n).rbuf).frames, Landing(Step(y, e));
      LandingDrains(y, e.n);
      SilentPrefix(id, fs, rest);
      assert Downward(fs) by { assert forall i :: 0 <= i < |fs| ==> fs[i] == (fs + rest)[i]; }
      HearAllUnheard(y.cfg, y.lines, fs, id);
    }
  }

  lemma ClientUnheard(y: Sys, e: Event, id: u16)
    requires Enabled(y, e) && (ByClient(e) || e.ClientWrittenLate?)
    requires Of(y.lines, id) != [] && !Heard(y.cfg, Latest(y.lines, id))
    ensures var t := Step(y, e).lines; Of(t, id) != [] && !Heard(y.cfg, Latest(t, id))
  {
    hide Send, Encode, Legal, OpensUdp, Sendable;
  }

  lemma ServerUnheard(y: Sys, e: Event, id: u16)
    requires Enabled(y, e) && On(e) && Of(y.lines, id) != []
    ensures var t := ServerStep(y, e).lines; Of(t, id) != [] && Latest(t, id) == Latest(y.lines, id)
  {
    hide Send, Encode, Legal, AliveAt, SConnected, SWriteDone, SRead, SEnd;
  }

  lemma DeedUnheard(y: Sys, e: Event)
    requires Off(e) && Enabled(y, e)
    ensures DeedOf(y, e).Upon? ==> DeedOf(y, e).q.c == Of(y.lines, e.id)[AliveAt(Of(y.lines, e.id))].c
  {
    hide AliveAt, SConnected, SAlone, SStrayRead, SLate, SErased, SStrayEnd;
  }

  lemma OffUnheard(y: Sys, e: Event, id: u16)
    requires Enabled(y, e) && Off(e) && Of(y.lines, id) != []
    ensures var t := OffStep(y, e).lines; Of(t, id) != [] && Latest(t, id) == Latest(y.lines, id)
  {
    hide Send, DeedOf, AliveAt;
    DeedUnheard(y, e);
  }

  lemma StepUnheard(y: Sys, e: Event, id: u16)
    requires Inv(y) && Enabled(y, e) && e != Opened(id) && Silent(y, id)
    requires Of(y.lines, id) != [] && !Heard(y.cfg, Latest(y.lines, id))
    ensures var t := Step(y, e).lines; Of(t, id) != [] && !Heard(y.cfg, Latest(t, id))
  {
    hide Inv, Silent, ServeAll, HearAll, ResumeClients, ResumeServers, Send, Settle, PasswordFirst, ServerIn, ClientIn;
    hide ServerStep, OffStep, AliveAt, Broken, OffList, Found, Sendable, OpensUdp;
    if ByClient(e) || e.ClientWrittenLate? {
      ClientUnheard(y, e, id);
    } else if On(e) {
      ServerUnheard(y, e, id);
    } else if Off(e) {
      OffUnheard(y, e, id);
    } else if e.ReceivedUp? || e.ReceivedDown? {
      ReceivedUnheard(y, e, id);
    } else {
      ResumeUnheard(y.cfg, y.lines, y.up.cache.flying, id);
      ResumeUnheard(y.cfg, y.lines, y.down.cache.flying, id);
    }
  }

  /** The last session of a line got something of a former one: from off the list, or its client heard
      something while its own server session had sent nothing. */
  predicate TouchedIn(cfg: Config, l: seq<Pair>) {
    Meddled(l) || (l != [] && Unserved(l[|l| - 1]) && Heard(cfg, l[|l| - 1].c))
  }

  ghost predicate Unreached(y: Sys, id: u16) {
    Shielded(y, id)
    && (Unserved(Of(y.lines, id)[|Of(y.lines, id)| - 1]) ==> Silent(y, id) && !Heard(y.cfg, Latest(y.lines, id)))
  }

  lemma OffStaysServed(y: Sys, e: Event)
    requires Off(e) && Enabled(y, e)
    ensures var l, m := Of(y.lines, e.id), Of(OffStep(y, e).lines, e.id);
      |m| == |l| && (Unserved(m[|l| - 1]) ==> Unserved(l[|l| - 1]))
  {
    hide Send, Encode, Legal, Sendable, AliveAt;
  }

  lemma LostStaysServed(id: u16, l: seq<Pair>, hs: seq<Handler>)
    requires l != []
    ensures var m := LostServers(id, l, hs); |m| == |l| && (Unserved(m[|l| - 1]) ==> Unserved(l[|l| - 1]))
  {
    hide PendingOf;
  }

  lemma FrozenServed(l: seq<Pair>, m: seq<Pair>)
    requires Frozen(l, m) && l != []
    ensures |m| == |l| && (Unserved(m[|l| - 1]) ==> Unserved(l[|l| - 1]))
  {
  }

  lemma StaysServed(y: Sys, e: Event, id: u16)
    requires Enabled(y, e) && e != Opened(id) && Of(y.lines, id) != []
    ensures var l, m := Of(y.lines, id), Of(Step(y, e).lines, id);
      |m| == |l| && (Unserved(m[|l| - 1]) ==> Unserved(l[|l| - 1]))
  {
    hide Enabled, Step, OffStep, LostServers, Frozen, Unserved;
    StepOff(y, e);
    if Off(e) && e.id == id {
      OffStaysServed(y, e);
    } else if e == ServerPipeBroken {
      LostStaysServed(id, Of(y.lines, id), Handlers(y.down));
    } else {
      StepFrozen(y, e, id);
      FrozenServed(Of(y.lines, id), Of(Step(y, e).lines, id));
    }
  }

  lemma StepUnreached(y: Sys, e: Event, id: u16)
    requires Inv(y) && Enabled(y, e) && e != Opened(id) && Unreached(y, id)
    ensures Unreached(Step(y, e), id)
  {
    hide Inv, Enabled, Step, Silent, Heard, Unserved, Meddled, AllMute;
    StepShielded(y, e, id);
    StepConfig(y, e);
    StaysServed(y, e, id);
    if Unserved(Of(y.lines, id)[|Of(y.lines, id)| - 1]) {
      StepSilent(y, e, id);
      StepUnheard(y, e, id);
    }
  }

  lemma {:induction false} RunUnreached(y: Sys, es: seq<Event>, id: u16)
    requires Inv(y) && IsRun(y, es) && NoReopening(es, id) && Unreached(y, id)
    ensures Unreached(Run(y, es), id)
    decreases |es|
  {
    hide Inv, Still, Enabled, Step, Unreached, Patient;
    if es != [] {
      StepKeeps(y, es[0]);
      StepUnreached(y, es[0], id);
      assert NoReopening(es[1..], id);
      RunUnreached(Step(y, es[0]), es[1..], id);
    }
  }

  // ---- what a former session that may return comes to ----

  /** A session opened and not used yet. */
  predicate Unused(p: Pair) {
    && (p.c.phase == CNew || p.c.phase == CReady) && p.c.req.None?
    && (p.s.phase == SNone || p.s.phase == SHandshake)
  }

  lemma UnusedLane(cfg: Config, p: Pair, u: Lane, hu: Pending, hd: Pending)
    requires PairOk(cfg, p, u, hu, hd) && Unused(p)
    ensures u.datas == [] && !u.close
  {
  }

  /** Former sessions that may return still may, and a last session not used is not used. */
  ghost predicate Lasting(l: seq<Pair>, m: seq<Pair>) {
    && |l| == |m| && l != [] && Unused(m[|l| - 1])
    && forall i :: 0 <= i < |l| - 1 && MayReturn(l[i]) ==> MayReturn(m[i])
  }

  lemma LastingOn(l: seq<Pair>, m: seq<Pair>, n: seq<Pair>)
    requires Lasting(l, m) && Lasting(m, n)
    ensures Lasting(l, n)
  {
  }

  /** The session that has the id is replaced behind all its frames: one whose target is being connected
      is then due to return. */
  lemma EvictedReturns(cfg: Config, p: Pair, u: Lane, hu: Pending, hd: Pending)
    requires PairOk(cfg, p, u, hu, hd) && SAlive(p.s) && u == NoLane
    ensures MayReturn(p) ==> MayReturn(p.(s := SEnd(p.s, Failed)))
  {
  }

  lemma StartedReturns(cfg: Config, p: Pair, u: Lane, hu: Pending, hd: Pending)
    requires PairOk(cfg, p, u, hu, hd) && p.s.phase == SNone
    ensures MayReturn(p) ==> MayReturn(p.(s := SOnConnect(cfg)))
    ensures Unused(p) ==> Unused(p.(s := SOnConnect(cfg)))
  {
  }

  lemma ServedReturns(cfg: Config, p: Pair, u: Lane, hu: Pending, hd: Pending, f: Frame)
    requires PairOk(cfg, p, u, hu, hd) && SAlive(p.s) && !f.Connect? && (f.Close? ==> u.datas == [])
    ensures MayReturn(p) ==> MayReturn(p.(s := OnServer(cfg, p.s, f)))
    ensures Unused(p) && !f.Data? && !f.Close? ==> Unused(p.(s := OnServer(cfg, p.s, f)))
  {
  }

  /** A CONNECT at the head of the stream. */
  lemma ConnectLasting(cfg: Config, id: u16, l: seq<Pair>, a: Air)
    requires LineOk(cfg, id, l, a) && a.up != [] && a.up[0] == Connect(id) && l != [] && Unused(l[|l| - 1])
    ensures Lasting(l, ServeLine(cfg, l, a.up[0]))
  {
    hide PairOk, Segs, Ordered, PendingOf, NewAt, AliveAt, SEnd, SOnConnect, MayReturn, Unused;
    var j, k := AliveAt(l), NewAt(l);
    Head(id, a.up);
    Standing(cfg, id, l, a);
    EvictLine(cfg, id, l, a);
    assert OpeningOk(cfg, id, l, k, a);
    StartedReturns(cfg, l[k], UpLane(id, |l|, k, a), HU(id, k, a), HD(id, k, a));
    if j < |l| {
      assert OpeningOk(cfg, id, l, j, a);
      EvictedReturns(cfg, l[j], UpLane(id, |l|, j, a), HU(id, j, a), HD(id, j, a));
    }
  }

  lemma FrameLasting(cfg: Config, id: u16, l: seq<Pair>, a: Air)
    requires LineOk(cfg, id, l, a) && a.up != [] && Mine(id, a.up[0]) && !a.up[0].Connect?
    requires l != [] && Unused(l[|l| - 1])
    ensures Lasting(l, ServeLine(cfg, l, a.up[0]))
  {
    hide PairOk, Segs, Ordered, PendingOf, NewAt, AliveAt, OnServer;
    var j := AliveAt(l);
    Head(id, a.up);
    Standing(cfg, id, l, a);
    if j < |l| {
      assert OpeningOk(cfg, id, l, j, a);
      var u, hu, hd := UpLane(id, |l|, j, a), HU(id, j, a), HD(id, j, a);
      ServedReturns(cfg, l[j], u, hu, hd, a.up[0]);
      if j == |l| - 1 {
        UnusedLane(cfg, l[j], u, hu, hd);
      }
    }
  }

  lemma ServeLasting(cfg: Config, t: Lines, a: Air, id: u16)
    requires Core(cfg, t, a) && a.up != [] && Of(t, id) != [] && Unused(Of(t, id)[|Of(t, id)| - 1])
    ensures Lasting(Of(t, id), Of(Serve(cfg, t, a.up[0]), id))
  {
    hide LineOk, ServeLine;
    var l := Of(t, id);
    if Mine(id, a.up[0]) {
      assert LineOk(cfg, id, l, a);
      if a.up[0].Connect? {
        ConnectLasting(cfg, id, l, a);
      } else {
        FrameLasting(cfg, id, l, a);
      }
    }
  }

  lemma {:induction false} ServeAllLasting(cfg: Config, t: Lines, a: Air, fs: seq<Frame>, rest: seq<Frame>, id: u16)
    requires Core(cfg, t, a) && a.up == fs + rest && Of(t, id) != [] && Unused(Of(t, id)[|Of(t, id)| - 1])
    ensures Lasting(Of(t, id), Of(ServeAll(cfg, t, fs), id))
    decreases |fs|
  {
    hide Core, Serve, Unused;
    if fs != [] {
      var u := Serve(cfg, t, fs[0]);
      ServeStep(cfg, t, a);
      ServeLasting(cfg, t, a, id);
      assert a.up[0] == fs[0] && a.up[1..] == fs[1..] + rest;
      ServeAllLasting(cfg, u, PopUp(a), fs[1..], rest, id);
      LastingOn(Of(t, id), Of(u, id), Of(ServeAll(cfg, t, fs), id));
    }
  }

  lemma {:induction false} ResumeLasting(t: Lines, hs: seq<Handler>, id: u16)
    requires Of(t, id) != [] && Unused(Of(t, id)[|Of(t, id)| - 1])
    ensures Lasting(Of(t, id), Of(ResumeClients(t, hs), id))
    decreases |hs|
  {
    if hs != [] {
      ResumeLasting(ResumeClient(t, hs[0]), hs[1..], id);
    }
  }

  lemma ServeBufferLasting(y: Sys, id: u16)
    requires Inv(y) && y.up.streaming && y.up.cache.connected
    requires Of(y.lines, id) != [] && Unused(Of(y.lines, id)[|Of(y.lines, id)| - 1])
    ensures Lasting(Of(y.lines, id), Of(ServeBuffer(y).lines, id))
  {
    hide Core, PipeOk, Flying, Handlers, Drain, ServeAll, Unused, Lasting;
    DrainPipe(y.pw, y.up);
    var q := y.up.(rbuf := Drain(y.up.rbuf).rest);
    ServeAllLasting(y.cfg, y.lines, AirOf(y), Drain(y.up.rbuf).frames, Flying(y.pw, q), id);
  }

  lemma ReceivedUpLasting(y: Sys, n: nat, id: u16)
    requires Inv(y) && Enabled(y, ReceivedUp(n))
    requires Of(y.lines, id) != [] && Unused(Of(y.lines, id)[|Of(y.lines, id)| - 1])
    ensures Lasting(Of(y.lines, id), Of(Step(y, ReceivedUp(n)).lines, id))
  {
    hide Core, PipeOk, Flying, Handlers, ServeBuffer, FindCrlf, NoCrlf, Moved, Unused;
    MovePipe(y.pw, y.up, n);
    MoveStays(y.up, n);
    var z := y.(up := Moved(y.up, n));
    assert AirOf(z) == AirOf(y) && Inv(z);
    if z.up.streaming {
      ServeBufferLasting(z, id);
    } else {
      HandshakePipe(z.pw, z.up);
      if FindCrlf(z.up.rbuf).Some? {
        var w := z.(up := z.up.(streaming := true, rbuf := z.up.rbuf[|z.pw| + 2..]));
        assert AirOf(w) == AirOf(z);
        ServeBufferLasting(w, id);
      }
    }
  }

  lemma UpLasting(y: Sys, e: Event, id: u16)
    requires Inv(y) && Enabled(y, e) && (e.SentUp? || e.ReceivedUp?)
    requires Of(y.lines, id) != [] && Unused(Of(y.lines, id)[|Of(y.lines, id)| - 1])
    ensures Lasting(Of(y.lines, id), Of(Step(y, e).lines, id))
  {
    hide Inv, ResumeClients, Unused, Lasting, Settle, ServerIn;
    if e.SentUp? {
      ResumeLasting(y.lines, y.up.cache.flying, id);
    } else {
      ReceivedUpLasting(y, e.n, id);
    }
  }

  lemma UpEmpty(y: Sys)
    requires Held(y) && Intact(y) && y.up.cache.connected && !y.up.cache.sending && y.up.net == []
    ensures AirOf(y).up == []
  {
    hide Core, PipeOk, DryPipe, Flying, Handlers;
    RestingPipe(y.pw, y.up);
  }

  lemma UpEnabled(y: Sys)
    requires Intact(y) && (y.up.cache.sending || y.up.net != [])
    ensures var e := if y.up.cache.sending then SentUp else ReceivedUp(1); Enabled(y, e) && Internal(e)
  {
  }

  lemma Reflexive(l: seq<Pair>)
    requires l != [] && Unused(l[|l| - 1])
    ensures Lasting(l, l) && Frozen(l, l)
  {
  }

  lemma LastingUnused(l: seq<Pair>, m: seq<Pair>)
    requires Lasting(l, m)
    ensures m != [] && Unused(m[|m| - 1])
  {
  }

  lemma NotOff(e: Event, id: u16)
    requires Internal(e)
    ensures e != Opened(id) && !Off(e) && e != ServerPipeBroken
  {
  }

  /** Everything on its way to the server arrives: then every former session is off the list. */
  lemma {:induction false} UpDrains(y: Sys, id: u16) returns (es: seq<Event>)
    requires Held(y) && Intact(y) && y.up.cache.connected
    requires Of(y.lines, id) != [] && Unused(Of(y.lines, id)[|Of(y.lines, id)| - 1])
    ensures IsRun(y, es) && NoReopening(es, id)
    ensures var w := Run(y, es);
      && Held(w) && Intact(w) && AirOf(w).up == []
      && Lasting(Of(y.lines, id), Of(w.lines, id)) && Frozen(Of(y.lines, id), Of(w.lines, id))
    decreases Measure(y, IDS)
  {
    hide Inv, Dry, Still, Step, Measure, Unused, Lasting, Frozen, MayReturn, Intact, Patient, Flying, Handlers;
    if !y.up.cache.sending && y.up.net == [] {
      es := [];
      UpEmpty(y);
      Reflexive(Of(y.lines, id));
    } else {
      var e := if y.up.cache.sending then SentUp else ReceivedUp(1);
      assert Enabled(y, e) && Internal(e) by { UpEnabled(y); }
      InternalWork(y, e);
      StepKeeps(y, e);
      StepDry(y, e);
      StepConnected(y, e);
      UpLasting(y, e, id);
      NotOff(e, id);
      StepFrozen(y, e, id);
      var z := Step(y, e);
      assert Of(z.lines, id) != [] && Unused(Of(z.lines, id)[|Of(z.lines, id)| - 1]) by {
        LastingUnused(Of(y.lines, id), Of(z.lines, id));
      }
      var more := UpDrains(z, id);
      es := [e] + more;
      assert es[1..] == more;
      LastingOn(Of(y.lines, id), Of(z.lines, id), Of(Run(z, more).lines, id));
      FrozenOn(Of(y.lines, id), Of(z.lines, id), Of(Run(z, more).lines, id));
    }
  }

  /** The pipe is up: at once, or once the connection is. */
  function Up(y: Sys): (es: seq<Event>)
    requires Intact(y)
  {
    if y.up.cache.connected then [] else [PipeConnected]
  }

  lemma UpConnects(y: Sys)
    requires Held(y) && Intact(y)
    ensures IsRun(y, Up(y))
    ensures var z := Run(y, Up(y)); Held(z) && Intact(z) && z.up.cache.connected && z.lines == y.lines
    ensures AirOf(Run(y, Up(y))).down == AirOf(y).down
  {
    hide Inv, Still, Dry, Flying, Handlers;
    if !y.up.cache.connected {
      StepKeeps(y, PipeConnected);
      StepDry(y, PipeConnected);
      assert [PipeConnected][1..] == [];
      var z := Step(y, PipeConnected);
      assert Run(y, [PipeConnected]) == z;
    }
  }

  /** The last session, not used yet, has come to the server; the former ones are off the list. */
  lemma DrainedLine(w: Sys, id: u16, l: seq<Pair>)
    requires Held(w) && Intact(w) && AirOf(w).up == [] && Lasting(l, Of(w.lines, id))
    ensures var m := Of(w.lines, id);
      && Found(w, id) && AliveAt(m) == |m| - 1 && |m| == |l|
      && forall k :: 0 <= k < |m| - 1 ==> m[k].s.phase == SClosed && (MayReturn(l[k]) ==> CanReturn(m[k].s))
  {
    hide Inv, Dry, PairOk, AliveAt, UpLane, HU, HD, Flying, Handlers, Ordered, CanReturn;
    var m := Of(w.lines, id);
    CoreLine(w, id);
    assert Segs(id, []) == [NoLane];
    forall k | 0 <= k < |m|
      ensures k < |m| - 1 ==> m[k].s.phase == SClosed
      ensures m[k].s.phase != SNone
    {
      assert OpeningOk(w.cfg, id, m, k, AirOf(w));
    }
    NoneElse(w.cfg, id, m, AirOf(w), |m| - 1);
  }

  lemma EndErases(l: seq<Pair>, id: u16, k: nat)
    requires k < |l| - 1 && AliveAt(l) == |l| - 1
    ensures var m := DeedLine(l, k, EndDeed(l, id, l[k].s, true)); |m| == |l| && m[|l| - 1].s.ended == Erased
  {
    hide AliveAt;
  }

  /** A stray ends, and the session that holds the id is erased. */
  lemma StrayErases(w: Sys, id: u16, k: nat)
    requires Found(w, id) && AliveAt(Of(w.lines, id)) == |Of(w.lines, id)| - 1 && k < |Of(w.lines, id)| - 1
    requires OffList(w, id, k, ConnectStray) || OffList(w, id, k, ForwardStray)
    ensures Enabled(w, StrayFailed(id, k)) && ErasedIn(Of(OffStep(w, StrayFailed(id, k)).lines, id))
  {
    hide AliveAt, DeedLine, EndDeed;
    EndErases(Of(w.lines, id), id, k);
  }

  lemma SameAlive(l: seq<Pair>, k: nat, s: Server)
    requires k < |l| && l[k].s.phase == SClosed && s.phase == SClosed
    ensures AliveAt(l[k := l[k].(s := s)]) == AliveAt(l)
  {
    hide AliveAt;
    var m := l[k := l[k].(s := s)];
    assert forall i :: 0 <= i < |l| && i != k ==> m[i] == l[i];
    var a, b := AliveAt(l), AliveAt(m);
    assert a < |l| ==> m[a] == l[a];
    assert b < |m| ==> l[b] == m[b];
  }

  lemma Returns(w: Sys, id: u16, k: nat)
    requires OffList(w, id, k, Due) && Found(w, id)
    ensures Enabled(w, TargetConnectedLate(id, k))
    ensures var z := OffStep(w, TargetConnectedLate(id, k));
      && OffList(z, id, k, ForwardStray) && Found(z, id) && |Of(z.lines, id)| == |Of(w.lines, id)|
      && AliveAt(Of(z.lines, id)) == AliveAt(Of(w.lines, id))
  {
    hide AliveAt, SConnected;
    SameAlive(Of(w.lines, id), k, SRevived(Of(w.lines, id)[k].s));
  }

  /** A session that can return erases the one that has the id, by the events of its own. */
  lemma Erases(w: Sys, id: u16, k: nat) returns (es: seq<Event>)
    requires Found(w, id) && AliveAt(Of(w.lines, id)) == |Of(w.lines, id)| - 1 && k < |Of(w.lines, id)| - 1
    requires Of(w.lines, id)[k].s.phase == SClosed && CanReturn(Of(w.lines, id)[k].s)
    ensures IsRun(w, es) && NoReopening(es, id) && ErasedIn(Of(Run(w, es).lines, id))
  {
    hide AliveAt, OffStep, Step, Enabled, ErasedIn;
    var last := StrayFailed(id, k);
    assert [last][1..] == [];
    if Of(w.lines, id)[k].s.life == Due {
      var first := TargetConnectedLate(id, k);
      Returns(w, id, k);
      StepOff(w, first);
      StrayErases(Step(w, first), id, k);
      StepOff(Step(w, first), last);
      es := [first, last];
      assert es[1..] == [last] && IsRun(Step(w, first), [last]);
      assert Run(w, es) == Run(Step(w, first), [last]) == Step(Step(w, first), last);
    } else {
      StrayErases(w, id, k);
      StepOff(w, last);
      es := [last];
      assert Run(w, es) == Step(w, last);
    }
  }

  lemma LateGain(l: seq<Pair>, id: u16, k: nat)
    requires k < |l| - 1 && AliveAt(l) == |l| - 1 && Owes(l[k])
    ensures var m := DeedLine(l, k, LateDeed(l, id, k, true)); |m| == |l| && m[|l| - 1].foreign > 0
  {
    hide AliveAt, SLate;
  }

  /** A session that owes gives the one that has the id credit. */
  lemma Credits(w: Sys, id: u16, k: nat) returns (es: seq<Event>)
    requires Found(w, id) && AliveAt(Of(w.lines, id)) == |Of(w.lines, id)| - 1 && k < |Of(w.lines, id)| - 1
    requires OffList(w, id, k, Over) && Owes(Of(w.lines, id)[k])
    ensures IsRun(w, es) && NoReopening(es, id) && Meddled(Of(Run(w, es).lines, id))
  {
    hide AliveAt, Step, DeedLine, LateDeed;
    var e := ServerWrittenLate(id, k);
    es := [e];
    assert [e][1..] == [];
    LateGain(Of(w.lines, id), id, k);
    StepOff(w, e);
  }

  /** Some run that does not open the id again lets its last session be erased, or touched at all. */
  ghost predicate CanErase(y: Sys, id: u16) {
    exists es :: IsRun(y, es) && NoReopening(es, id) && ErasedIn(Of(Run(y, es).lines, id))
  }

  ghost predicate CanTouch(y: Sys, id: u16) {
    exists es :: IsRun(y, es) && NoReopening(es, id) && TouchedIn(y.cfg, Of(Run(y, es).lines, id))
  }

  lemma UpOpensNone(y: Sys, id: u16)
    requires Intact(y)
    ensures NoReopening(Up(y), id)
  {
  }

  lemma FrozenOwes(l: seq<Pair>, m: seq<Pair>, k: nat)
    requires Frozen(l, m) && k < |l| && l[k].s.phase == SClosed && l[k].s.life == Over && Owes(l[k])
    ensures |m| == |l| && m[k].s == l[k].s && Owes(m[k])
  {
  }

  /** To the state where everything on its way to the server has arrived. */
  lemma Arrives(y: Sys, id: u16) returns (es: seq<Event>)
    requires Held(y) && Intact(y) && Of(y.lines, id) != [] && Unused(Of(y.lines, id)[|Of(y.lines, id)| - 1])
    ensures IsRun(y, es) && NoReopening(es, id)
    ensures var l, w := Of(y.lines, id), Run(y, es); var m := Of(w.lines, id);
      && Found(w, id) && AliveAt(m) == |m| - 1 && |m| == |l| && Frozen(l, m)
      && forall k :: 0 <= k < |m| - 1 ==> m[k].s.phase == SClosed && (MayReturn(l[k]) ==> CanReturn(m[k].s))
  {
    hide Inv, Dry, Intact, Enabled, Step, IsRun, Run, Up, Unused, Lasting, AliveAt, Flying, Handlers, Frozen;
    hide MayReturn, CanReturn, Found;
    UpConnects(y);
    var z := Run(y, Up(y));
    var more := UpDrains(z, id);
    Joined(y, Up(y), more);
    es := Up(y) + more;
    DrainedLine(Run(y, es), id, Of(y.lines, id));
    assert NoReopening(Up(y), id) by { UpOpensNone(y, id); }
  }

  lemma ErasesLater(y: Sys, id: u16, k: nat)
    requires Held(y) && Intact(y) && k < |Of(y.lines, id)| - 1 && MayReturn(Of(y.lines, id)[k])
    requires Unused(Of(y.lines, id)[|Of(y.lines, id)| - 1])
    ensures CanErase(y, id)
  {
    hide Inv, Dry, Intact, IsRun, Run, AliveAt, Frozen, CanReturn, ErasedIn, Found, Unused;
    var es := Arrives(y, id);
    var w := Run(y, es);
    var more := Erases(w, id, k);
    Joined(y, es, more);
    assert NoReopening(es + more, id);
  }

  lemma CreditsLater(y: Sys, id: u16, k: nat)
    requires Held(y) && Intact(y) && k < |Of(y.lines, id)| - 1 && Unused(Of(y.lines, id)[|Of(y.lines, id)| - 1])
    requires OffList(y, id, k, Over) && Owes(Of(y.lines, id)[k])
    ensures CanTouch(y, id)
  {
    hide Inv, Dry, Intact, IsRun, Run, AliveAt, Frozen, Owes, Meddled, Found, Unused;
    var es := Arrives(y, id);
    var w := Run(y, es);
    FrozenOwes(Of(y.lines, id), Of(w.lines, id), k);
    var more := Credits(w, id, k);
    Joined(y, es, more);
    assert NoReopening(es + more, id);
  }

  // ---- what is on its way back arrives ----

  /** A client session just opened, or one that a CLOSE has ended. */
  predicate Listens(cfg: Config, c: Client) {
    || (c.phase == CClosed && c.ended == PeerClosed)
    || (c.phase == CNew && !c.up.gate.wait && !c.down.inbox.waiting && c.up.gate.counter >= cfg.cwindow)
  }

  lemma ListensOn(cfg: Config, c: Client, f: Frame, id: u16)
    requires Listens(cfg, c) && Mine(id, f) && !f.Connect? && (f.Data? ==> f.payload != [])
    ensures Listens(cfg, OnClient(c, f)) && (Heard(cfg, c) || f != Ack(id, 0) ==> Heard(cfg, OnClient(c, f)))
  {
  }

  lemma LaneHead(id: u16, fs: seq<Frame>)
    requires fs != [] && !fs[0].Connect? && (!Mine(id, fs[0]) || fs[0] == Ack(id, 0))
    ensures Segs(id, fs[1..])[0] == Segs(id, fs)[0]
  {
  }

  lemma {:induction false} HearAllHeard(cfg: Config, t: Lines, fs: seq<Frame>, rest: seq<Frame>, id: u16)
    requires Of(t, id) != [] && Listens(cfg, Latest(t, id)) && Downward(fs + rest)
    requires Heard(cfg, Latest(t, id)) || Segs(id, fs + rest)[0] != NoLane
    ensures Of(HearAll(t, fs), id) != [] && Listens(cfg, Latest(HearAll(t, fs), id))
    ensures Heard(cfg, Latest(HearAll(t, fs), id)) || Segs(id, rest)[0] != NoLane
    decreases |fs|
  {
    hide Heard, Listens, Segs, OnClient;
    if fs == [] {
      assert fs + rest == rest;
    } else {
      var all := fs + rest;
      assert all[1..] == fs[1..] + rest && all[0] == fs[0];
      assert Downward(all[1..]);
      if Mine(id, fs[0]) {
        ListensOn(cfg, Latest(t, id), fs[0], id);
      }
      if !Mine(id, fs[0]) || fs[0] == Ack(id, 0) {
        LaneHead(id, all);
      }
      HearAllHeard(cfg, Hear(t, fs[0]), fs[1..], rest, id);
    }
  }

  /** Something of the id has reached the client of its last session, or can. */
  ghost predicate Reached(y: Sys, id: u16) {
    var l := Of(y.lines, id);
    && l != [] && Unserved(l[|l| - 1]) && Listens(y.cfg, Latest(y.lines, id))
    && (Heard(y.cfg, Latest(y.lines, id)) || !Silent(y, id))
  }

  lemma {:induction false} HeardSame(t: Lines, fs: seq<Frame>, id: u16)
    requires Of(t, id) != []
    ensures var l, m := Of(t, id), Of(HearAll(t, fs), id); |m| == |l| && m[|l| - 1].s == l[|l| - 1].s
    decreases |fs|
  {
    hide OnClient;
    if fs != [] {
      HeardSame(Hear(t, fs[0]), fs[1..], id);
    }
  }

  lemma ReceivedReaches(y: Sys, n: nat, id: u16)
    requires Inv(y) && Enabled(y, ReceivedDown(n)) && Reached(y, id)
    ensures Reached(Step(y, ReceivedDown(n)), id)
  {
    hide Inv, Landing, Segs, Heard, Listens, HearAll, Drain, Moved, Step;
    var e := ReceivedDown(n);
    LandingDrains(y, n);
    HearAllHeard(y.cfg, y.lines, Drain(Moved(y.down, n).rbuf).frames, Landing(Step(y, e)), id);
    StepConfig(y, e);
    HeardSame(y.lines, Drain(Moved(y.down, n).rbuf).frames, id);
  }

  lemma {:induction false} ResumedSame(t: Lines, hs: seq<Handler>, id: u16)
    requires Of(t, id) != [] && Unserved(Of(t, id)[|Of(t, id)| - 1])
    ensures var l, m := Of(t, id), Of(ResumeServers(t, hs), id);
      |m| == |l| && m[|l| - 1].c == l[|l| - 1].c && Unserved(m[|l| - 1])
    decreases |hs|
  {
    if hs != [] {
      ResumedSame(ResumeServer(t, hs[0]), hs[1..], id);
    }
  }

  lemma SentReaches(y: Sys, id: u16)
    requires Inv(y) && Enabled(y, SentDown) && Reached(y, id)
    ensures Reached(Step(y, SentDown), id)
  {
    hide Core, Drain, Segs, ResumeServers, Flying, Handlers, PipeOk, Settle, Heard, Listens, Unserved;
    var z := Step(y, SentDown);
    StepKeeps(y, SentDown);
    SettleStays(y.down);
    SettledNet(y.down);
    if !y.down.cache.destroyed {
      SettlePipe(y.pw, y.down);
      LandingIs(y);
      LandingIs(z);
    }
    ResumedSame(y.lines, y.down.cache.flying, id);
  }

  /** Where nothing more can arrive, it has. */
  lemma NothingLands(y: Sys)
    requires Held(y) && !y.down.cache.sending && y.down.net == []
    ensures Landing(y) == []
  {
    hide Core, Next;
    assert y.down.rbuf + ([] + []) == y.down.rbuf;
  }

  lemma EmptySilent(id: u16)
    ensures Segs(id, [])[0] == NoLane
  {
  }

  lemma UpStays(y: Sys, e: Event)
    requires Enabled(y, e) && (e.SentDown? || e.ReceivedDown?)
    ensures Step(y, e).up == y.up
  {
    hide Settle, ResumeServers, Moved, Drain, HearAll;
  }

  lemma {:induction false} DownDrains(y: Sys, id: u16) returns (es: seq<Event>)
    requires Held(y) && !y.up.cache.destroyed && Reached(y, id)
    ensures IsRun(y, es) && NoReopening(es, id) && TouchedIn(y.cfg, Of(Run(y, es).lines, id))
    decreases Measure(y, IDS)
  {
    hide Inv, Dry, Still, Step, Measure, Heard, Listens, Unserved, Meddled, Landing, Patient, Segs;
    if !y.down.cache.sending && y.down.net == [] {
      es := [];
      NothingLands(y);
      assert Segs(id, [])[0] == NoLane by { EmptySilent(id); }
    } else {
      var e := if y.down.cache.sending then SentDown else ReceivedDown(1);
      assert Enabled(y, e) && Internal(e);
      InternalWork(y, e);
      StepKeeps(y, e);
      StepDry(y, e);
      if e.SentDown? {
        SentReaches(y, id);
      } else {
        ReceivedReaches(y, 1, id);
      }
      UpStays(y, e);
      StepConfig(y, e);
      var more := DownDrains(Step(y, e), id);
      es := [e] + more;
      assert es[1..] == more;
    }
  }

  // ---- the conditions ----

  /** The line of an id just opened. */
  lemma OpenedLine(y: Sys, id: u16)
    requires Held(y) && Enabled(y, Opened(id))
    ensures var z, l := Step(y, Opened(id)), Of(y.lines, id);
      && Held(z) && z.down == y.down && z.cfg == y.cfg && !z.up.cache.destroyed
      && Of(z.lines, id) == l + [NewPair(y.cfg)]
  {
    hide Inv, Dry, Still, Send, Encode, Patient, Flying, Handlers;
    SendStays(y.up, Connect(id), ConnectSent(id, |Of(y.lines, id)|));
    StepKeeps(y, Opened(id));
    StepDry(y, Opened(id));
  }

  lemma FreshLine(cfg: Config, l: seq<Pair>)
    ensures var m := l + [NewPair(cfg)];
      && Unused(m[|l|]) && Unserved(m[|l|]) && Listens(cfg, m[|l|].c) && !Heard(cfg, m[|l|].c)
      && !Meddled(m) && !ErasedIn(m)
  {
  }

  /** Whichever sessions an id had, no matter which of them the server still has: opening it after any run,
      the new session can be taken off the server's list by a former one if and only if, at that moment,
      the server has the connection and some former session under the id may return. It may where its
      connect can still complete, or it lives on unlisted; and also where the CONNECT of the new session
      is going to replace it while its target is being connected. */
  lemma EraseIff(cfg: Config, pw: bytes, es: seq<Event>, id: u16)
    requires Configured(Start(cfg, pw)) && IsRun(Start(cfg, pw), es) && Enabled(After(cfg, pw, es), Opened(id))
    ensures var y := After(cfg, pw, es); var l := Of(y.lines, id);
      CanErase(Step(y, Opened(id)), id) <==> !y.down.cache.destroyed && exists k :: 0 <= k < |l| && MayReturn(l[k])
  {
    hide Inv, Dry, Step, IsRun, Run, Configured, MayReturn, Spent, ErasedIn, Meddled, Unused, Unserved, Listens, Heard;
    hide IsCalm, Still;
    var y := After(cfg, pw, es);
    var z, l := Step(y, Opened(id)), Of(y.lines, id);
    EveryRun(cfg, pw, es);
    OpenedLine(y, id);
    FreshLine(y.cfg, l);
    if !y.down.cache.destroyed && exists k :: 0 <= k < |l| && MayReturn(l[k]) {
      var k :| 0 <= k < |l| && MayReturn(l[k]);
      ErasesLater(z, id, k);
    } else {
      forall k | 0 <= k < |l|
        ensures z.down.cache.destroyed || Spent(Of(z.lines, id)[k])
      {
        FormerFacts(z, id, k);
      }
      forall more | IsRun(z, more) && NoReopening(more, id)
        ensures !ErasedIn(Of(Run(z, more).lines, id))
      {
        RunGuarded(z, more, id);
      }
    }
  }

  lemma SameDown(y: Sys, z: Sys, id: u16)
    requires z.down == y.down
    ensures Silent(z, id) == Silent(y, id)
  {
  }

  lemma Prepended(y: Sys, e: Event, es: seq<Event>, id: u16)
    requires Enabled(y, e) && e != Opened(id) && IsRun(Step(y, e), es) && NoReopening(es, id)
    requires TouchedIn(y.cfg, Of(Run(Step(y, e), es).lines, id))
    ensures CanTouch(y, id)
  {
    hide Enabled, Step, TouchedIn;
    var all := [e] + es;
    assert all[1..] == es;
    assert IsRun(y, all) && Run(y, all) == Run(Step(y, e), es);
    assert NoReopening(all, id);
  }

  /** A CLOSE sent back is on its way to the client. */
  lemma ClosesBack(z: Sys, w: Sys, id: u16)
    requires Inv(z) && Inv(w) && !z.down.cache.destroyed && w.pw == z.pw && w.down == Send(z.down, Close(id), Ignored)
    ensures !Silent(w, id)
  {
    hide Core, PipeOk, Flying, Handlers, Send, Segs, Encode, Landing, Downward;
    SendPipe(z.pw, z.down, Close(id), Ignored);
    SendStays(z.down, Close(id), Ignored);
    LandingIs(z);
    LandingIs(w);
    SegsAppend(id, Flying(z.pw, z.down), Close(id));
    OneLane(id, Flying(z.pw, z.down));
  }

  /** A session the server lists that forwards can fail, and its CLOSE then reaches the new client. */
  lemma FailsUpon(z: Sys, id: u16, k: nat)
    requires Held(z) && Intact(z) && k < |Of(z.lines, id)| - 1 && Of(z.lines, id)[k].s.phase == SForward
    requires var l := Of(z.lines, id); Unserved(l[|l| - 1]) && Listens(z.cfg, l[|l| - 1].c)
    ensures CanTouch(z, id)
  {
    hide Inv, Dry, Still, IsRun, Run, AliveAt, Heard, Listens, Unserved, Meddled, Landing, Segs, Patient;
    hide Flying, Handlers, Send;
    var e := ServerFailed(id);
    var l := Of(z.lines, id);
    CoreLine(z, id);
    NoneElse(z.cfg, id, l, AirOf(z), k);
    var w := Step(z, e);
    StepKeeps(z, e);
    StepDry(z, e);
    ClosesBack(z, w, id);
    var more := DownDrains(w, id);
    Prepended(z, e, more, id);
  }

  lemma OwesOff(y: Sys, id: u16, k: nat)
    requires Inv(y) && k < |Of(y.lines, id)| && Owes(Of(y.lines, id)[k])
    requires var p := Of(y.lines, id)[k]; p.s.phase != SForward && !MayReturn(p)
    ensures OffList(y, id, k, Over)
  {
    hide Core, PipeOk, Flying, Handlers, UpLane, HU, HD, UpLink, ClientShape;
    Facts(y, id, k);
  }

  lemma TouchesLater(y: Sys, id: u16, k: nat)
    requires Held(y) && Intact(y) && k < |Of(y.lines, id)| - 1 && MaySend(Of(y.lines, id)[k])
    requires var l := Of(y.lines, id); Unused(l[|l| - 1]) && Unserved(l[|l| - 1]) && Listens(y.cfg, l[|l| - 1].c)
    ensures CanTouch(y, id)
  {
    hide Inv, Dry, IsRun, Run, Owes, MayReturn, Unused, Unserved, Listens, Heard, CanReturn;
    var p := Of(y.lines, id)[k];
    if MayReturn(p) {
      ErasesLater(y, id, k);
      var es :| IsRun(y, es) && NoReopening(es, id) && ErasedIn(Of(Run(y, es).lines, id));
    } else if p.s.phase == SForward {
      FailsUpon(y, id, k);
    } else {
      OwesOff(y, id, k);
      CreditsLater(y, id, k);
    }
  }

  /** It can be touched at all, by an acknowledgement, bytes or a CLOSE of a former session, if and only if
      something of the id can still reach the client, or the server has the connection and some former
      session may return, is forwarding, or owes an acknowledgement. */
  lemma TouchIff(cfg: Config, pw: bytes, es: seq<Event>, id: u16)
    requires Configured(Start(cfg, pw)) && IsRun(Start(cfg, pw), es) && Enabled(After(cfg, pw, es), Opened(id))
    ensures var y := After(cfg, pw, es); var l := Of(y.lines, id);
      CanTouch(Step(y, Opened(id)), id) <==>
        !Silent(y, id) || (!y.down.cache.destroyed && exists k :: 0 <= k < |l| && MaySend(l[k]))
  {
    hide Inv, Dry, Step, IsRun, Run, Configured, MaySend, Mute, Meddled, Unused, Unserved, Listens, Heard, Silent;
    hide IsCalm, Still;
    var y := After(cfg, pw, es);
    var z, l := Step(y, Opened(id)), Of(y.lines, id);
    EveryRun(cfg, pw, es);
    OpenedLine(y, id);
    FreshLine(y.cfg, l);
    SameDown(y, z, id);
    if !Silent(y, id) {
      var more := DownDrains(z, id);
    } else if !y.down.cache.destroyed && exists k :: 0 <= k < |l| && MaySend(l[k]) {
      var k :| 0 <= k < |l| && MaySend(l[k]);
      TouchesLater(z, id, k);
    } else {
      forall k | 0 <= k < |l|
        ensures z.down.cache.destroyed || Mute(Of(z.lines, id)[k])
      {
        FormerFacts(z, id, k);
      }
      forall more | IsRun(z, more) && NoReopening(more, id)
        ensures !TouchedIn(z.cfg, Of(Run(z, more).lines, id))
      {
        RunUnreached(z, more, id);
        RunConfig(z, more);
      }
    }
  }

  /** Where the way back is clear that leaves the sessions off the list. */
  lemma WhenClear(y: Sys, id: u16, k: nat)
    requires Inv(y) && WayClear(y.lines, AirOf(y), id) && k < |Of(y.lines, id)|
    ensures var p := Of(y.lines, id)[k];
      Silent(y, id) && (MayReturn(p) <==> CanReturn(p.s)) && (MaySend(p) <==> CanReturn(p.s) || Owes(p))
  {
    hide PairOk, Core, PipeOk, Flying, Handlers, UpLane, HU, HD, Ordered, Segs, Landing, Owes, CanReturn;
    var l := Of(y.lines, id);
    LandingIs(y);
    LineOf(y.cfg, y.lines, AirOf(y), id);
    assert OpeningOk(y.cfg, id, l, k, AirOf(y)) && OpeningOk(y.cfg, id, l, |l| - 1, AirOf(y));
    var rest := AirOf(y).down[|Landing(y)|..];
    assert AirOf(y).down == Landing(y) + rest;
    SilentPrefix(id, Landing(y), rest);
  }

  // ---- runs that meet it ----

  /** Id 0 may be opened again, with the way back clear, while its last session still owes, for good ended. */
  predicate ReusedInDebt(y: Sys) {
    Intact(y) && Enabled(y, Opened(0)) && Patient(y, Opened(0), 0) && Of(y.lines, 0) != [] && Owes(LastOf(y, 0))
  }

  /** The target has failed while one frame was being written, and the client has heard of it. */
  function Failing(cfg: Config): (p: Pair) {
    var p := Writing(cfg, 1);
    Pair(COnClose(p.c), SEnd(p.s, Failed), 0, 0)
  }

  lemma FailingOwes(cfg: Config, pw: bytes)
    ensures ReusedInDebt(At(cfg, pw, Failing(cfg)))
  {
    hide TryRead;
    var p := Failing(cfg);
    var y := At(cfg, pw, p);
    IdleAir(y);
    EmptyAir(0, 1);
    assert Of(y.lines, 0) == [p];
  }

  lemma Fails(cfg: Config, pw: bytes, p: Pair)
    requires p.s.phase == SConnect || p.s.phase == SForward
    ensures Reaches(At(cfg, pw, p), At(cfg, pw, p.(c := COnClose(p.c), s := SEnd(p.s, Failed))))
  {
    hide Reaches, Send, Encode, TryRead, COnClose;
    assert AliveAt([p]) == 0;
    SmallFits(Close(0));
    ServerActs(At(cfg, pw, p), p, ServerFailed(0), SEnd(p.s, Failed), Close(0), Ignored);
  }

  /** There are such runs, whatever the windows: a target that fails while it is written to. */
  lemma OwesAtReuse(cfg: Config, pw: bytes)
    requires Configured(Start(cfg, pw))
    ensures exists es :: IsRun(Start(cfg, pw), es) && IsCalm(Start(cfg, pw), es, 0) && ReusedInDebt(After(cfg, pw, es))
  {
    hide Reaches, Configured, Run, IsRun, IsCalm, ReusedInDebt;
    var z := At(cfg, pw, Failing(cfg));
    WritesAll(cfg, pw, 1);
    Fails(cfg, pw, Writing(cfg, 1));
    Then(Start(cfg, pw), At(cfg, pw, Writing(cfg, 1)), z);
    FailingOwes(cfg, pw);
    var es := RunTo(Start(cfg, pw), z);
    assert ReusedInDebt(After(cfg, pw, es));
  }

  /** The target was not reached in time, and the client has heard of it; the connect may still complete. */
  function TimedOut(cfg: Config): (p: Pair) {
    var p := Waiting(cfg, 0);
    p.(c := COnClose(p.c), s := SEnd(p.s, Failed))
  }

  lemma TimesOut(cfg: Config, pw: bytes)
    requires Configured(Start(cfg, pw))
    ensures Reaches(Start(cfg, pw), At(cfg, pw, TimedOut(cfg)))
  {
    hide Reaches, Configured;
    Opens0(cfg, pw);
    Fails(cfg, pw, Waiting(cfg, 0));
    Then(Start(cfg, pw), At(cfg, pw, Waiting(cfg, 0)), At(cfg, pw, TimedOut(cfg)));
  }

  /** A second session under id 0, just opened at both ends, beside a first. */
  function Second(cfg: Config, pw: bytes, s: Server, alien: nat): (y: Sys) {
    var p, n := TimedOut(cfg), NewPair(cfg);
    At(cfg, pw, p).(lines := map[0 := [p.(s := s), Pair(CConnectSent(n.c), SOnConnect(cfg), 0, alien)]])
  }

  lemma ClosedBoth(cfg: Config)
    ensures TimedOut(cfg).c.phase == CClosed && TimedOut(cfg).s.phase == SClosed && TimedOut(cfg).s.life == Due
  {
  }

  lemma ServesSecond(cfg: Config, p: Pair)
    requires p.s.phase == SClosed
    ensures var t: Lines, n := map[0 := [p, NewPair(cfg)]], NewPair(cfg);
      ResumeClient(Serve(cfg, t, Connect(0)), ConnectSent(0, 1)) ==
        map[0 := [p, Pair(CConnectSent(n.c), SOnConnect(cfg), 0, 0)]]
  {
    var n := NewPair(cfg);
    var l := [p, n];
    assert l[1..] == [n] && [n][1..] == [];
    assert AliveAt(l) == 2 && NewAt(l) == 1;
    assert l[1 := n.(s := SOnConnect(cfg))] == [p, n.(s := SOnConnect(cfg))];
    var m, q := [p, n.(s := SOnConnect(cfg))], Pair(CConnectSent(n.c), SOnConnect(cfg), 0, 0);
    assert m[1 := q] == [p, q];
  }

  lemma OpensBeside(cfg: Config, pw: bytes)
    ensures var y := At(cfg, pw, TimedOut(cfg));
      && Enabled(y, Opened(0)) && WayClear(y.lines, AirOf(y), 0)
      && Reaches(Step(y, Opened(0)), Second(cfg, pw, TimedOut(cfg).s, 0))
  {
    hide Reaches, Send, Encode, Waiting, Patient, TryRead;
    var p, n := TimedOut(cfg), NewPair(cfg);
    var y, f, h := At(cfg, pw, TimedOut(cfg)), Connect(0), ConnectSent(0, 1);
    var t: Lines := map[0 := [p, n]];
    assert p.c.phase == CClosed && p.s.phase == SClosed by { ClosedBoth(cfg); }
    IdleAir(y);
    EmptyAir(0, 1);
    assert Of(y.lines, 0) == [p];
    assert [p] + [n] == [p, n];
    assert y.lines[0 := [p, n]] == t;
    assert Step(y, Opened(0)) == y.(lines := t, up := Send(IDLE, f, h));
    SmallFits(f);
    UpTrip(y, t, f, h);
    ServesSecond(cfg, p);
  }

  /** The first session comes back. */
  lemma ComesBack(cfg: Config, pw: bytes)
    ensures var s := TimedOut(cfg).s; Reaches(Second(cfg, pw, s, 0), Second(cfg, pw, SRevived(s), 0))
  {
    hide Reaches, Patient, SConnected, Waiting;
    var s, y, e := TimedOut(cfg).s, Second(cfg, pw, TimedOut(cfg).s, 0), TargetConnectedLate(0, 0);
    ClosedBoth(cfg);
    Unhurried(y, e);
    Takes(y, e);
    var l := y.lines[0];
    assert l[0 := l[0].(s := SRevived(s))] == [l[0].(s := SRevived(s)), l[1]];
    assert y.lines[0 := [l[0].(s := SRevived(s)), l[1]]] == Second(cfg, pw, SRevived(s), 0).lines;
    assert Step(y, e) == Second(cfg, pw, SRevived(s), 0);
  }

  /** And reads a byte, which reaches the second client. */
  function Misleading(cfg: Config, pw: bytes): (y: Sys) {
    var r := Second(cfg, pw, SStrayRead(SRevived(TimedOut(cfg).s)), 1);
    r.(lines := Hear(r.lines, Data(0, [7])), down := Unreported(Data(0, [7]), DataSent(0, 0)))
  }

  lemma SevenFits()
    ensures Sendable(Data(0, [7])) && |Encode(Data(0, [7]))| <= RECV_BUF_LENGTH
  {
  }

  lemma RevivedReads(cfg: Config)
    ensures var s := SRevived(TimedOut(cfg).s); s.phase == SClosed && s.life == ForwardStray && s.down.reading
  {
  }

  lemma SecondAlive(cfg: Config, l: seq<Pair>)
    requires |l| == 2 && l[0].s.phase == SClosed && l[1].s == SOnConnect(cfg)
    ensures AliveAt(l) == 1
  {
    assert l[1..] == [l[1]];
  }

  lemma Misleads(cfg: Config, pw: bytes)
    ensures Reaches(Second(cfg, pw, SRevived(TimedOut(cfg).s), 0), Misleading(cfg, pw))
  {
    hide Reaches, Patient, Send, Encode, Hear, Waiting, SRevived, SStrayRead, TimedOut;
    var s := SRevived(TimedOut(cfg).s);
    var y, e, f, h := Second(cfg, pw, s, 0), StrayRead(0, 0, [7]), Data(0, [7]), DataSent(0, 0);
    RevivedReads(cfg);
    var l := y.lines[0];
    assert AliveAt(l) == 1 by { SecondAlive(cfg, l); }
    var m := [l[0].(s := SStrayRead(s)), l[1].(alien := 1)];
    assert l[0 := m[0]][1 := m[1]] == m;
    var t := Second(cfg, pw, SStrayRead(s), 1).lines;
    assert y.lines[0 := m] == t;
    Unhurried(y, e);
    Takes(y, e);
    var z := y.(lines := t, down := Send(IDLE, f, h));
    assert Step(y, e) == z;
    SevenFits();
    DownArrives(y, t, f, h);
    Then(y, z, Misleading(cfg, pw));
  }

  /** The client of the session that has id 0 holds bytes that its own server session never read. */
  predicate Misled(y: Sys) {
    Of(y.lines, 0) != [] && var p := LastOf(y, 0); CAlive(p.c) && p.c.down.inbox.queue != [] && p.s.down.taken == []
  }

  lemma MisledAtLast(cfg: Config, pw: bytes)
    ensures Misled(Misleading(cfg, pw))
  {
    hide TimedOut, SRevived;
    var r := Second(cfg, pw, SStrayRead(SRevived(TimedOut(cfg).s)), 1);
    assert Of(r.lines, 0) == r.lines[0] && |r.lines[0]| == 2;
  }

  /** For every configuration there is such a run, in which id 0 is opened twice and the second time with
      the way back clear, after the first session was ended while its target was being connected. */
  lemma StrayBytes(cfg: Config, pw: bytes) returns (first: seq<Event>, more: seq<Event>)
    requires Configured(Start(cfg, pw))
    ensures IsRun(Start(cfg, pw), first) && IsCalm(Start(cfg, pw), first, 0)
    ensures var y := After(cfg, pw, first);
      && Enabled(y, Opened(0)) && WayClear(y.lines, AirOf(y), 0) && Of(y.lines, 0) != [] && !Owes(LastOf(y, 0))
      && IsRun(Step(y, Opened(0)), more) && Misled(Run(Step(y, Opened(0)), more))
  {
    hide Reaches, Configured, Run, IsRun, IsCalm, Misled, Misleading, Second, SRevived, Enabled, Step;
    var y := At(cfg, pw, TimedOut(cfg));
    TimesOut(cfg, pw);
    first := RunTo(Start(cfg, pw), y);
    OpensBeside(cfg, pw);
    ComesBack(cfg, pw);
    Misleads(cfg, pw);
    var s, z := TimedOut(cfg).s, Step(y, Opened(0));
    Then(z, Second(cfg, pw, s, 0), Second(cfg, pw, SRevived(s), 0));
    Then(z, Second(cfg, pw, SRevived(s), 0), Misleading(cfg, pw));
    more := RunTo(z, Misleading(cfg, pw));
    MisledAtLast(cfg, pw);
    assert !Owes(TimedOut(cfg));
  }
}
