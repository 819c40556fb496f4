/** The frames and handlers in flight, sorted by session, and the invariants of all sessions at once. An
    id can be used by many sessions one after the other: all openings of an id form a line. */
module Flight {
  import opened Bytes
  import opened Frames
  import opened SendCache
  import opened Session
  import opened SessionSteps

  predicate Mine(id: u16, f: Frame) {
    !f.Icmp? && f.id == id
  }

  function Ahead(f: Frame, l: Lane): (r: Lane) {
    match f
    case Data(_, p) => l.(datas := [p] + l.datas)
    case Ack(_, n) => l.(acks := n + l.acks)
    case Close(_) => l.(close := true)
    case _ => l
  }

  function Behind(l: Lane, f: Frame): (r: Lane) {
    match f
    case Data(_, p) => l.(datas := l.datas + [p])
    case Ack(_, n) => l.(acks := l.acks + n)
    case Close(_) => l.(close := true)
    case _ => l
  }

  /** The frames of one id in a stream, cut at its CONNECTs: a lane for the session the receiver has, and
      one for every session still to be opened there. */
  function Segs(id: u16, fs: seq<Frame>): (g: seq<Lane>)
    ensures g != []
  {
    if fs == [] then [NoLane]
    else
      var g := Segs(id, fs[1..]);
      if !Mine(id, fs[0]) then g
      else if fs[0].Connect? then [NoLane] + g
      else g[0 := Ahead(fs[0], g[0])]
  }

  /** Nothing of a session follows its CLOSE. */
  predicate Ordered(id: u16, fs: seq<Frame>) {
    fs != [] ==>
      && Ordered(id, fs[1..])
      && (Mine(id, fs[0]) && fs[0].Close? ==> Segs(id, fs[1..])[0] == NoLane)
  }

  /** No payload is empty. */
  predicate Loaded(fs: seq<Frame>) {
    forall i :: 0 <= i < |fs| && fs[i].Data? ==> fs[i].payload != []
  }

  /** The server opens no sessions. */
  predicate Downward(fs: seq<Frame>) {
    Loaded(fs) && forall i :: 0 <= i < |fs| ==> !fs[i].Connect?
  }

  lemma AheadBehind(f: Frame, l: Lane, g: Frame)
    ensures Ahead(f, Behind(l, g)) == Behind(Ahead(f, l), g)
  {
  }

  lemma AloneIsBoth(f: Frame)
    ensures Ahead(f, NoLane) == Behind(NoLane, f)
  {
  }

  lemma {:induction false} SegsAppend(id: u16, fs: seq<Frame>, f: Frame)
    ensures var g := Segs(id, fs);
      Segs(id, fs + [f]) ==
        if !Mine(id, f) then g else if f.Connect? then g + [NoLane] else g[|g| - 1 := Behind(g[|g| - 1], f)]
  {
    hide Ahead, Behind;
    if fs == [] {
      assert [f][1..] == [] && fs + [f] == [f];
      AloneIsBoth(f);
    } else {
      assert (fs + [f])[1..] == fs[1..] + [f];
      SegsAppend(id, fs[1..], f);
      AheadBehind(fs[0], Segs(id, fs[1..])[0], f);
    }
  }

  lemma {:induction false} OrderedAppend(id: u16, fs: seq<Frame>, f: Frame)
    requires Ordered(id, fs)
    requires Mine(id, f) && !f.Connect? ==> !Segs(id, fs)[|Segs(id, fs)| - 1].close
    ensures Ordered(id, fs + [f])
  {
    if fs == [] {
      assert [f][1..] == [] && fs + [f] == [f];
    } else {
      assert (fs + [f])[1..] == fs[1..] + [f];
      OrderedAppend(id, fs[1..], f);
      SegsAppend(id, fs[1..], f);
    }
  }

  // ---- handlers ----

  function Plus(h: Handler, k: Pending): (r: Pending) {
    match h
    case ConnectSent(_, _) => k.(conn := k.conn + 1)
    case DataSent(_, _) => k.(data := k.data + 1)
    case AckSent(_, _) => k.(ack := k.ack + 1)
    case Ignored => k
  }

  /** The handlers pending with one more, unless it resumes nothing. */
  function PlusOne(h: Handler, k: Pending): (r: Pending) {
    if h == Ignored then k else Plus(h, k)
  }

  predicate Owns(id: u16, i: nat, h: Handler) {
    h != Ignored && h.id == id && h.opening == i
  }

  function PendingOf(id: u16, i: nat, hs: seq<Handler>): (k: Pending) {
    if hs == [] then NoHandlers
    else if Owns(id, i, hs[0]) then Plus(hs[0], PendingOf(id, i, hs[1..]))
    else PendingOf(id, i, hs[1..])
  }

  lemma {:induction false} PendingAppend(id: u16, i: nat, hs: seq<Handler>, h: Handler)
    ensures PendingOf(id, i, hs + [h]) == if Owns(id, i, h) then Plus(h, PendingOf(id, i, hs)) else PendingOf(id, i, hs)
  {
    if hs == [] {
      assert [h][1..] == [] && hs + [h] == [h];
    } else {
      assert (hs + [h])[1..] == hs[1..] + [h];
      PendingAppend(id, i, hs[1..], h);
    }
  }

  // ---- lines ----

  /** All openings of every id, the oldest first. */
  type Lines = map<u16, seq<Pair>>

  function Of(t: Lines, id: u16): (l: seq<Pair>) {
    if id in t then t[id] else []
  }

  /** The frames in flight each way and the handlers pending at each end. */
  datatype Air = Air(up: seq<Frame>, down: seq<Frame>, hup: seq<Handler>, hdown: seq<Handler>)

  /** The lane of opening `i` of `n`: the last lane is that of the last opening, and openings the server
      has done with have none. */
  function LaneFor(g: seq<Lane>, n: nat, i: nat): (l: Lane) {
    if i + |g| < n || i >= n then NoLane else g[i + |g| - n]
  }

  function UpLane(id: u16, n: nat, i: nat, a: Air): (l: Lane) {
    LaneFor(Segs(id, a.up), n, i)
  }

  function DownLane(id: u16, a: Air): (l: Lane) {
    Segs(id, a.down)[0]
  }

  function HU(id: u16, i: nat, a: Air): (k: Pending) {
    PendingOf(id, i, a.hup)
  }

  function HD(id: u16, i: nat, a: Air): (k: Pending) {
    PendingOf(id, i, a.hdown)
  }

  /** CONNECTs of an id on their way. */
  function Coming(id: u16, a: Air): (n: nat) {
    |Segs(id, a.up)| - 1
  }

  /** Opening `i` of a line: its CONNECT is on the way exactly while the server does not know it, only the
      last client session lives, and the server has ended all sessions before the one it knows last. */
  ghost predicate OpeningOk(cfg: Config, id: u16, l: seq<Pair>, i: nat, a: Air)
    requires i < |l|
  {
    && (l[i].s.phase == SNone <==> i + Coming(id, a) >= |l|)
    && (i < |l| - 1 ==> l[i].c.phase == CClosed)
    && (i + Coming(id, a) < |l| - 1 ==> l[i].s.phase == SClosed)
    && PairOk(cfg, l[i], UpLane(id, |l|, i, a), HU(id, i, a), HD(id, i, a))
  }

  ghost predicate LineOk(cfg: Config, id: u16, l: seq<Pair>, a: Air) {
    && Coming(id, a) <= |l|
    && (forall i :: 0 <= i < |l| ==> OpeningOk(cfg, id, l, i, a))
    && (forall i: nat :: i >= |l| ==> HU(id, i, a) == NoHandlers && HD(id, i, a) == NoHandlers)
    && Ordered(id, a.up)
  }

  /** What every run keeps. */
  ghost predicate Core(cfg: Config, t: Lines, a: Air) {
    && Loaded(a.up) && Downward(a.down)
    && (forall id: u16 :: LineOk(cfg, id, Of(t, id), a))
  }

  /** The server has ended this session for good, and its client wrote only what the target had sent. */
  predicate Past(p: Pair) {
    p.s.phase == SClosed && !CanReturn(p.s) && p.c.down.written + p.c.down.wdata <= p.s.down.taken
  }

  /** What holds of a line as long as its id is not opened again before the way back is clear. */
  ghost predicate CalmLine(cfg: Config, id: u16, l: seq<Pair>, a: Air, intact: bool) {
    && Ordered(id, a.down)
    && (l == [] ==> DownLane(id, a) == NoLane)
    && (forall i :: 0 <= i < |l| - 1 ==> Past(l[i]))
    && (l != [] ==> DownOk(cfg, l[|l| - 1], UpLane(id, |l|, |l| - 1, a), DownLane(id, a), intact))
  }

  /** Every calm line stays calm. */
  ghost predicate KeepsCalm(cfg: Config, t: Lines, a: Air, intact: bool, u: Lines, b: Air, after: bool) {
    forall x: u16 :: CalmLine(cfg, x, Of(t, x), a, intact) ==> CalmLine(cfg, x, Of(u, x), b, after)
  }

  /** Every calm line but that of one id does. */
  ghost predicate OthersCalm(cfg: Config, t: Lines, a: Air, intact: bool, u: Lines, b: Air, after: bool, id: u16) {
    forall x: u16 :: x != id && CalmLine(cfg, x, Of(t, x), a, intact) ==> CalmLine(cfg, x, Of(u, x), b, after)
  }

  // ---- one line changes, the others do not ----

  ghost predicate SameFor(id: u16, a: Air, b: Air) {
    && Segs(id, a.up) == Segs(id, b.up) && Segs(id, a.down) == Segs(id, b.down)
    && (Ordered(id, a.up) ==> Ordered(id, b.up)) && (Ordered(id, a.down) ==> Ordered(id, b.down))
    && (forall i :: HU(id, i, a) == HU(id, i, b) && HD(id, i, a) == HD(id, i, b))
  }

  lemma SameLine(cfg: Config, id: u16, l: seq<Pair>, a: Air, b: Air, intact: bool)
    requires SameFor(id, a, b)
    ensures LineOk(cfg, id, l, a) ==> LineOk(cfg, id, l, b)
    ensures CalmLine(cfg, id, l, a, intact) ==> CalmLine(cfg, id, l, b, intact)
  {
    hide PairOk, DownOk, Segs, Ordered, PendingOf;
    if LineOk(cfg, id, l, a) {
      forall i | 0 <= i < |l|
        ensures OpeningOk(cfg, id, l, i, b)
      {
        assert OpeningOk(cfg, id, l, i, a);
      }
    }
  }

  lemma CoreStep(cfg: Config, t: Lines, a: Air, id: u16, l: seq<Pair>, b: Air)
    requires Core(cfg, t, a) && LineOk(cfg, id, l, b) && Loaded(b.up) && Downward(b.down)
    requires forall x: u16 :: x != id ==> SameFor(x, a, b)
    ensures Core(cfg, t[id := l], b)
  {
    hide LineOk, CalmLine, SameFor, Loaded, Downward;
    var after := t[id := l];
    forall x: u16
      ensures LineOk(cfg, x, Of(after, x), b)
    {
      if x != id {
        SameLine(cfg, x, Of(t, x), a, b, true);
      }
    }
  }

  lemma CalmStep(cfg: Config, t: Lines, a: Air, id: u16, l: seq<Pair>, b: Air, intact: bool)
    requires forall x: u16 :: x != id ==> SameFor(x, a, b)
    ensures OthersCalm(cfg, t, a, intact, t[id := l], b, intact, id)
    ensures (CalmLine(cfg, id, Of(t, id), a, intact) ==> CalmLine(cfg, id, l, b, intact)) ==>
      KeepsCalm(cfg, t, a, intact, t[id := l], b, intact)
  {
    hide LineOk, CalmLine, SameFor;
    var after := t[id := l];
    forall x: u16 | x != id
      ensures CalmLine(cfg, x, Of(t, x), a, intact) ==> CalmLine(cfg, x, Of(after, x), b, intact)
    {
      SameLine(cfg, x, Of(t, x), a, b, intact);
    }
  }

  /** A frame of no session passes all of them by. */
  lemma Passes(cfg: Config, t: Lines, a: Air, b: Air, intact: bool)
    requires Core(cfg, t, a) && Loaded(b.up) && Downward(b.down) && (forall x: u16 :: SameFor(x, a, b))
    ensures Core(cfg, t, b) && KeepsCalm(cfg, t, a, intact, t, b, intact)
  {
    hide LineOk, CalmLine, SameFor, Loaded, Downward;
    forall x: u16
      ensures LineOk(cfg, x, Of(t, x), b)
      ensures CalmLine(cfg, x, Of(t, x), a, intact) ==> CalmLine(cfg, x, Of(t, x), b, intact)
    {
      SameLine(cfg, x, Of(t, x), a, b, intact);
    }
  }

  /** The other openings of a line keep their lanes and handlers. */
  ghost predicate OnlyOpening(id: u16, n: nat, j: nat, a: Air, b: Air) {
    && Coming(id, a) == Coming(id, b) && Ordered(id, b.up)
    && (forall i: nat :: i != j ==>
          UpLane(id, n, i, a) == UpLane(id, n, i, b) && HU(id, i, a) == HU(id, i, b) && HD(id, i, a) == HD(id, i, b))
  }

  lemma LineUpdate(cfg: Config, id: u16, l: seq<Pair>, a: Air, j: nat, p: Pair, b: Air)
    requires LineOk(cfg, id, l, a) && j < |l| && OnlyOpening(id, |l|, j, a, b)
    requires PairOk(cfg, p, UpLane(id, |l|, j, b), HU(id, j, b), HD(id, j, b))
    requires (p.s.phase == SNone <==> l[j].s.phase == SNone)
    requires (l[j].s.phase == SClosed ==> p.s.phase == SClosed) && (l[j].c.phase == CClosed ==> p.c.phase == CClosed)
    ensures LineOk(cfg, id, l[j := p], b)
  {
    hide PairOk, UpLane, HU, HD, Coming, Ordered;
    var m := l[j := p];
    forall i | 0 <= i < |m|
      ensures OpeningOk(cfg, id, m, i, b)
    {
      assert OpeningOk(cfg, id, l, i, a);
    }
  }

  // ---- frames leaving ----

  lemma SameUnlessPushed(x: u16, fs: seq<Frame>, f: Frame, hs: seq<Handler>, h: Handler)
    requires !Mine(x, f) && (h == Ignored || h.id != x)
    ensures Segs(x, fs + [f]) == Segs(x, fs) && forall i :: PendingOf(x, i, hs + [h]) == PendingOf(x, i, hs)
    ensures Ordered(x, fs) ==> Ordered(x, fs + [f])
  {
    SegsAppend(x, fs, f);
    forall i
      ensures PendingOf(x, i, hs + [h]) == PendingOf(x, i, hs)
    {
      PendingAppend(x, i, hs, h);
    }
    if Ordered(x, fs) {
      OrderedAppend(x, fs, f);
    }
  }

  function PushUp(a: Air, f: Frame, h: Handler): (b: Air) {
    a.(up := a.up + [f], hup := a.hup + [h])
  }

  function PushDown(a: Air, f: Frame, h: Handler): (b: Air) {
    a.(down := a.down + [f], hdown := a.hdown + [h])
  }

  lemma PushedOthers(a: Air, f: Frame, h: Handler, id: u16)
    requires f.Icmp? || f.id == id
    requires h == Ignored || h.id == id
    ensures forall x: u16 :: x != id ==> SameFor(x, a, PushUp(a, f, h)) && SameFor(x, a, PushDown(a, f, h))
    ensures f.Icmp? && h == Ignored ==>
      forall x: u16 :: SameFor(x, a, PushUp(a, f, h)) && SameFor(x, a, PushDown(a, f, h))
  {
    hide Segs, Ordered, PendingOf;
    forall x: u16 | x != id || (f.Icmp? && h == Ignored)
      ensures SameFor(x, a, PushUp(a, f, h)) && SameFor(x, a, PushDown(a, f, h))
    {
      SameUnlessPushed(x, a.up, f, a.hup, h);
      SameUnlessPushed(x, a.down, f, a.hdown, h);
    }
  }

  /** The frame joins the lane of the last opening, the handler those of its own. */
  lemma PushedUp(id: u16, l: seq<Pair>, a: Air, f: Frame, h: Handler, j: nat)
    requires l != [] && j == |l| - 1 && Mine(id, f) && !f.Connect? && (h == Ignored || Owns(id, j, h))
    requires Coming(id, a) <= |l| && Ordered(id, a.up) && !UpLane(id, |l|, j, a).close
    ensures var b := PushUp(a, f, h);
      && OnlyOpening(id, |l|, j, a, b) && DownLane(id, b) == DownLane(id, a)
      && UpLane(id, |l|, j, b) == Behind(UpLane(id, |l|, j, a), f) && HD(id, j, b) == HD(id, j, a)
      && HU(id, j, b) == PlusOne(h, HU(id, j, a))
  {
    hide Segs, Ordered, PendingOf, Behind, Plus;
    var b := PushUp(a, f, h);
    SegsAppend(id, a.up, f);
    OrderedAppend(id, a.up, f);
    forall i: nat
      ensures HU(id, i, b) == if Owns(id, i, h) then Plus(h, HU(id, i, a)) else HU(id, i, a)
    {
      PendingAppend(id, i, a.hup, h);
    }
  }

  lemma {:induction false} OneLane(id: u16, fs: seq<Frame>)
    requires Downward(fs)
    ensures |Segs(id, fs)| == 1
  {
    if fs != [] {
      assert !fs[0].Connect?;
      OneLane(id, fs[1..]);
    }
  }

  lemma PushedDown(id: u16, l: seq<Pair>, a: Air, f: Frame, h: Handler, j: nat)
    requires j < |l| && Mine(id, f) && !f.Connect? && (h == Ignored || Owns(id, j, h))
    requires Ordered(id, a.up) && Downward(a.down)
    ensures var b := PushDown(a, f, h);
      && OnlyOpening(id, |l|, j, a, b) && UpLane(id, |l|, j, b) == UpLane(id, |l|, j, a)
      && DownLane(id, b) == Behind(DownLane(id, a), f) && HU(id, j, b) == HU(id, j, a)
      && HD(id, j, b) == PlusOne(h, HD(id, j, a))
      && (Ordered(id, a.down) && !DownLane(id, a).close ==> Ordered(id, b.down))
  {
    hide Segs, Ordered, PendingOf, Behind, Plus, Downward;
    var b := PushDown(a, f, h);
    SegsAppend(id, a.down, f);
    OneLane(id, a.down);
    if Ordered(id, a.down) && !DownLane(id, a).close {
      OrderedAppend(id, a.down, f);
    }
    forall i: nat
      ensures HD(id, i, b) == if Owns(id, i, h) then Plus(h, HD(id, i, a)) else HD(id, i, a)
    {
      PendingAppend(id, i, a.hdown, h);
    }
  }

  /** A client callback that sends one frame. */
  lemma ClientSends(cfg: Config, t: Lines, a: Air, id: u16, c: Client, f: Frame, h: Handler, intact: bool)
    requires Core(cfg, t, a) && Of(t, id) != []
    requires Mine(id, f) && !f.Connect? && (f.Data? ==> f.payload != [])
    requires var l := Of(t, id); var j := |l| - 1; var u := UpLane(id, |l|, j, a);
      && CAlive(l[j].c) && (h == Ignored || Owns(id, j, h)) && !u.close
      && PairOk(cfg, l[j].(c := c), Behind(u, f), PlusOne(h, HU(id, j, a)), HD(id, j, a))
    ensures var l := Of(t, id); var j := |l| - 1; var after := t[id := l[j := l[j].(c := c)]];
      && Core(cfg, after, PushUp(a, f, h))
      && ((CalmLine(cfg, id, l, a, intact) ==>
             DownOk(cfg, l[j].(c := c), Behind(UpLane(id, |l|, j, a), f), DownLane(id, a), intact)) ==>
            KeepsCalm(cfg, t, a, intact, after, PushUp(a, f, h), intact))
  {
    hide PairOk, DownOk, UpLane, HU, HD, DownLane, Behind, Plus, Ordered, OnlyOpening, SameFor;
    var l, b := Of(t, id), PushUp(a, f, h);
    var j := |l| - 1;
    assert LineOk(cfg, id, l, a) && OpeningOk(cfg, id, l, j, a);
    PushedUp(id, l, a, f, h, j);
    PushedOthers(a, f, h, id);
    var m := l[j := l[j].(c := c)];
    LineUpdate(cfg, id, l, a, j, m[j], b);
    CoreStep(cfg, t, a, id, m, b);
    CalmStep(cfg, t, a, id, m, b, intact);
  }

  /** A server callback that sends one frame. */
  lemma ServerSends(cfg: Config, t: Lines, a: Air, id: u16, j: nat, s: Server, f: Frame, h: Handler, intact: bool)
    requires Core(cfg, t, a) && j < |Of(t, id)|
    requires Mine(id, f) && !f.Connect? && (f.Data? ==> f.payload != []) && (h == Ignored || Owns(id, j, h))
    requires var l := Of(t, id);
      && l[j].s.phase != SNone && s.phase != SNone && (l[j].s.phase == SClosed ==> s.phase == SClosed)
      && PairOk(cfg, l[j].(s := s), UpLane(id, |l|, j, a), HU(id, j, a), PlusOne(h, HD(id, j, a)))
    ensures var l := Of(t, id); var after := t[id := l[j := l[j].(s := s)]];
      && Core(cfg, after, PushDown(a, f, h))
      && ((CalmLine(cfg, id, l, a, intact) ==>
             && j == |l| - 1 && !DownLane(id, a).close
             && DownOk(cfg, l[j].(s := s), UpLane(id, |l|, j, a), Behind(DownLane(id, a), f), intact)) ==>
            KeepsCalm(cfg, t, a, intact, after, PushDown(a, f, h), intact))
  {
    hide PairOk, DownOk, UpLane, HU, HD, DownLane, Behind, Plus, Ordered, OnlyOpening, SameFor;
    var l, b := Of(t, id), PushDown(a, f, h);
    assert LineOk(cfg, id, l, a) && OpeningOk(cfg, id, l, j, a);
    PushedDown(id, l, a, f, h, j);
    PushedOthers(a, f, h, id);
    var m := l[j := l[j].(s := s)];
    LineUpdate(cfg, id, l, a, j, m[j], b);
    CoreStep(cfg, t, a, id, m, b);
    CalmStep(cfg, t, a, id, m, b, intact);
  }

  /** A callback that only changes its own opening. */
  lemma StaysLocal(cfg: Config, t: Lines, a: Air, id: u16, j: nat, p: Pair, intact: bool)
    requires Core(cfg, t, a) && j < |Of(t, id)|
    requires var l := Of(t, id);
      && (p.s.phase == SNone <==> l[j].s.phase == SNone)
      && (l[j].s.phase == SClosed ==> p.s.phase == SClosed) && (l[j].c.phase == CClosed ==> p.c.phase == CClosed)
      && PairOk(cfg, p, UpLane(id, |l|, j, a), HU(id, j, a), HD(id, j, a))
    ensures Core(cfg, t[id := Of(t, id)[j := p]], a)
    ensures var l := Of(t, id);
      (CalmLine(cfg, id, l, a, intact) ==>
         && (j < |l| - 1 ==> Past(p))
         && (j == |l| - 1 ==> DownOk(cfg, p, UpLane(id, |l|, j, a), DownLane(id, a), intact))) ==>
        KeepsCalm(cfg, t, a, intact, t[id := l[j := p]], a, intact)
  {
    hide PairOk, DownOk, UpLane, HU, HD, DownLane, Ordered;
    var l := Of(t, id);
    assert LineOk(cfg, id, l, a) && OpeningOk(cfg, id, l, j, a);
    var m := l[j := p];
    LineUpdate(cfg, id, l, a, j, p, a);
    CoreStep(cfg, t, a, id, m, a);
    CalmStep(cfg, t, a, id, m, a, intact);
  }

  lemma EndsPast(cfg: Config, p: Pair, u: Lane, d: Lane, intact: bool)
    requires DownOk(cfg, p, u, d, intact) && p.c.phase == CClosed && p.s.phase == SClosed && !CanReturn(p.s)
    ensures Past(p)
  {
  }

  /** The server has the last session under the id off its list, and nothing is on its way back. */
  predicate WayClear(t: Lines, a: Air, id: u16) {
    var l := Of(t, id);
    l != [] ==> l[|l| - 1].s.phase == SClosed && DownLane(id, a) == NoLane
  }

  /** So it is, and that session cannot return. */
  predicate Reusable(t: Lines, a: Air, id: u16) {
    var l := Of(t, id);
    WayClear(t, a, id) && (l != [] ==> !CanReturn(l[|l| - 1].s))
  }

  /** A new session under an id whose last client session is gone. */
  lemma Opens(cfg: Config, t: Lines, a: Air, id: u16, intact: bool)
    requires Core(cfg, t, a)
    requires var l := Of(t, id); l != [] ==> l[|l| - 1].c.phase == CClosed
    ensures var l := Of(t, id); var b := PushUp(a, Connect(id), ConnectSent(id, |l|));
      && Core(cfg, t[id := l + [NewPair(cfg)]], b)
      && OthersCalm(cfg, t, a, intact, t[id := l + [NewPair(cfg)]], b, intact, id)
      && (Reusable(t, a, id) ==> KeepsCalm(cfg, t, a, intact, t[id := l + [NewPair(cfg)]], b, intact))
  {
    hide PairOk, DownOk, Segs, Ordered, PendingOf;
    var l := Of(t, id);
    var n, m, b := |l|, l + [NewPair(cfg)], PushUp(a, Connect(id), ConnectSent(id, |l|));
    assert LineOk(cfg, id, l, a);
    SegsAppend(id, a.up, Connect(id));
    OrderedAppend(id, a.up, Connect(id));
    Fresh(cfg, intact);
    forall i: nat
      ensures HU(id, i, b) == (if i == n then Plus(ConnectSent(id, n), HU(id, i, a)) else HU(id, i, a))
    {
      PendingAppend(id, i, a.hup, ConnectSent(id, n));
    }
    forall i | 0 <= i < |m|
      ensures OpeningOk(cfg, id, m, i, b)
    {
      assert i < n ==> OpeningOk(cfg, id, l, i, a) && m[i] == l[i];
    }
    PushedOthers(a, Connect(id), ConnectSent(id, n), id);
    CoreStep(cfg, t, a, id, m, b);
    if CalmLine(cfg, id, l, a, intact) && Reusable(t, a, id) {
      if n > 0 {
        EndsPast(cfg, l[n - 1], UpLane(id, n, n - 1, a), DownLane(id, a), intact);
      }
      assert CalmLine(cfg, id, m, b, intact);
    }
    CalmStep(cfg, t, a, id, m, b, intact);
  }

  /** A frame of no session. */
  lemma Icmps(cfg: Config, t: Lines, a: Air, p: bytes, intact: bool)
    requires Core(cfg, t, a)
    ensures Core(cfg, t, PushUp(a, Icmp(p), Ignored)) && Core(cfg, t, PushDown(a, Icmp(p), Ignored))
    ensures KeepsCalm(cfg, t, a, intact, t, PushUp(a, Icmp(p), Ignored), intact)
    ensures KeepsCalm(cfg, t, a, intact, t, PushDown(a, Icmp(p), Ignored), intact)
  {
    hide LineOk, CalmLine, SameFor;
    PushedOthers(a, Icmp(p), Ignored, 0);
    Passes(cfg, t, a, PushUp(a, Icmp(p), Ignored), intact);
    Passes(cfg, t, a, PushDown(a, Icmp(p), Ignored), intact);
  }

  // ---- frames arriving ----

  /** The session of a line the server has, or the length. */
  function AliveAt(l: seq<Pair>): (j: nat)
    ensures j <= |l| && (j < |l| ==> SAlive(l[j].s))
    ensures forall i :: 0 <= i < j ==> !SAlive(l[i].s)
  {
    if l == [] then 0 else if SAlive(l[0].s) then 0 else 1 + AliveAt(l[1..])
  }

  /** The first session of a line the server does not know yet, or the length. */
  function NewAt(l: seq<Pair>): (j: nat)
    ensures j <= |l| && (j < |l| ==> l[j].s.phase == SNone)
    ensures forall i :: 0 <= i < j ==> l[i].s.phase != SNone
  {
    if l == [] then 0 else if l[0].s.phase == SNone then 0 else 1 + NewAt(l[1..])
  }

  function Evicted(l: seq<Pair>): (r: seq<Pair>)
    ensures |r| == |l|
  {
    var j := AliveAt(l);
    if j < |l| then l[j := l[j].(s := SEnd(l[j].s, Failed))] else l
  }

  function OnServer(cfg: Config, s: Server, f: Frame): (r: Server) {
    match f
    case Data(_, d) => SOnData(cfg, s, d)
    case Ack(_, n) => SOnAck(s, n)
    case Close(_) => SOnClose(s)
    case _ => s
  }

  /** The server's dispatch of a frame: a CONNECT ends the session that has the id and starts the next
      one; anything else goes to the session that has the id. */
  function ServeLine(cfg: Config, l: seq<Pair>, f: Frame): (r: seq<Pair>) {
    if f.Connect? then
      var e := Evicted(l);
      var k := NewAt(e);
      if k < |e| then e[k := e[k].(s := SOnConnect(cfg))] else e
    else
      var j := AliveAt(l);
      if j < |l| then l[j := l[j].(s := OnServer(cfg, l[j].s, f))] else l
  }

  function Serve(cfg: Config, t: Lines, f: Frame): (r: Lines) {
    if f.Icmp? then t else t[f.id := ServeLine(cfg, Of(t, f.id), f)]
  }

  /** A CONNECT would be taken for an empty data frame. */
  function OnClient(c: Client, f: Frame): (r: Client) {
    match f
    case Connect(_) => COnData(c, [])
    case Data(_, d) => COnData(c, d)
    case Ack(_, n) => COnAck(c, n)
    case Close(_) => COnClose(c)
    case Icmp(_) => c
  }

  /** The client's dispatch of a frame, to the session that has the id. */
  function HearLine(l: seq<Pair>, f: Frame): (r: seq<Pair>) {
    if l == [] then l else l[|l| - 1 := l[|l| - 1].(c := OnClient(l[|l| - 1].c, f))]
  }

  function Hear(t: Lines, f: Frame): (r: Lines) {
    if f.Icmp? then t else t[f.id := HearLine(Of(t, f.id), f)]
  }

  function PopUp(a: Air): (b: Air)
    requires a.up != []
  {
    a.(up := a.up[1..])
  }

  function PopDown(a: Air): (b: Air)
    requires a.down != []
  {
    a.(down := a.down[1..])
  }

  lemma PoppedOthers(a: Air, b: Air, f: Frame)
    requires (a.up != [] && a.up[0] == f && b == PopUp(a)) || (a.down != [] && a.down[0] == f && b == PopDown(a))
    ensures forall x: u16 :: !Mine(x, f) ==> SameFor(x, a, b)
  {
  }

  /** What the head of the stream says about the first lane of its id. */
  lemma Head(id: u16, fs: seq<Frame>)
    requires fs != [] && Mine(id, fs[0]) && Ordered(id, fs)
    ensures var g, r, f := Segs(id, fs), Segs(id, fs[1..]), fs[0];
      && Ordered(id, fs[1..])
      && (f.Connect? ==> g == [NoLane] + r)
      && (!f.Connect? ==> |g| == |r| && g[1..] == r[1..])
      && (f.Data? ==> g[0].datas != [] && g[0].datas[0] == f.payload && r[0] == g[0].(datas := g[0].datas[1..]))
      && (f.Ack? ==> f.count <= g[0].acks && r[0] == g[0].(acks := g[0].acks - f.count))
      && (f.Close? ==> g[0] == Lane([], 0, true) && r[0] == NoLane)
  {
  }

  /** Where the server's sessions of a line stand. */
  lemma Standing(cfg: Config, id: u16, l: seq<Pair>, a: Air)
    requires LineOk(cfg, id, l, a)
    ensures NewAt(l) == |l| - Coming(id, a)
    ensures AliveAt(l) < |l| ==> AliveAt(l) == NewAt(l) - 1
  {
    hide PairOk, Segs, Ordered, PendingOf, NewAt, AliveAt;
    var k, j := NewAt(l), AliveAt(l);
    if k < |l| {
      assert OpeningOk(cfg, id, l, k, a);
    }
    if |l| - Coming(id, a) < |l| {
      assert OpeningOk(cfg, id, l, |l| - Coming(id, a), a);
    }
    if j < |l| {
      assert OpeningOk(cfg, id, l, j, a);
    }
  }

  lemma NoneElse(cfg: Config, id: u16, l: seq<Pair>, a: Air, i: nat)
    requires LineOk(cfg, id, l, a) && i < |l| && SAlive(l[i].s)
    ensures AliveAt(l) == i
  {
    hide PairOk, Segs, Ordered, PendingOf;
    Standing(cfg, id, l, a);
    assert OpeningOk(cfg, id, l, i, a);
  }

  /** The session that has the id ends; in `a` nothing changes. */
  lemma EvictLine(cfg: Config, id: u16, l: seq<Pair>, a: Air)
    requires LineOk(cfg, id, l, a)
    ensures LineOk(cfg, id, Evicted(l), a) && NewAt(Evicted(l)) == NewAt(l) && AliveAt(Evicted(l)) == |l|
  {
    hide PairOk, UpLane, HU, HD, Coming, Ordered;
    var j := AliveAt(l);
    if j < |l| {
      assert OpeningOk(cfg, id, l, j, a);
      ServerFailOk(cfg, l[j], UpLane(id, |l|, j, a), HU(id, j, a), HD(id, j, a));
      LineUpdate(cfg, id, l, a, j, Evicted(l)[j], a);
      Standing(cfg, id, l, a);
    }
    Standing(cfg, id, Evicted(l), a);
    Standing(cfg, id, l, a);
    forall i | 0 <= i < |l|
      ensures !SAlive(Evicted(l)[i].s)
    {
      if SAlive(l[i].s) {
        NoneElse(cfg, id, l, a, i);
      }
    }
  }

  /** A CONNECT taken off the stream leaves all openings their lanes. */
  lemma PopConnect(id: u16, n: nat, a: Air)
    requires a.up != [] && a.up[0] == Connect(id) && Ordered(id, a.up)
    ensures var b := PopUp(a);
      && Coming(id, b) == Coming(id, a) - 1 && Ordered(id, b.up)
      && (forall i: nat :: i < n && Coming(id, a) <= n ==> UpLane(id, n, i, b) == UpLane(id, n, i, a))
      && (forall i: nat :: HU(id, i, b) == HU(id, i, a) && HD(id, i, b) == HD(id, i, a))
  {
    hide Segs, Ordered, PendingOf;
    Head(id, a.up);
  }

  /** With no session alive, a CONNECT starts the next opening. */
  lemma StartLine(cfg: Config, id: u16, l: seq<Pair>, a: Air)
    requires LineOk(cfg, id, l, a) && AliveAt(l) == |l| && a.up != [] && a.up[0] == Connect(id)
    ensures var k := NewAt(l); k < |l| && LineOk(cfg, id, l[k := l[k].(s := SOnConnect(cfg))], PopUp(a))
  {
    hide PairOk, UpLane, HU, HD, Coming, Ordered, NewAt, AliveAt;
    var k, b := NewAt(l), PopUp(a);
    PopConnect(id, |l|, a);
    Standing(cfg, id, l, a);
    var m := l[k := l[k].(s := SOnConnect(cfg))];
    assert OpeningOk(cfg, id, l, k, a);
    ServerOnConnectOk(cfg, l[k], UpLane(id, |l|, k, a), HU(id, k, a), HD(id, k, a));
    forall i | 0 <= i < |m|
      ensures OpeningOk(cfg, id, m, i, b)
    {
      assert OpeningOk(cfg, id, l, i, a);
    }
  }

  /** `v` is what the lane `u` leaves behind when the frame is taken off its front. */
  predicate Popped(u: Lane, f: Frame, v: Lane) {
    match f
    case Data(_, p) => p != [] && u.datas != [] && u.datas[0] == p && v == u.(datas := u.datas[1..])
    case Ack(_, n) => n <= u.acks && v == u.(acks := u.acks - n)
    case Close(_) => u == Lane([], 0, true) && v == NoLane
    case _ => false
  }

  /** The step of the session that has the id, or had it last. */
  lemma OnServerOk(cfg: Config, p: Pair, u: Lane, v: Lane, hu: Pending, hd: Pending, f: Frame)
    requires PairOk(cfg, p, u, hu, hd) && p.s.phase != SNone && Popped(u, f, v)
    ensures PairOk(cfg, p.(s := OnServer(cfg, p.s, f)), v, hu, hd)
  {
    hide PairOk, SOnData, SOnAck, SOnClose;
    match f
    case Data(_, _) => ServerOnDataOk(cfg, p, u, hu, hd);
    case Ack(_, n) => ServerOnAckOk(cfg, p, u, hu, hd, n);
    case Close(_) => ServerOnCloseOk(cfg, p, u, hu, hd);
  }

  lemma OnServerDown(cfg: Config, p: Pair, u: Lane, v: Lane, d: Lane, intact: bool, hu: Pending, hd: Pending, f: Frame)
    requires PairOk(cfg, p, u, hu, hd) && DownOk(cfg, p, u, d, intact) && p.s.phase != SNone && Popped(u, f, v)
    ensures DownOk(cfg, p.(s := OnServer(cfg, p.s, f)), v, d, intact)
  {
    hide PairOk, DownOk, SOnData, SOnAck, SOnClose;
    match f
    case Data(_, _) => ServerOnDataDown(cfg, p, u, d, intact, hu, hd);
    case Ack(_, n) => ServerOnAckDown(cfg, p, u, d, intact, hu, hd, n);
    case Close(_) => ServerOnCloseDown(cfg, p, u, d, intact, hu, hd);
  }

  lemma OnServerPhase(cfg: Config, s: Server, f: Frame)
    requires s.phase != SNone
    ensures OnServer(cfg, s, f).phase != SNone && (!SAlive(s) ==> OnServer(cfg, s, f) == s)
  {
  }

  /** Only the opening the server has last sees a change of the first lane. */
  lemma Beside(g: seq<Lane>, r: seq<Lane>, n: nat, i: nat)
    requires |g| == |r| > 0 && g[1..] == r[1..] && i != n - |g|
    ensures LaneFor(g, n, i) == LaneFor(r, n, i)
  {
  }

  /** Any other frame goes to the last session the server has started, and is dropped if that is gone. */
  lemma FrameLine(cfg: Config, id: u16, l: seq<Pair>, a: Air)
    requires LineOk(cfg, id, l, a) && a.up != [] && Mine(id, a.up[0]) && !a.up[0].Connect? && Loaded(a.up)
    ensures LineOk(cfg, id, ServeLine(cfg, l, a.up[0]), PopUp(a))
  {
    hide PairOk, Segs, Ordered, PendingOf, NewAt, AliveAt, OnServer;
    var f, b := a.up[0], PopUp(a);
    Head(id, a.up);
    Standing(cfg, id, l, a);
    var k := NewAt(l);
    if k == 0 {
      assert forall i: nat :: HU(id, i, b) == HU(id, i, a) && HD(id, i, b) == HD(id, i, a);
      forall i | 0 <= i < |l|
        ensures OpeningOk(cfg, id, l, i, b)
      {
        assert OpeningOk(cfg, id, l, i, a);
        assert UpLane(id, |l|, i, b) == UpLane(id, |l|, i, a);
      }
    } else {
      var j := k - 1;
      var p := l[j].(s := OnServer(cfg, l[j].s, f));
      assert OpeningOk(cfg, id, l, j, a);
      OnServerOk(cfg, l[j], UpLane(id, |l|, j, a), UpLane(id, |l|, j, b), HU(id, j, a), HD(id, j, a), f);
      OnServerPhase(cfg, l[j].s, f);
      assert OnlyOpening(id, |l|, j, a, b) by {
        forall i: nat | i != j
          ensures UpLane(id, |l|, i, b) == UpLane(id, |l|, i, a)
        {
          Beside(Segs(id, a.up), Segs(id, b.up), |l|, i);
        }
      }
      LineUpdate(cfg, id, l, a, j, p, b);
      if SAlive(l[j].s) {
        NoneElse(cfg, id, l, a, j);
      } else {
        assert l[j := p] == l;
        assert AliveAt(l) == |l|;
      }
    }
  }

  lemma ServeStep(cfg: Config, t: Lines, a: Air)
    requires Core(cfg, t, a) && a.up != []
    ensures Core(cfg, Serve(cfg, t, a.up[0]), PopUp(a))
  {
    hide LineOk, SameFor, Evicted, AliveAt, NewAt;
    var f, b := a.up[0], PopUp(a);
    PoppedOthers(a, b, f);
    if f.Icmp? {
      Passes(cfg, t, a, b, true);
    } else {
      var l := Of(t, f.id);
      if f.Connect? {
        EvictLine(cfg, f.id, l, a);
        StartLine(cfg, f.id, Evicted(l), a);
      } else {
        FrameLine(cfg, f.id, l, a);
      }
      CoreStep(cfg, t, a, f.id, ServeLine(cfg, l, f), b);
    }
  }

  /** In a calm line the server has no session but the last, whose CONNECT may still be on its way. */
  lemma CalmStanding(cfg: Config, id: u16, l: seq<Pair>, a: Air, intact: bool)
    requires LineOk(cfg, id, l, a) && CalmLine(cfg, id, l, a, intact) && l != []
    ensures Coming(id, a) <= 1 && NewAt(l) == |l| - Coming(id, a)
    ensures AliveAt(l) == if SAlive(l[|l| - 1].s) then |l| - 1 else |l|
    ensures PairOk(cfg, l[|l| - 1], UpLane(id, |l|, |l| - 1, a), HU(id, |l| - 1, a), HD(id, |l| - 1, a))
    ensures l[|l| - 1].s.phase == SNone <==> Coming(id, a) == 1
  {
    hide PairOk, DownOk, UpLane, DownLane, HU, HD, Coming, Ordered, NewAt, AliveAt;
    Standing(cfg, id, l, a);
    assert OpeningOk(cfg, id, l, |l| - 1, a);
    if SAlive(l[|l| - 1].s) {
      NoneElse(cfg, id, l, a, |l| - 1);
    }
  }

  lemma ServeCalmLine(cfg: Config, id: u16, l: seq<Pair>, a: Air, intact: bool)
    requires LineOk(cfg, id, l, a) && CalmLine(cfg, id, l, a, intact) && Loaded(a.up)
    requires a.up != [] && Mine(id, a.up[0])
    ensures CalmLine(cfg, id, ServeLine(cfg, l, a.up[0]), PopUp(a), intact)
  {
    hide PairOk, DownOk, Segs, Ordered, PendingOf, NewAt, AliveAt, OnServer;
    var f, b := a.up[0], PopUp(a);
    if l != [] {
      CalmStanding(cfg, id, l, a, intact);
      Head(id, a.up);
      var j := |l| - 1;
      var u, d, hu, hd := UpLane(id, |l|, j, a), DownLane(id, a), HU(id, j, a), HD(id, j, a);
      if f.Connect? {
        assert Coming(id, a) == 1 && Evicted(l) == l && NewAt(l) == j;
        assert UpLane(id, |l|, j, b) == u;
        ServerOnConnectDown(cfg, l[j], u, d, intact, hu, hd);
      } else if Coming(id, a) == 0 {
        OnServerDown(cfg, l[j], u, UpLane(id, |l|, j, b), d, intact, hu, hd, f);
        OnServerPhase(cfg, l[j].s, f);
        assert ServeLine(cfg, l, f) == l[j := l[j].(s := OnServer(cfg, l[j].s, f))];
      } else {
        Beside(Segs(id, a.up), Segs(id, b.up), |l|, j);
        assert ServeLine(cfg, l, f) == l;
      }
    }
  }

  lemma ServeCalm(cfg: Config, t: Lines, a: Air, intact: bool)
    requires Core(cfg, t, a) && a.up != []
    ensures KeepsCalm(cfg, t, a, intact, Serve(cfg, t, a.up[0]), PopUp(a), intact)
  {
    hide LineOk, CalmLine, SameFor, ServeLine;
    var f, b := a.up[0], PopUp(a);
    PoppedOthers(a, b, f);
    if f.Icmp? {
      Passes(cfg, t, a, b, intact);
    } else {
      var l := Of(t, f.id);
      if CalmLine(cfg, f.id, l, a, intact) {
        ServeCalmLine(cfg, f.id, l, a, intact);
      }
      CalmStep(cfg, t, a, f.id, ServeLine(cfg, l, f), b, intact);
    }
  }

  lemma OnClientOk(cfg: Config, p: Pair, u: Lane, hu: Pending, hd: Pending, f: Frame)
    requires PairOk(cfg, p, u, hu, hd) && !f.Connect? && (f.Data? ==> f.payload != [])
    ensures PairOk(cfg, p.(c := OnClient(p.c, f)), u, hu, hd)
  {
    hide PairOk, COnData, COnAck, COnClose;
    match f
    case Data(_, x) => ClientOnDataOk(cfg, p, u, hu, hd, x);
    case Ack(_, n) => ClientOnAckOk(cfg, p, u, hu, hd, n);
    case Close(_) => ClientOnCloseOk(cfg, p, u, hu, hd);
    case Icmp(_) =>
  }

  lemma OnClientDown(cfg: Config, p: Pair, u: Lane, d: Lane, e: Lane, intact: bool, hu: Pending, hd: Pending, f: Frame)
    requires PairOk(cfg, p, u, hu, hd) && DownOk(cfg, p, u, d, intact) && Popped(d, f, e)
    ensures DownOk(cfg, p.(c := OnClient(p.c, f)), u, e, intact)
  {
    hide PairOk, DownOk, COnData, COnAck, COnClose;
    match f
    case Data(_, _) => ClientOnDataDown(cfg, p, u, d, intact, hu, hd);
    case Ack(_, n) => ClientOnAckDown(cfg, p, u, d, intact, hu, hd, n);
    case Close(_) => ClientOnCloseDown(cfg, p, u, d, intact, hu, hd);
  }

  lemma OnClientPhase(c: Client, f: Frame)
    ensures c.phase == CClosed ==> OnClient(c, f).phase == CClosed
  {
  }

  lemma HearStep(cfg: Config, t: Lines, a: Air)
    requires Core(cfg, t, a) && a.down != []
    ensures Core(cfg, Hear(t, a.down[0]), PopDown(a))
  {
    hide PairOk, SameFor, Segs, Ordered, PendingOf, OnClient;
    var f, b := a.down[0], PopDown(a);
    PoppedOthers(a, b, f);
    if f.Icmp? {
      Passes(cfg, t, a, b, true);
    } else {
      var l := Of(t, f.id);
      assert LineOk(cfg, f.id, l, a);
      assert forall i: nat :: HU(f.id, i, b) == HU(f.id, i, a) && HD(f.id, i, b) == HD(f.id, i, a);
      if l == [] {
        assert LineOk(cfg, f.id, l, b);
      } else {
        var j := |l| - 1;
        assert OpeningOk(cfg, f.id, l, j, a);
        OnClientOk(cfg, l[j], UpLane(f.id, |l|, j, a), HU(f.id, j, a), HD(f.id, j, a), f);
        OnClientPhase(l[j].c, f);
        LineUpdate(cfg, f.id, l, a, j, HearLine(l, f)[j], b);
      }
      CoreStep(cfg, t, a, f.id, HearLine(l, f), b);
    }
  }

  lemma HearCalmLine(cfg: Config, id: u16, l: seq<Pair>, a: Air, intact: bool)
    requires LineOk(cfg, id, l, a) && CalmLine(cfg, id, l, a, intact) && Downward(a.down)
    requires a.down != [] && Mine(id, a.down[0])
    ensures CalmLine(cfg, id, HearLine(l, a.down[0]), PopDown(a), intact)
  {
    hide PairOk, DownOk, Segs, Ordered, PendingOf, OnClient, LineOk;
    Head(id, a.down);
    if l != [] {
      var j, b := |l| - 1, PopDown(a);
      CalmStanding(cfg, id, l, a, intact);
      OnClientDown(cfg, l[j], UpLane(id, |l|, j, a), DownLane(id, a), DownLane(id, b), intact,
                   HU(id, j, a), HD(id, j, a), a.down[0]);
    }
  }

  lemma HearCalm(cfg: Config, t: Lines, a: Air, intact: bool)
    requires Core(cfg, t, a) && a.down != []
    ensures KeepsCalm(cfg, t, a, intact, Hear(t, a.down[0]), PopDown(a), intact)
  {
    hide LineOk, CalmLine, SameFor, HearLine;
    var f, b := a.down[0], PopDown(a);
    PoppedOthers(a, b, f);
    if f.Icmp? {
      Passes(cfg, t, a, b, intact);
    } else {
      var l := Of(t, f.id);
      if CalmLine(cfg, f.id, l, a, intact) {
        HearCalmLine(cfg, f.id, l, a, intact);
      }
      CalmStep(cfg, t, a, f.id, HearLine(l, f), b, intact);
    }
  }

  // ---- handlers running ----

  function OnSent(p: Pair, h: Handler): (r: Pair) {
    match h
    case ConnectSent(_, _) => p.(c := CConnectSent(p.c))
    case DataSent(_, _) => p.(c := CDataSent(p.c))
    case AckSent(_, _) => p.(c := CAckSent(p.c))
    case Ignored => p
  }

  /** The server sends no CONNECT. */
  function OnServed(p: Pair, h: Handler): (r: Pair) {
    match h
    case DataSent(_, _) => p.(s := SDataSent(p.s))
    case AckSent(_, _) => p.(s := SAckSent(p.s))
    case _ => p
  }

  /** A completion handler of a client session. */
  function ResumeClient(t: Lines, h: Handler): (r: Lines) {
    if h == Ignored || h.opening >= |Of(t, h.id)| then t
    else t[h.id := Of(t, h.id)[h.opening := OnSent(Of(t, h.id)[h.opening], h)]]
  }

  /** A completion handler of a server session. */
  function ResumeServer(t: Lines, h: Handler): (r: Lines) {
    if h == Ignored || h.opening >= |Of(t, h.id)| then t
    else t[h.id := Of(t, h.id)[h.opening := OnServed(Of(t, h.id)[h.opening], h)]]
  }

  function DoneUp(a: Air): (b: Air)
    requires a.hup != []
  {
    a.(hup := a.hup[1..])
  }

  function DoneDown(a: Air): (b: Air)
    requires a.hdown != []
  {
    a.(hdown := a.hdown[1..])
  }

  lemma DoneOthers(a: Air, b: Air, h: Handler)
    requires (a.hup != [] && a.hup[0] == h && b == DoneUp(a)) || (a.hdown != [] && a.hdown[0] == h && b == DoneDown(a))
    ensures forall x: u16 :: h == Ignored || h.id != x ==> SameFor(x, a, b)
  {
  }

  lemma OnSentOk(cfg: Config, p: Pair, u: Lane, hu: Pending, hd: Pending, h: Handler)
    requires PairOk(cfg, p, u, Plus(h, hu), hd)
    ensures PairOk(cfg, OnSent(p, h), u, hu, hd)
  {
    hide PairOk, CConnectSent, CDataSent, CAckSent;
    match h
    case ConnectSent(_, _) => ConnectSentOk(cfg, p, u, Plus(h, hu), hd);
    case DataSent(_, _) => ClientDataSentOk(cfg, p, u, Plus(h, hu), hd);
    case AckSent(_, _) => ClientAckSentOk(cfg, p, u, Plus(h, hu), hd);
    case Ignored =>
  }

  lemma OnSentDown(cfg: Config, p: Pair, u: Lane, d: Lane, intact: bool, hu: Pending, hd: Pending, h: Handler)
    requires PairOk(cfg, p, u, Plus(h, hu), hd) && DownOk(cfg, p, u, d, intact)
    ensures DownOk(cfg, OnSent(p, h), u, d, intact)
  {
    hide PairOk, DownOk, CConnectSent, CDataSent, CAckSent;
    match h
    case ConnectSent(_, _) => ConnectSentDown(cfg, p, u, d, intact, Plus(h, hu), hd);
    case DataSent(_, _) => ClientDataSentDown(cfg, p, u, d, intact, Plus(h, hu), hd);
    case AckSent(_, _) => ClientAckSentDown(cfg, p, u, d, intact, Plus(h, hu), hd);
    case Ignored =>
  }

  lemma OnServedOk(cfg: Config, p: Pair, u: Lane, hu: Pending, hd: Pending, h: Handler)
    requires PairOk(cfg, p, u, hu, Plus(h, hd))
    ensures PairOk(cfg, OnServed(p, h), u, hu, hd)
  {
    hide UpLink, ClientShape, SDataSent, SAckSent;
    match h
    case DataSent(_, _) => ServerDataSentOk(cfg, p, u, hu, Plus(h, hd));
    case AckSent(_, _) => ServerAckSentOk(cfg, p, u, hu, Plus(h, hd));
    case _ =>
  }

  lemma OnServedDown(cfg: Config, p: Pair, u: Lane, d: Lane, intact: bool, hu: Pending, hd: Pending, h: Handler)
    requires PairOk(cfg, p, u, hu, Plus(h, hd)) && DownOk(cfg, p, u, d, intact)
    ensures DownOk(cfg, OnServed(p, h), u, d, intact)
  {
    hide PairOk, DownOk, SDataSent, SAckSent;
    match h
    case DataSent(_, _) => ServerDataSentDown(cfg, p, u, d, intact, hu, Plus(h, hd));
    case AckSent(_, _) => ServerAckSentDown(cfg, p, u, d, intact, hu, Plus(h, hd));
    case _ =>
  }

  lemma ResumedPhases(p: Pair, h: Handler)
    ensures OnSent(p, h).s == p.s && (p.c.phase == CClosed ==> OnSent(p, h) == p)
    ensures OnServed(p, h).c == p.c && OnServed(p, h).s.phase == p.s.phase && OnServed(p, h).s.life == p.s.life
    ensures p.s.phase == SClosed && !CanReturn(p.s) ==> OnServed(p, h) == p
  {
  }

  /** The handler that ran is off the count of its opening, and of no other. */
  lemma DoneOne(id: u16, n: nat, a: Air, b: Air, h: Handler)
    requires h != Ignored && h.id == id && Ordered(id, a.up)
    requires (a.hup != [] && a.hup[0] == h && b == DoneUp(a)) || (a.hdown != [] && a.hdown[0] == h && b == DoneDown(a))
    ensures OnlyOpening(id, n, h.opening, a, b) && UpLane(id, n, h.opening, b) == UpLane(id, n, h.opening, a)
    ensures HU(id, h.opening, a) == if b.hup == a.hup then HU(id, h.opening, b) else Plus(h, HU(id, h.opening, b))
    ensures HD(id, h.opening, a) == if b.hdown == a.hdown then HD(id, h.opening, b) else Plus(h, HD(id, h.opening, b))
  {
  }

  lemma PlusIsSome(h: Handler, k: Pending)
    requires h != Ignored
    ensures Plus(h, k) != NoHandlers
  {
  }

  lemma ResumeClientStep(cfg: Config, t: Lines, a: Air)
    requires Core(cfg, t, a) && a.hup != []
    ensures Core(cfg, ResumeClient(t, a.hup[0]), DoneUp(a))
  {
    hide PairOk, SameFor, UpLane, HU, HD, Coming, Ordered, OnlyOpening, OnSent, Plus;
    var h, b := a.hup[0], DoneUp(a);
    DoneOthers(a, b, h);
    if h == Ignored {
      Passes(cfg, t, a, b, true);
    } else {
      var id, j, l := h.id, h.opening, Of(t, h.id);
      assert LineOk(cfg, id, l, a);
      DoneOne(id, |l|, a, b, h);
      PlusIsSome(h, HU(id, j, b));
      assert OpeningOk(cfg, id, l, j, a);
      OnSentOk(cfg, l[j], UpLane(id, |l|, j, a), HU(id, j, b), HD(id, j, a), h);
      ResumedPhases(l[j], h);
      LineUpdate(cfg, id, l, a, j, OnSent(l[j], h), b);
      CoreStep(cfg, t, a, id, l[j := OnSent(l[j], h)], b);
    }
  }

  lemma ResumeServerStep(cfg: Config, t: Lines, a: Air)
    requires Core(cfg, t, a) && a.hdown != []
    ensures Core(cfg, ResumeServer(t, a.hdown[0]), DoneDown(a))
  {
    hide PairOk, SameFor, UpLane, HU, HD, Coming, Ordered, OnlyOpening, OnServed, Plus;
    var h, b := a.hdown[0], DoneDown(a);
    DoneOthers(a, b, h);
    if h == Ignored {
      Passes(cfg, t, a, b, true);
    } else {
      var id, j, l := h.id, h.opening, Of(t, h.id);
      assert LineOk(cfg, id, l, a);
      DoneOne(id, |l|, a, b, h);
      PlusIsSome(h, HD(id, j, b));
      assert OpeningOk(cfg, id, l, j, a);
      OnServedOk(cfg, l[j], UpLane(id, |l|, j, a), HU(id, j, a), HD(id, j, b), h);
      ResumedPhases(l[j], h);
      LineUpdate(cfg, id, l, a, j, OnServed(l[j], h), b);
      CoreStep(cfg, t, a, id, l[j := OnServed(l[j], h)], b);
    }
  }

  lemma ResumeClientCalm(cfg: Config, t: Lines, a: Air, intact: bool)
    requires Core(cfg, t, a) && a.hup != []
    ensures KeepsCalm(cfg, t, a, intact, ResumeClient(t, a.hup[0]), DoneUp(a), intact)
  {
    hide PairOk, DownOk, SameFor, Segs, Ordered, UpLane, HU, HD, OnlyOpening, OnSent, Plus;
    var h, b := a.hup[0], DoneUp(a);
    DoneOthers(a, b, h);
    if h == Ignored {
      Passes(cfg, t, a, b, intact);
    } else {
      var id, j, l := h.id, h.opening, Of(t, h.id);
      assert LineOk(cfg, id, l, a);
      DoneOne(id, |l|, a, b, h);
      PlusIsSome(h, HU(id, j, b));
      assert OpeningOk(cfg, id, l, j, a);
      if CalmLine(cfg, id, l, a, intact) && j == |l| - 1 {
        OnSentDown(cfg, l[j], UpLane(id, |l|, j, a), DownLane(id, a), intact, HU(id, j, b), HD(id, j, a), h);
      }
      ResumedPhases(l[j], h);
      CalmStep(cfg, t, a, id, l[j := OnSent(l[j], h)], b, intact);
    }
  }

  lemma ResumeServerCalm(cfg: Config, t: Lines, a: Air, intact: bool)
    requires Core(cfg, t, a) && a.hdown != []
    ensures KeepsCalm(cfg, t, a, intact, ResumeServer(t, a.hdown[0]), DoneDown(a), intact)
  {
    hide PairOk, DownOk, SameFor, Segs, Ordered, UpLane, HU, HD, OnlyOpening, OnServed, Plus;
    var h, b := a.hdown[0], DoneDown(a);
    DoneOthers(a, b, h);
    if h == Ignored {
      Passes(cfg, t, a, b, intact);
    } else {
      var id, j, l := h.id, h.opening, Of(t, h.id);
      assert LineOk(cfg, id, l, a);
      DoneOne(id, |l|, a, b, h);
      PlusIsSome(h, HD(id, j, b));
      assert OpeningOk(cfg, id, l, j, a);
      if CalmLine(cfg, id, l, a, intact) && j == |l| - 1 {
        OnServedDown(cfg, l[j], UpLane(id, |l|, j, a), DownLane(id, a), intact, HU(id, j, a), HD(id, j, b), h);
      }
      ResumedPhases(l[j], h);
      CalmStep(cfg, t, a, id, l[j := OnServed(l[j], h)], b, intact);
    }
  }

  // ---- many at once ----

  function ServeAll(cfg: Config, t: Lines, fs: seq<Frame>): (r: Lines)
    decreases |fs|
  {
    if fs == [] then t else ServeAll(cfg, Serve(cfg, t, fs[0]), fs[1..])
  }

  function HearAll(t: Lines, fs: seq<Frame>): (r: Lines)
    decreases |fs|
  {
    if fs == [] then t else HearAll(Hear(t, fs[0]), fs[1..])
  }

  function ResumeClients(t: Lines, hs: seq<Handler>): (r: Lines)
    decreases |hs|
  {
    if hs == [] then t else ResumeClients(ResumeClient(t, hs[0]), hs[1..])
  }

  function ResumeServers(t: Lines, hs: seq<Handler>): (r: Lines)
    decreases |hs|
  {
    if hs == [] then t else ResumeServers(ResumeServer(t, hs[0]), hs[1..])
  }

  lemma {:induction false} ServeAllStep(cfg: Config, t: Lines, a: Air, fs: seq<Frame>, rest: seq<Frame>, intact: bool)
    requires Core(cfg, t, a) && a.up == fs + rest
    ensures Core(cfg, ServeAll(cfg, t, fs), a.(up := rest))
    ensures KeepsCalm(cfg, t, a, intact, ServeAll(cfg, t, fs), a.(up := rest), intact)
    decreases |fs|
  {
    hide Core, CalmLine, Serve;
    if fs == [] {
      assert fs + rest == rest && a == a.(up := rest);
    } else {
      ServeStep(cfg, t, a);
      ServeCalm(cfg, t, a, intact);
      assert a.up[0] == fs[0] && a.up[1..] == fs[1..] + rest;
      ServeAllStep(cfg, Serve(cfg, t, fs[0]), PopUp(a), fs[1..], rest, intact);
    }
  }

  lemma {:induction false} HearAllStep(cfg: Config, t: Lines, a: Air, fs: seq<Frame>, rest: seq<Frame>, intact: bool)
    requires Core(cfg, t, a) && a.down == fs + rest
    ensures Core(cfg, HearAll(t, fs), a.(down := rest))
    ensures KeepsCalm(cfg, t, a, intact, HearAll(t, fs), a.(down := rest), intact)
    decreases |fs|
  {
    hide Core, CalmLine, Hear;
    if fs == [] {
      assert fs + rest == rest && a == a.(down := rest);
    } else {
      HearStep(cfg, t, a);
      HearCalm(cfg, t, a, intact);
      assert a.down[0] == fs[0] && a.down[1..] == fs[1..] + rest;
      HearAllStep(cfg, Hear(t, fs[0]), PopDown(a), fs[1..], rest, intact);
    }
  }

  lemma {:induction false} ResumeClientsStep(cfg: Config, t: Lines, a: Air, hs: seq<Handler>, rest: seq<Handler>,
                                             intact: bool)
    requires Core(cfg, t, a) && a.hup == hs + rest
    ensures Core(cfg, ResumeClients(t, hs), a.(hup := rest))
    ensures KeepsCalm(cfg, t, a, intact, ResumeClients(t, hs), a.(hup := rest), intact)
    decreases |hs|
  {
    hide Core, CalmLine, ResumeClient;
    if hs == [] {
      assert hs + rest == rest && a == a.(hup := rest);
    } else {
      ResumeClientStep(cfg, t, a);
      ResumeClientCalm(cfg, t, a, intact);
      assert a.hup[0] == hs[0] && a.hup[1..] == hs[1..] + rest;
      ResumeClientsStep(cfg, ResumeClient(t, hs[0]), DoneUp(a), hs[1..], rest, intact);
    }
  }

  lemma {:induction false} ResumeServersStep(cfg: Config, t: Lines, a: Air, hs: seq<Handler>, rest: seq<Handler>,
                                             intact: bool)
    requires Core(cfg, t, a) && a.hdown == hs + rest
    ensures Core(cfg, ResumeServers(t, hs), a.(hdown := rest))
    ensures KeepsCalm(cfg, t, a, intact, ResumeServers(t, hs), a.(hdown := rest), intact)
    decreases |hs|
  {
    hide Core, CalmLine, ResumeServer;
    if hs == [] {
      assert hs + rest == rest && a == a.(hdown := rest);
    } else {
      ResumeServerStep(cfg, t, a);
      ResumeServerCalm(cfg, t, a, intact);
      assert a.hdown[0] == hs[0] && a.hdown[1..] == hs[1..] + rest;
      ResumeServersStep(cfg, ResumeServer(t, hs[0]), DoneDown(a), hs[1..], rest, intact);
    }
  }

  // ---- what sessions do off the list ----

  /** What a session off the list does: it changes itself and, where another session holds its id, may
      send a frame under the id and change that one. */
  datatype Deed = Alone(s: Server) | Upon(s: Server, q: Pair, frame: Frame, handler: Handler)

  /** A stray ends: the session that holds the id is taken off the list, and its client told to close. */
  function EndDeed(l: seq<Pair>, id: u16, s: Server, held: bool): (d: Deed)
    requires held ==> AliveAt(l) < |l|
  {
    if held then
      var q := l[AliveAt(l)];
      Upon(SStrayEnd(s), q.(s := SErased(q.s)), Close(id), Ignored)
    else Alone(SStrayEnd(s))
  }

  /** A write completes. The frames are acknowledged under the id: the count goes to the session that holds
      it, if there is one. A stray whose close was deferred ends, as does one that finds none. */
  function LateDeed(l: seq<Pair>, id: u16, k: nat, held: bool): (d: Deed)
    requires k < |l| && (held ==> AliveAt(l) < |l|)
  {
    var s := l[k].s;
    var n := s.up.wack % 0x1_0000;
    if s.life != Over && WriteCloses(s.up) then EndDeed(l, id, SLate(s), held)
    else if held && !WriteCloses(s.up) then
      var q := l[AliveAt(l)];
      Upon(SLate(s), q.(foreign := q.foreign + n), Ack(id, n), AckSent(id, k))
    else Alone(SGone(SLate(s)))
  }

  /** A stray has read from its target: the bytes go to the session that holds the id. */
  function ReadDeed(l: seq<Pair>, id: u16, k: nat, x: bytes, held: bool): (d: Deed)
    requires k < |l| && (held ==> AliveAt(l) < |l|)
  {
    var s := SStrayRead(l[k].s);
    if held then
      var q := l[AliveAt(l)];
      Upon(s, q.(alien := q.alien + 1), Data(id, x), DataSent(id, k))
    else Alone(SGone(s))
  }

  function DeedLine(l: seq<Pair>, k: nat, d: Deed): (r: seq<Pair>)
    requires k < |l| && (d.Upon? ==> AliveAt(l) < |l|)
  {
    var m := l[k := l[k].(s := d.s)];
    if d.Upon? then m[AliveAt(l) := d.q] else m
  }

  function DeedAir(a: Air, d: Deed): (b: Air) {
    if d.Upon? then PushDown(a, d.frame, d.handler) else a
  }

  /** A deed that both sessions survive in shape. */
  ghost predicate Sane(cfg: Config, id: u16, l: seq<Pair>, a: Air, k: nat, d: Deed)
    requires k < |l| && (d.Upon? ==> AliveAt(l) < |l|)
  {
    && d.s.phase == SClosed
    && (d.Alone? ==> PairOk(cfg, l[k].(s := d.s), UpLane(id, |l|, k, a), HU(id, k, a), HD(id, k, a)))
    && (d.Upon? ==>
          var j := AliveAt(l);
          && Mine(id, d.frame) && !d.frame.Connect? && (d.frame.Data? ==> d.frame.payload != [])
          && (d.handler == Ignored || Owns(id, k, d.handler)) && d.q.c == l[j].c && d.q.s.phase != SNone
          && PairOk(cfg, l[k].(s := d.s), UpLane(id, |l|, k, a), HU(id, k, a), PlusOne(d.handler, HD(id, k, a)))
          && PairOk(cfg, d.q, UpLane(id, |l|, j, a), HU(id, j, a), HD(id, j, a)))
  }

  lemma SameOnly(id: u16, n: nat, j: nat, a: Air)
    requires Ordered(id, a.up)
    ensures OnlyOpening(id, n, j, a, a)
  {
  }

  lemma HandlersKept(id: u16, n: nat, i: nat, j: nat, a: Air, b: Air)
    requires OnlyOpening(id, n, j, a, b) && i != j
    ensures UpLane(id, n, i, b) == UpLane(id, n, i, a) && HU(id, i, b) == HU(id, i, a) && HD(id, i, b) == HD(id, i, a)
  {
  }

  lemma Same(a: Air)
    ensures forall x: u16 :: SameFor(x, a, a)
  {
  }

  lemma DeedStep(cfg: Config, t: Lines, a: Air, id: u16, k: nat, d: Deed)
    requires Core(cfg, t, a) && k < |Of(t, id)| && Of(t, id)[k].s.phase == SClosed
    requires (d.Upon? ==> AliveAt(Of(t, id)) < |Of(t, id)|) && Sane(cfg, id, Of(t, id), a, k, d)
    ensures Core(cfg, t[id := DeedLine(Of(t, id), k, d)], DeedAir(a, d))
    ensures forall x: u16 :: x != id ==> SameFor(x, a, DeedAir(a, d))
  {
    hide PairOk, UpLane, HU, HD, Ordered, OnlyOpening, SameFor, PlusOne, AliveAt;
    var l, b := Of(t, id), DeedAir(a, d);
    var p := l[k].(s := d.s);
    assert LineOk(cfg, id, l, a) && OpeningOk(cfg, id, l, k, a);
    if d.Upon? {
      var m, j := l[k := p], AliveAt(l);
      PushedDown(id, l, a, d.frame, d.handler, k);
      PushedOthers(a, d.frame, d.handler, id);
      LineUpdate(cfg, id, l, a, k, p, b);
      HandlersKept(id, |l|, j, k, a, b);
      assert OpeningOk(cfg, id, m, j, b);
      assert OnlyOpening(id, |m|, j, b, b) by { SameOnly(id, |m|, j, b); }
      LineUpdate(cfg, id, m, b, j, d.q, b);
      CoreStep(cfg, t, a, id, DeedLine(l, k, d), b);
    } else {
      StaysLocal(cfg, t, a, id, k, p, true);
      Same(a);
    }
  }

  lemma CountsAside(cfg: Config, p: Pair, u: Lane, hu: Pending, hd: Pending, n: nat, m: nat)
    requires PairOk(cfg, p, u, hu, hd)
    ensures PairOk(cfg, p.(foreign := n, alien := m), u, hu, hd)
  {
  }

  lemma OverAnyHandlers(cfg: Config, p: Pair, u: Lane, hu: Pending, hd: Pending, other: Pending)
    requires PairOk(cfg, p, u, hu, hd) && p.s.phase == SClosed && p.s.life == Over
    ensures PairOk(cfg, p, u, hu, other)
  {
  }

  lemma LateStays(s: Server)
    ensures SLate(s).phase == s.phase && SLate(s).life == s.life && SLate(s).down == s.down && SLate(s).ended == s.ended
    ensures s.life == Over ==> SGone(SLate(s)) == SLate(s)
  {
  }

  /** What holds of a session off the list and of the one that holds its id. */
  lemma Deeds(cfg: Config, t: Lines, a: Air, id: u16, k: nat)
    requires Core(cfg, t, a) && k < |Of(t, id)|
    ensures var l := Of(t, id); PairOk(cfg, l[k], UpLane(id, |l|, k, a), HU(id, k, a), HD(id, k, a))
    ensures var l, j := Of(t, id), AliveAt(Of(t, id));
      j < |l| ==> PairOk(cfg, l[j], UpLane(id, |l|, j, a), HU(id, j, a), HD(id, j, a))
  {
    hide PairOk, UpLane, HU, HD, Ordered, AliveAt;
    var l := Of(t, id);
    assert LineOk(cfg, id, l, a) && OpeningOk(cfg, id, l, k, a);
    if AliveAt(l) < |l| {
      assert OpeningOk(cfg, id, l, AliveAt(l), a);
    }
  }

  lemma EndStep(cfg: Config, t: Lines, a: Air, id: u16, k: nat, s: Server, held: bool)
    requires Core(cfg, t, a) && k < |Of(t, id)| && Of(t, id)[k].s.phase == SClosed && s.phase == SClosed
    requires held ==> AliveAt(Of(t, id)) < |Of(t, id)|
    requires var l := Of(t, id);
      PairOk(cfg, l[k].(s := SStrayEnd(s)), UpLane(id, |l|, k, a), HU(id, k, a), HD(id, k, a))
    ensures Sane(cfg, id, Of(t, id), a, k, EndDeed(Of(t, id), id, s, held))
  {
    hide PairOk, UpLane, HU, HD, AliveAt, Core;
    var l, j := Of(t, id), AliveAt(Of(t, id));
    Deeds(cfg, t, a, id, k);
    if held {
      ServerErasedOk(cfg, l[j], UpLane(id, |l|, j, a), HU(id, j, a), HD(id, j, a));
    }
  }

  lemma StrayEndStep(cfg: Config, t: Lines, a: Air, id: u16, k: nat, held: bool)
    requires Core(cfg, t, a) && k < |Of(t, id)| && Of(t, id)[k].s.phase == SClosed
    requires held ==> AliveAt(Of(t, id)) < |Of(t, id)|
    ensures Sane(cfg, id, Of(t, id), a, k, EndDeed(Of(t, id), id, Of(t, id)[k].s, held))
  {
    hide PairOk, UpLane, HU, HD, AliveAt, Core, Sane, EndDeed;
    var l := Of(t, id);
    Deeds(cfg, t, a, id, k);
    ServerGoneOk(cfg, l[k], UpLane(id, |l|, k, a), HU(id, k, a), HD(id, k, a), HD(id, k, a));
    EndStep(cfg, t, a, id, k, l[k].s, held);
  }

  lemma LateStep(cfg: Config, t: Lines, a: Air, id: u16, k: nat, held: bool)
    requires Core(cfg, t, a) && k < |Of(t, id)| && (held ==> AliveAt(Of(t, id)) < |Of(t, id)|)
    requires var s := Of(t, id)[k].s; s.phase == SClosed && s.up.writing && (s.life == Over || s.life == ForwardStray)
    ensures Sane(cfg, id, Of(t, id), a, k, LateDeed(Of(t, id), id, k, held))
  {
    hide PairOk, UpLane, HU, HD, AliveAt, Core, EndDeed, SLate, WriteCloses;
    var l, j := Of(t, id), AliveAt(Of(t, id));
    var u, hu, hd, s := UpLane(id, |l|, k, a), HU(id, k, a), HD(id, k, a), l[k].s;
    Deeds(cfg, t, a, id, k);
    ServerLateOk(cfg, l[k], u, hu, hd);
    LateStays(s);
    if s.life != Over && WriteCloses(s.up) {
      EndStep(cfg, t, a, id, k, SLate(s), held);
    } else if held && !WriteCloses(s.up) {
      var q := l[j];
      CountsAside(cfg, q, UpLane(id, |l|, j, a), HU(id, j, a), HD(id, j, a), q.foreign + s.up.wack % 0x1_0000, q.alien);
      if s.life == Over {
        OverAnyHandlers(cfg, l[k].(s := SLate(s)), u, hu, hd, PlusOne(AckSent(id, k), hd));
      }
    }
  }

  lemma StrayReadStep(cfg: Config, t: Lines, a: Air, id: u16, k: nat, x: bytes, held: bool)
    requires Core(cfg, t, a) && k < |Of(t, id)| && (held ==> AliveAt(Of(t, id)) < |Of(t, id)|) && x != []
    requires var s := Of(t, id)[k].s; s.life == ForwardStray && s.down.reading && s.phase == SClosed
    ensures Sane(cfg, id, Of(t, id), a, k, ReadDeed(Of(t, id), id, k, x, held))
  {
    hide PairOk, UpLane, HU, HD, AliveAt, Core;
    var l, j := Of(t, id), AliveAt(Of(t, id));
    Deeds(cfg, t, a, id, k);
    StrayReadOk(cfg, l[k], UpLane(id, |l|, k, a), HU(id, k, a), HD(id, k, a));
    if held {
      CountsAside(cfg, l[j], UpLane(id, |l|, j, a), HU(id, j, a), HD(id, j, a), l[j].foreign, l[j].alien + 1);
    }
  }

  lemma OpenWhileAlive(cfg: Config, p: Pair, u: Lane, d: Lane, intact: bool)
    requires DownOk(cfg, p, u, d, intact) && SAlive(p.s)
    ensures !d.close
  {
  }

  /** In a calm line only the last session can be a stray, and none holds its id then. */
  lemma NoHolder(cfg: Config, id: u16, l: seq<Pair>, a: Air, k: nat, intact: bool)
    requires LineOk(cfg, id, l, a) && CalmLine(cfg, id, l, a, intact) && k < |l| && l[k].s.phase == SClosed
    ensures k == |l| - 1 ==> AliveAt(l) == |l|
    ensures k < |l| - 1 ==> !CanReturn(l[k].s)
  {
    hide LineOk, DownOk, UpLane, DownLane, HU, HD, Ordered, AliveAt;
    CalmStanding(cfg, id, l, a, intact);
  }

  lemma UpOrdered(cfg: Config, id: u16, l: seq<Pair>, a: Air)
    requires LineOk(cfg, id, l, a)
    ensures Ordered(id, a.up)
  {
  }

  lemma StaysOver(s: Server)
    ensures !CanReturn(SGone(SLate(s))) && (!CanReturn(s) ==> s.life != ForwardStray && !CanReturn(SLate(s)))
    ensures s.life == Over || s.life == ForwardStray ==> SStrayEnd(SLate(s)) == SGone(SLate(s))
  {
  }

  /** The last session of a calm line finds none to act upon. */
  lemma LateOwnCalm(cfg: Config, id: u16, l: seq<Pair>, a: Air, intact: bool, held: bool)
    requires LineOk(cfg, id, l, a) && CalmLine(cfg, id, l, a, intact) && l != [] && (held ==> AliveAt(l) < |l|)
    requires var s := l[|l| - 1].s; s.phase == SClosed && s.up.writing && (s.life == Over || s.life == ForwardStray)
    ensures var d := LateDeed(l, id, |l| - 1, held);
      d.Alone? && CalmLine(cfg, id, DeedLine(l, |l| - 1, d), a, intact)
  {
    hide LineOk, DownOk, UpLane, DownLane, Ordered, SLate, AliveAt, CanReturn;
    var k := |l| - 1;
    LateStays(l[k].s);
    NoHolder(cfg, id, l, a, k, intact);
    StaysOver(l[k].s);
    ServerLateDown(cfg, l[k], UpLane(id, |l|, k, a), DownLane(id, a), intact);
  }

  /** What a late write of a former session over for good is. */
  lemma LateFormer(l: seq<Pair>, id: u16, k: nat, held: bool)
    requires k < |l| && l[k].s.phase == SClosed && l[k].s.life == Over && (held ==> AliveAt(l) < |l|)
    ensures var d, n := LateDeed(l, id, k, held), l[k].s.up.wack % 0x1_0000;
      && (Past(l[k]) ==> Past(l[k].(s := d.s)))
      && (d.Upon? ==>
            && held && d.frame == Ack(id, n) && d.handler == AckSent(id, k)
            && d.q == l[AliveAt(l)].(foreign := l[AliveAt(l)].foreign + n))
  {
    hide AliveAt;
  }

  /** It gives its count to the last session, which holds the id. */
  lemma GivenCalm(cfg: Config, id: u16, l: seq<Pair>, a: Air, k: nat, n: u16, intact: bool)
    requires LineOk(cfg, id, l, a) && CalmLine(cfg, id, l, a, intact) && k < |l| - 1 && SAlive(l[|l| - 1].s)
    requires Downward(a.down)
    ensures var e, b := |l| - 1, PushDown(a, Ack(id, n), AckSent(id, k));
      && Ordered(id, b.down)
      && DownOk(cfg, l[e].(foreign := l[e].foreign + n), UpLane(id, |l|, e, b), DownLane(id, b), intact)
  {
    hide LineOk, PairOk, DownOk, UpLane, DownLane, HU, HD, Ordered, OnlyOpening, Plus, Downward;
    var e, b := |l| - 1, PushDown(a, Ack(id, n), AckSent(id, k));
    CalmStanding(cfg, id, l, a, intact);
    OpenWhileAlive(cfg, l[e], UpLane(id, |l|, e, a), DownLane(id, a), intact);
    UpOrdered(cfg, id, l, a);
    PushedDown(id, l, a, Ack(id, n), AckSent(id, k), k);
    ForeignDown(cfg, l[e], UpLane(id, |l|, e, a), DownLane(id, a), intact, HU(id, e, a), HD(id, e, a), n);
    HandlersKept(id, |l|, e, k, a, b);
  }

  lemma LateFormerCalm(cfg: Config, id: u16, l: seq<Pair>, a: Air, k: nat, intact: bool, held: bool)
    requires LineOk(cfg, id, l, a) && CalmLine(cfg, id, l, a, intact) && k < |l| - 1 && (held ==> AliveAt(l) < |l|)
    requires Downward(a.down)
    requires var s := l[k].s; s.phase == SClosed && (s.life == Over || s.life == ForwardStray)
    ensures var d := LateDeed(l, id, k, held); CalmLine(cfg, id, DeedLine(l, k, d), DeedAir(a, d), intact)
  {
    hide LineOk, PairOk, DownOk, UpLane, DownLane, HU, HD, Coming, Ordered, LateDeed, AliveAt, NewAt, Downward;
    assert Past(l[k]);
    LateFormer(l, id, k, held);
    CalmStanding(cfg, id, l, a, intact);
    if LateDeed(l, id, k, held).Upon? {
      GivenCalm(cfg, id, l, a, k, l[k].s.up.wack % 0x1_0000, intact);
    }
  }

  lemma LineOf(cfg: Config, t: Lines, a: Air, id: u16)
    requires Core(cfg, t, a)
    ensures LineOk(cfg, id, Of(t, id), a) && Downward(a.down)
  {
  }

  /** So a late write of a former session is all that can send under its id. */
  lemma LateCalm(cfg: Config, t: Lines, a: Air, id: u16, k: nat, intact: bool, held: bool)
    requires Core(cfg, t, a) && CalmLine(cfg, id, Of(t, id), a, intact) && k < |Of(t, id)|
    requires held ==> AliveAt(Of(t, id)) < |Of(t, id)|
    requires var s := Of(t, id)[k].s; s.phase == SClosed && s.up.writing && (s.life == Over || s.life == ForwardStray)
    ensures var d := LateDeed(Of(t, id), id, k, held);
      CalmLine(cfg, id, DeedLine(Of(t, id), k, d), DeedAir(a, d), intact)
  {
    hide Core, LineOk, CalmLine, LateDeed, DeedLine, AliveAt, Downward;
    LineOf(cfg, t, a, id);
    if k == |Of(t, id)| - 1 {
      LateOwnCalm(cfg, id, Of(t, id), a, intact, held);
    } else {
      LateFormerCalm(cfg, id, Of(t, id), a, k, intact, held);
    }
  }

  /** Whatever else a session does off the list of a calm line, it does alone. */
  lemma AloneCalm(cfg: Config, t: Lines, a: Air, id: u16, k: nat, s: Server, intact: bool)
    requires Core(cfg, t, a) && CalmLine(cfg, id, Of(t, id), a, intact) && k < |Of(t, id)| && CanReturn(Of(t, id)[k].s)
    requires var l := Of(t, id); l[k].s.phase == SClosed && s.phase == SClosed
    requires var l := Of(t, id);
      && PairOk(cfg, l[k].(s := s), UpLane(id, |l|, k, a), HU(id, k, a), HD(id, k, a))
      && DownOk(cfg, l[k].(s := s), UpLane(id, |l|, k, a), DownLane(id, a), intact)
    ensures AliveAt(Of(t, id)) == |Of(t, id)| && k == |Of(t, id)| - 1
    ensures CalmLine(cfg, id, Of(t, id)[k := Of(t, id)[k].(s := s)], a, intact)
  {
    hide PairOk, DownOk, UpLane, DownLane, HU, HD, Ordered, AliveAt, CanReturn, Core, LineOk;
    var l := Of(t, id);
    assert LineOk(cfg, id, l, a) by { LineOf(cfg, t, a, id); }
    NoHolder(cfg, id, l, a, k, intact);
  }

  // ---- a lost connection ----

  /** The client process has lost the connection: its sessions end, and say nothing. */
  function LostClients(l: seq<Pair>): (r: seq<Pair>) {
    seq(|l|, i requires 0 <= i < |l| => if CAlive(l[i].c) then l[i].(c := CEnd(l[i].c, Failed)) else l[i])
  }

  /** The server process has: the sessions listed end, and the strays whose handlers are told. */
  function LostServer(s: Server, told: bool): (r: Server) {
    if SAlive(s) then SEnd(s, Failed) else if told then SGone(s) else s
  }

  function LostServers(id: u16, l: seq<Pair>, hs: seq<Handler>): (r: seq<Pair>) {
    seq(|l|, i requires 0 <= i < |l| =>
      if l[i].s.phase == SNone then l[i]
      else l[i].(s := LostServer(l[i].s, PendingOf(id, i, hs) != NoHandlers)))
  }

  function LoseClients(t: Lines): (r: Lines) {
    map id | id in t :: LostClients(t[id])
  }

  function LoseServers(t: Lines, hs: seq<Handler>): (r: Lines) {
    map id | id in t :: LostServers(id, t[id], hs)
  }

  function NoUp(a: Air): (b: Air) {
    a.(hup := [])
  }

  function NoDown(a: Air): (b: Air) {
    a.(hdown := [])
  }

  lemma LostClientOk(cfg: Config, p: Pair, u: Lane, hu: Pending, hd: Pending)
    requires PairOk(cfg, p, u, hu, hd)
    ensures PairOk(cfg, if CAlive(p.c) then p.(c := CEnd(p.c, Failed)) else p, u, NoHandlers, hd)
  {
  }

  lemma LostServerOk(cfg: Config, p: Pair, u: Lane, hu: Pending, hd: Pending)
    requires PairOk(cfg, p, u, hu, hd)
    ensures var q := if p.s.phase == SNone then p else p.(s := LostServer(p.s, hd != NoHandlers));
      PairOk(cfg, q, u, hu, NoHandlers)
  {
    hide UpLink, ClientShape;
    if SAlive(p.s) {
      ServerFailOk(cfg, p, u, hu, hd);
    } else if p.s.phase == SClosed {
      ServerGoneOk(cfg, p, u, hu, hd, NoHandlers);
    }
  }

  lemma LostDownOk(cfg: Config, p: Pair, u: Lane, d: Lane, intact: bool, hu: Pending, hd: Pending)
    requires PairOk(cfg, p, u, hu, hd) && DownOk(cfg, p, u, d, intact)
    ensures DownOk(cfg, if CAlive(p.c) then p.(c := CEnd(p.c, Failed)) else p, u, d, false)
    ensures DownOk(cfg, if p.s.phase == SNone then p else p.(s := LostServer(p.s, hd != NoHandlers)), u, d, false)
  {
  }

  lemma LostClientsLine(cfg: Config, id: u16, l: seq<Pair>, a: Air, intact: bool)
    requires LineOk(cfg, id, l, a)
    ensures LineOk(cfg, id, LostClients(l), NoUp(a))
    ensures CalmLine(cfg, id, l, a, intact) ==> CalmLine(cfg, id, LostClients(l), NoUp(a), false)
  {
    hide PairOk, DownOk, Segs, Ordered;
    var m, b := LostClients(l), NoUp(a);
    assert forall i: nat :: HU(id, i, b) == NoHandlers && HD(id, i, b) == HD(id, i, a);
    forall i | 0 <= i < |m|
      ensures OpeningOk(cfg, id, m, i, b)
    {
      assert OpeningOk(cfg, id, l, i, a);
      LostClientOk(cfg, l[i], UpLane(id, |l|, i, a), HU(id, i, a), HD(id, i, a));
    }
    if l != [] && CalmLine(cfg, id, l, a, intact) {
      var i := |l| - 1;
      assert OpeningOk(cfg, id, l, i, a);
      LostDownOk(cfg, l[i], UpLane(id, |l|, i, a), DownLane(id, a), intact, HU(id, i, a), HD(id, i, a));
    }
  }

  lemma LostServersLine(cfg: Config, id: u16, l: seq<Pair>, a: Air, intact: bool)
    requires LineOk(cfg, id, l, a)
    ensures LineOk(cfg, id, LostServers(id, l, a.hdown), NoDown(a))
    ensures CalmLine(cfg, id, l, a, intact) ==> CalmLine(cfg, id, LostServers(id, l, a.hdown), NoDown(a), false)
  {
    hide PairOk, DownOk, Segs, Ordered;
    var m, b := LostServers(id, l, a.hdown), NoDown(a);
    assert forall i: nat :: HD(id, i, b) == NoHandlers && HU(id, i, b) == HU(id, i, a);
    forall i | 0 <= i < |m|
      ensures OpeningOk(cfg, id, m, i, b)
    {
      assert OpeningOk(cfg, id, l, i, a);
      LostServerOk(cfg, l[i], UpLane(id, |l|, i, a), HU(id, i, a), HD(id, i, a));
    }
    if l != [] && CalmLine(cfg, id, l, a, intact) {
      var i := |l| - 1;
      assert OpeningOk(cfg, id, l, i, a);
      LostDownOk(cfg, l[i], UpLane(id, |l|, i, a), DownLane(id, a), intact, HU(id, i, a), HD(id, i, a));
    }
  }

  lemma LoseClientsStep(cfg: Config, t: Lines, a: Air, intact: bool)
    requires Core(cfg, t, a)
    ensures Core(cfg, LoseClients(t), NoUp(a))
    ensures KeepsCalm(cfg, t, a, intact, LoseClients(t), NoUp(a), false)
  {
    hide LineOk, CalmLine;
    var after := LoseClients(t);
    forall x: u16
      ensures LineOk(cfg, x, Of(after, x), NoUp(a))
      ensures CalmLine(cfg, x, Of(t, x), a, intact) ==> CalmLine(cfg, x, Of(after, x), NoUp(a), false)
    {
      assert Of(after, x) == LostClients(Of(t, x));
      LostClientsLine(cfg, x, Of(t, x), a, intact);
    }
  }

  lemma LoseServersStep(cfg: Config, t: Lines, a: Air, intact: bool)
    requires Core(cfg, t, a)
    ensures Core(cfg, LoseServers(t, a.hdown), NoDown(a))
    ensures KeepsCalm(cfg, t, a, intact, LoseServers(t, a.hdown), NoDown(a), false)
  {
    hide LineOk, CalmLine;
    var after := LoseServers(t, a.hdown);
    forall x: u16
      ensures LineOk(cfg, x, Of(after, x), NoDown(a))
      ensures CalmLine(cfg, x, Of(t, x), a, intact) ==> CalmLine(cfg, x, Of(after, x), NoDown(a), false)
    {
      assert Of(after, x) == LostServers(x, Of(t, x), a.hdown);
      LostServersLine(cfg, x, Of(t, x), a, intact);
    }
  }

  // ---- why the way back has to be clear ----

  /** A client session that has sent its CONNECT and asked for nothing yet. */
  predicate Opening(c: Client) {
    c.phase == CClosed || (c.phase == CNew && !c.down.inbox.waiting && !c.up.gate.wait && !c.down.writing)
  }

  /** It has bytes, credit or a CLOSE that no server session of its own has sent. */
  predicate Touched(cfg: Config, c: Client) {
    c.phase == CClosed || c.down.inbox.pushAck > 0 || c.up.gate.counter > cfg.cwindow
  }

  /** The client session that has the id. */
  function Latest(t: Lines, id: u16): (c: Client)
    requires Of(t, id) != []
  {
    Of(t, id)[|Of(t, id)| - 1].c
  }

  lemma {:induction false} StaysTouched(cfg: Config, t: Lines, fs: seq<Frame>, id: u16)
    requires Of(t, id) != [] && Opening(Latest(t, id)) && Touched(cfg, Latest(t, id))
    ensures Of(HearAll(t, fs), id) != [] && Touched(cfg, Latest(HearAll(t, fs), id))
    decreases |fs|
  {
    if fs != [] {
      StaysTouched(cfg, Hear(t, fs[0]), fs[1..], id);
    }
  }

  /** What still comes back for an earlier session under the id leaves a session just opened alone if
      and only if there is none of it: no payload, no credit, no CLOSE. */
  lemma {:induction false} UntouchedIff(cfg: Config, t: Lines, fs: seq<Frame>, id: u16)
    requires Of(t, id) != [] && Latest(t, id) == NewPair(cfg).c && Downward(fs)
    ensures Of(HearAll(t, fs), id) != []
    ensures Latest(HearAll(t, fs), id) == NewPair(cfg).c <==> Segs(id, fs)[0] == NoLane
    decreases |fs|
  {
    if fs != [] {
      var u := Hear(t, fs[0]);
      if Latest(u, id) == NewPair(cfg).c {
        UntouchedIff(cfg, u, fs[1..], id);
      } else {
        StaysTouched(cfg, u, fs[1..], id);
      }
    }
  }
}
