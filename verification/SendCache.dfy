/** `SendDataCache`: two queues, one receiving pushes while the other is being written, and the
    completion handlers that go with the pushed bytes. */
module SendCache {
  import opened Bytes

  /** The completion handlers the sessions push: what was sent, and which session resumes. They hold on
      to the session itself, here told from others under its id by a number. */
  datatype Handler =
    | ConnectSent(id: u16, opening: nat)
    | DataSent(id: u16, opening: nat)
    | AckSent(id: u16, opening: nat)
    | Ignored

  /** The cache seen as one FIFO: what waits to be written, and the write in flight. */
  datatype View = View(
    queue: bytes,
    handlers: seq<Handler>,
    sending: bool,
    flying: seq<Handler>,
    flight: bytes,
    connected: bool,
    destroyed: bool)

  function Empty(connected: bool): (v: View) {
    View([], [], false, [], [], connected, false)
  }

  predicate Ready(v: View) {
    v.queue != [] && v.connected && !v.sending && !v.destroyed
  }

  /** `async_send`: start writing everything queued, unless there is nothing, no connection, or a write. */
  function Kick(v: View): (r: View) {
    if Ready(v) then
      v.(queue := [], handlers := [], sending := true, flying := v.handlers, flight := v.queue)
    else v
  }

  /** The bytes `async_send` hands to the writer. */
  function Launched(v: View): (r: bytes) {
    if Ready(v) then v.queue else []
  }

  function Queued(v: View, data: bytes, h: Handler): (r: View) {
    v.(queue := v.queue + data, handlers := v.handlers + [h])
  }

  function Inserted(v: View, data: bytes): (r: View) {
    v.(queue := data + v.queue)
  }

  /** The write in flight is over and its handlers have run. */
  function Landed(v: View): (r: View) {
    v.(sending := false, flying := [], flight := [])
  }

  /** A destroyed cache has told every handler; its bytes stay where they are. */
  function Abandoned(v: View): (r: View) {
    v.(destroyed := true, handlers := [], flying := [])
  }

  datatype Push = Push(data: bytes, handler: Handler)

  function QueuedAll(v: View, ps: seq<Push>): (r: View) {
    if ps == [] then v else
      var n := |ps| - 1;
      Queued(QueuedAll(v, ps[..n]), ps[n].data, ps[n].handler)
  }

  /** The handlers of a list of pushes, in order. */
  function HandlersOf(ps: seq<Push>): (r: seq<Handler>) {
    if ps == [] then [] else HandlersOf(ps[..|ps| - 1]) + [ps[|ps| - 1].handler]
  }

  function BytesOf(ps: seq<Push>): (r: bytes) {
    if ps == [] then [] else BytesOf(ps[..|ps| - 1]) + ps[|ps| - 1].data
  }

  /** Pushing appends, in order, and touches nothing else. */
  lemma {:induction false} QueuedAllAppends(v: View, ps: seq<Push>)
    ensures QueuedAll(v, ps) == v.(queue := v.queue + BytesOf(ps), handlers := v.handlers + HandlersOf(ps))
  {
    if ps == [] {
      assert v.queue + [] == v.queue && v.handlers + [] == v.handlers;
    } else {
      QueuedAllAppends(v, ps[..|ps| - 1]);
    }
  }

  /** A completed write: its handlers ran, pushing `ps` meanwhile; a failed one is not followed up. */
  function Completed(v: View, ok: bool, ps: seq<Push>): (r: View) {
    var w := Landed(QueuedAll(v, ps));
    if ok then Kick(w) else w
  }

  ghost predicate Permuted(a: seq<Handler>, b: seq<Handler>) {
    multiset(a) == multiset(b)
  }

  function Flatten<T>(xs: seq<seq<T>>): (r: seq<T>) {
    if xs == [] then [] else Flatten(xs[..|xs| - 1]) + xs[|xs| - 1]
  }

  /** Each handler of `hs` followed by the ones it provoked. */
  function Interleave(hs: seq<Handler>, extra: seq<seq<Handler>>): (r: seq<Handler>)
    requires |hs| == |extra|
  {
    if hs == [] then []
    else Interleave(hs[..|hs| - 1], extra[..|hs| - 1]) + [hs[|hs| - 1]] + extra[|hs| - 1]
  }

  lemma NothingCalled()
    ensures Flatten<Handler>([]) == [] && Interleave([], []) == []
  {
  }

  lemma FlattenTake<T>(xs: seq<seq<T>>, i: nat)
    requires i < |xs|
    ensures Flatten(xs[..i + 1]) == Flatten(xs[..i]) + xs[i]
  {
    assert xs[..i + 1][..i] == xs[..i];
  }

  lemma InterleaveTake(hs: seq<Handler>, extra: seq<seq<Handler>>, i: nat)
    requires i < |hs| == |extra|
    ensures Interleave(hs[..i + 1], extra[..i + 1]) == Interleave(hs[..i], extra[..i]) + [hs[i]] + extra[i]
  {
    assert hs[..i + 1][..i] == hs[..i] && extra[..i + 1][..i] == extra[..i];
  }

  lemma {:induction false} InterleaveCount(hs: seq<Handler>, extra: seq<seq<Handler>>)
    requires |hs| == |extra|
    ensures multiset(Interleave(hs, extra)) == multiset(hs) + multiset(Flatten(extra))
  {
    if hs != [] {
      var n := |hs| - 1;
      InterleaveCount(hs[..n], extra[..n]);
      assert hs == hs[..n] + [hs[n]];
    }
  }

  /** Destroying calls what was queued on both sides and what that provoked, each once. */
  lemma OnceEach(called: seq<Handler>, other: seq<Handler>, main: seq<Handler>, extra: seq<seq<Handler>>,
                 recvMain: bool)
    requires |extra| == |other| + |main|
    ensures Permuted(called + Interleave(other + main, extra),
                     (if recvMain then called + other + main else called + main + other) + Flatten(extra))
  {
    InterleaveCount(other + main, extra);
    assert multiset(other + main) == multiset(other) + multiset(main);
  }

  // ---- completions whose handlers push, or destroy the cache ----

  /** What a handler does while it runs: its pushes, and then perhaps `destroy`. */
  datatype Entry = Entry(pushes: seq<Push>, destroys: bool)

  function PushesOf(script: seq<Entry>): (r: seq<Push>) {
    if script == [] then [] else PushesOf(script[..|script| - 1]) + script[|script| - 1].pushes
  }

  /** The first handler that destroys the cache, or the number of them. */
  function FirstBreak(script: seq<Entry>): (k: nat)
    ensures k <= |script| && (k < |script| ==> script[k].destroys)
    ensures forall i :: 0 <= i < k ==> !script[i].destroys
  {
    if script == [] then 0 else if script[0].destroys then 0 else 1 + FirstBreak(script[1..])
  }

  /** The entries that run: all, or those up to the one that destroys the cache. */
  function Ran(script: seq<Entry>): (r: seq<Entry>) {
    if FirstBreak(script) < |script| then script[..FirstBreak(script) + 1] else script
  }

  lemma PushesTake(script: seq<Entry>, i: nat)
    requires i < |script|
    ensures PushesOf(script[..i + 1]) == PushesOf(script[..i]) + script[i].pushes
  {
    assert script[..i + 1][..i] == script[..i];
  }

  /** What the completion calls: the flight, and if a handler destroys the cache, the flight up to it and
      then all that is queued on both sides, the flight once more among it. */
  function Calls(flying: seq<Handler>, queued: seq<Handler>, main: bool, script: seq<Entry>,
                 extra: seq<seq<Handler>>): (r: seq<Handler>)
    requires |script| == |flying|
    requires FirstBreak(script) < |script| ==> |extra| == |flying| + |queued|
  {
    var k := FirstBreak(script);
    if k == |script| then flying
    else flying[..k + 1] + Interleave(if main then flying + queued else queued + flying, extra)
  }

  /** Every handler pushed is called once, or still queued, if and only if no handler destroys the cache. */
  lemma CalledOnceIff(called: seq<Handler>, flying: seq<Handler>, queued: seq<Handler>, main: bool,
                      script: seq<Entry>, extra: seq<seq<Handler>>)
    requires |script| == |flying|
    requires FirstBreak(script) < |script| ==> |extra| == |flying| + |queued|
    ensures var k := FirstBreak(script);
      var left, more := if k == |script| then queued else [], if k == |script| then [] else Flatten(extra);
      var calls := called + Calls(flying, queued, main, script, extra);
      Permuted(calls + left, called + flying + queued + more) <==> k == |script|
  {
    hide Flatten, Interleave;
    var k := FirstBreak(script);
    if k < |script| {
      var walk := if main then flying + queued else queued + flying;
      InterleaveCount(walk, extra);
      assert multiset(walk) == multiset(flying) + multiset(queued);
      assert flying[0] in flying[..k + 1] by { assert flying[..k + 1][0] == flying[0]; }
      var all := multiset(called) + multiset(flying) + multiset(queued) + multiset(Flatten(extra));
      assert multiset(called + Calls(flying, queued, main, script, extra) + []) == all + multiset(flying[..k + 1]);
    }
  }

  lemma NothingPushed(v: View)
    ensures QueuedAll(v, []) == v && HandlersOf([]) == [] && PushesOf([]) == []
  {
  }

  lemma OneMorePushed(v: View, ps: seq<Push>, p: Push)
    ensures QueuedAll(v, ps + [p]) == Queued(QueuedAll(v, ps), p.data, p.handler)
    ensures HandlersOf(ps + [p]) == HandlersOf(ps) + [p.handler]
  {
  }

  /** Nothing sits on the other side unless it is being written; the bytes written and queued are the
      bytes accepted, in order; and the handlers called, in flight and queued are the handlers pushed:
      each once, and called in the order of the pushes as long as the cache lives. */
  ghost predicate Sound(v: View, wire: bytes, accepted: bytes, pushed: seq<Handler>, called: seq<Handler>) {
    && (!v.sending ==> v.flying == [] && v.flight == [])
    && wire + v.queue == accepted
    && (v.destroyed ==> v.handlers == [] && v.flying == [] && Permuted(called, pushed))
    && (!v.destroyed ==> pushed == called + v.flying + v.handlers)
  }

  lemma SoundKick(v: View, wire: bytes, accepted: bytes, pushed: seq<Handler>, called: seq<Handler>)
    requires Sound(v, wire, accepted, pushed, called)
    ensures Sound(Kick(v), wire + Launched(v), accepted, pushed, called)
  {
  }

  lemma SoundQueued(v: View, wire: bytes, accepted: bytes, pushed: seq<Handler>, called: seq<Handler>,
                    data: bytes, h: Handler)
    requires Sound(v, wire, accepted, pushed, called) && !v.destroyed
    ensures Sound(Queued(v, data, h), wire, accepted + data, pushed + [h], called)
  {
  }

  lemma SoundRefused(v: View, wire: bytes, accepted: bytes, pushed: seq<Handler>, called: seq<Handler>, h: Handler)
    requires Sound(v, wire, accepted, pushed, called) && v.destroyed
    ensures Sound(v, wire, accepted, pushed + [h], called + [h])
  {
  }

  /** A cache that still has a flight lives. */
  lemma LiveFlight(v: View, wire: bytes, accepted: bytes, pushed: seq<Handler>, called: seq<Handler>)
    requires Sound(v, wire, accepted, pushed, called)
    ensures v.destroyed ==> v.flying == [] && v.handlers == [] && Permuted(called, pushed)
    ensures !v.destroyed ==> pushed == called + v.flying + v.handlers
  {
  }

  lemma CallsAll(flying: seq<Handler>, queued: seq<Handler>, main: bool, script: seq<Entry>, extra: seq<seq<Handler>>)
    requires |script| == |flying| && FirstBreak(script) == |script|
    ensures Calls(flying, queued, main, script, extra) == flying
  {
  }

  lemma CallsBroken(flying: seq<Handler>, queued: seq<Handler>, main: bool, script: seq<Entry>,
                    extra: seq<seq<Handler>>)
    requires |script| == |flying| && FirstBreak(script) < |script| && |extra| == |flying| + |queued|
    ensures Calls(flying, queued, main, script, extra) ==
      flying[..FirstBreak(script) + 1] + Interleave(if main then flying + queued else queued + flying, extra)
  {
  }

  lemma NotOnce(v: View, pushed: seq<Handler>, called: seq<Handler>, main: bool, script: seq<Entry>,
                extra: seq<seq<Handler>>)
    requires |script| == |v.flying| && FirstBreak(script) < |script| && pushed == called + v.flying + v.handlers
    requires |extra| == |v.flying| + |v.handlers + HandlersOf(PushesOf(Ran(script)))|
    ensures var hs := HandlersOf(PushesOf(Ran(script)));
      !Permuted(called + Calls(v.flying, v.handlers + hs, main, script, extra), pushed + hs + Flatten(extra))
  {
    hide Calls, Permuted, HandlersOf, PushesOf, Flatten, FirstBreak;
    var hs := HandlersOf(PushesOf(Ran(script)));
    CalledOnceIff(called, v.flying, v.handlers + hs, main, script, extra);
    var calls := called + Calls(v.flying, v.handlers + hs, main, script, extra);
    assert calls + [] == calls;
    assert called + v.flying + (v.handlers + hs) == pushed + hs;
  }

  lemma Reorder(called: seq<Handler>, pushed: seq<Handler>, v: View)
    requires v.destroyed ==> v.flying == [] && v.handlers == [] && Permuted(called, pushed)
    requires !v.destroyed ==> pushed == called + v.flying + v.handlers
    ensures Permuted(called + v.flying + v.handlers, pushed)
  {
  }

  lemma SoundInserted(v: View, wire: bytes, accepted: bytes, pushed: seq<Handler>, called: seq<Handler>, data: bytes)
    requires Sound(v, wire, accepted, pushed, called)
    ensures Sound(Inserted(v, data), wire, wire + data + v.queue, pushed, called)
  {
  }

  /** After a completion the flight has moved from the queues to the handlers called. */
  lemma SoundLanded(v: View, wire: bytes, accepted: bytes, pushed: seq<Handler>, called: seq<Handler>, ps: seq<Push>)
    requires Sound(v, wire, accepted, pushed, called) && (v.destroyed ==> ps == [])
    ensures Sound(Landed(QueuedAll(v, ps)), wire, accepted + BytesOf(ps), pushed + HandlersOf(ps), called + v.flying)
  {
    hide HandlersOf, QueuedAll, BytesOf, Permuted;
    NothingPushed(v);
    QueuedAllAppends(v, ps);
    assert wire + v.queue + BytesOf(ps) == wire + (v.queue + BytesOf(ps));
    if v.destroyed {
      assert called + v.flying == called && pushed + HandlersOf(ps) == pushed;
    } else {
      assert (called + v.flying + v.handlers) + HandlersOf(ps) ==
        (called + v.flying) + [] + (v.handlers + HandlersOf(ps));
    }
  }

  class SendDataCache {
    var handlerQueue: seq<Handler>
    var dataQueue: bytes
    var handlerQueueOther: seq<Handler>
    var dataQueueOther: bytes
    var recvMain: bool        // which pair of queues current_recv_* points at
    var isAsyncSending: bool
    var connected: bool       // what is_connected() answers
    var destroyed: bool

    ghost var wire: bytes             // everything handed to the writer, in order
    ghost var accepted: bytes         // everything given to the living cache, in the order it must leave
    ghost var pushed: seq<Handler>    // every handler ever pushed, in order
    ghost var called: seq<Handler>    // every handler call, in order

    ghost function State(): (v: View)
      reads this
    {
      if recvMain then
        View(dataQueue, handlerQueue, isAsyncSending, handlerQueueOther, dataQueueOther, connected, destroyed)
      else
        View(dataQueueOther, handlerQueueOther, isAsyncSending, handlerQueue, dataQueue, connected, destroyed)
    }

    ghost predicate Valid()
      reads this
    {
      Sound(State(), wire, accepted, pushed, called)
    }

    constructor (connected: bool)
      ensures Valid() && State() == Empty(connected)
      ensures wire == [] && accepted == [] && pushed == [] && called == []
    {
      handlerQueue, dataQueue, handlerQueueOther, dataQueueOther := [], [], [], [];
      recvMain, isAsyncSending, destroyed := true, false, false;
      this.connected := connected;
      wire, accepted, pushed, called := [], [], [], [];
    }

    method AsyncSend()
      requires Valid()
      modifies this
      ensures Valid() && State() == Kick(old(State()))
      ensures wire == old(wire) + Launched(old(State()))
      ensures accepted == old(accepted) && pushed == old(pushed) && called == old(called)
    {
      SoundKick(State(), wire, accepted, pushed, called);
      var size := if recvMain then |dataQueue| else |dataQueueOther|;
      if size == 0 || !connected || isAsyncSending || destroyed {
        return;
      }
      isAsyncSending := true;
      wire := wire + (if recvMain then dataQueue else dataQueueOther);
      recvMain := !recvMain;
    }

    method InsertData(data: bytes)
      requires Valid()
      modifies this
      ensures Valid() && pushed == old(pushed) && called == old(called)
      ensures State() == if old(destroyed) then old(State()) else Kick(Inserted(old(State()), data))
      ensures wire == old(wire) + (if old(destroyed) then [] else Launched(Inserted(old(State()), data)))
      ensures accepted == if old(destroyed) then old(accepted) else old(wire) + data + old(State()).queue
    {
      hide Sound;
      if destroyed {
        return;
      }
      SoundInserted(State(), wire, accepted, pushed, called, data);
      accepted := wire + data + State().queue;
      if recvMain {
        dataQueue := data + dataQueue;
      } else {
        dataQueueOther := data + dataQueueOther;
      }
      AsyncSend();
    }

    method PushData(data: bytes, handler: Handler)
      requires Valid()
      modifies this
      ensures Valid() && pushed == old(pushed) + [handler]
      ensures State() == if old(destroyed) then old(State()) else Kick(Queued(old(State()), data, handler))
      ensures wire == old(wire) + (if old(destroyed) then [] else Launched(Queued(old(State()), data, handler)))
      ensures called == old(called) + (if old(destroyed) then [handler] else [])
      ensures accepted == old(accepted) + (if old(destroyed) then [] else data)
    {
      hide Sound;
      if destroyed {
        SoundRefused(State(), wire, accepted, pushed, called, handler);
        pushed := pushed + [handler];
        called := called + [handler];
        return;
      }
      SoundQueued(State(), wire, accepted, pushed, called, data, handler);
      Enqueue(data, handler);
      accepted := accepted + data;
      AsyncSend();
    }

    /** Append to the receiving queue and its handlers. */
    method Enqueue(data: bytes, handler: Handler)
      modifies `dataQueue, `handlerQueue, `dataQueueOther, `handlerQueueOther, `pushed
      ensures State() == Queued(old(State()), data, handler)
      ensures pushed == old(pushed) + [handler]
    {
      pushed := pushed + [handler];
      if recvMain {
        dataQueue := dataQueue + data;
        handlerQueue := handlerQueue + [handler];
      } else {
        dataQueueOther := dataQueueOther + data;
        handlerQueueOther := handlerQueueOther + [handler];
      }
    }

    /** The connection comes up: `is_connected` starts to answer yes. */
    method SetConnected()
      requires Valid()
      modifies `connected
      ensures Valid() && State() == old(State()).(connected := true)
    {
      connected := true;
    }

    /** The completion of the write in flight. `script[i]` says what the i-th handler does while it runs:
        its pushes go to the other queue and start nothing, because a write is in flight. One that
        destroys the cache has all handlers told, and ends the loop over the flight. */
    method Complete(ok: bool, script: seq<Entry>, extra: seq<seq<Handler>>)
      requires Valid() && isAsyncSending && |script| == |State().flying|
      requires FirstBreak(script) < |script| ==>
        |extra| == |State().flying| + |State().handlers + HandlersOf(PushesOf(Ran(script)))|
      modifies this
      ensures var was, ps := old(State()), PushesOf(Ran(script));
        && accepted == old(accepted) + BytesOf(ps)
        && called == old(called)
             + Calls(was.flying, was.handlers + HandlersOf(ps), old(recvMain), script, extra)
        && (FirstBreak(script) == |script| ==>
              && Valid() && destroyed == old(destroyed)
              && State() == Completed(was, ok, ps) && pushed == old(pushed) + HandlersOf(ps)
              && wire == old(wire) + (if ok then Launched(Landed(QueuedAll(was, ps))) else []))
        && (FirstBreak(script) < |script| ==>
              && destroyed && wire == old(wire) && State() == Landed(Abandoned(QueuedAll(was, ps)))
              && pushed == old(pushed) + HandlersOf(ps) + Flatten(extra))
      ensures Permuted(called + State().flying + State().handlers, pushed) <==> FirstBreak(script) == |script|
    {
      hide Flatten, HandlersOf, QueuedAll, BytesOf, PushesOf, Sound, Permuted, Calls, Interleave, FirstBreak;
      ghost var was, ps := State(), PushesOf(Ran(script));
      NothingPushed(was);
      assert script == [] ==> Ran(script) == [];
      LiveFlight(was, wire, accepted, pushed, called);
      SoundLanded(was, wire, accepted, pushed, called, ps);
      QueuedAllAppends(was, ps);
      var broke := CallFlight(script, extra);
      accepted := accepted + BytesOf(ps);
      if broke {
        Land();
        NotOnce(was, old(pushed), old(called), old(recvMain), script, extra);
        assert called + [] + [] == called;
        return;
      }
      CallsAll(was.flying, was.handlers + HandlersOf(ps), old(recvMain), script, extra);
      assert pushed == old(pushed) + HandlersOf(ps);
      Finish(ok);
    }

    /** The end of a completion whose handlers have run and left the cache alive. */
    method Finish(ok: bool)
      requires Sound(Landed(State()), wire, accepted, pushed, called)
      modifies this
      ensures Valid() && State() == (if ok then Kick(Landed(old(State()))) else Landed(old(State())))
      ensures wire == old(wire) + (if ok then Launched(Landed(old(State()))) else [])
      ensures accepted == old(accepted) && pushed == old(pushed) && called == old(called) && destroyed == old(destroyed)
      ensures Permuted(called + State().flying + State().handlers, pushed)
    {
      hide Sound, Permuted;
      Land();
      if ok {
        AsyncSend();
      }
      LiveFlight(State(), wire, accepted, pushed, called);
      Reorder(called, pushed, State());
    }

    method Land()
      modifies `dataQueue, `handlerQueue, `dataQueueOther, `handlerQueueOther, `isAsyncSending
      ensures State() == Landed(old(State()))
    {
      if recvMain {
        handlerQueueOther, dataQueueOther := [], [];
      } else {
        handlerQueue, dataQueue := [], [];
      }
      isAsyncSending := false;
    }

    /** The loop of the completion over the handlers of the flight. */
    method CallFlight(script: seq<Entry>, extra: seq<seq<Handler>>) returns (broke: bool)
      requires |script| == |State().flying| && (script != [] ==> !destroyed)
      requires FirstBreak(script) < |script| ==>
        |extra| == |State().flying| + |State().handlers + HandlersOf(PushesOf(Ran(script)))|
      modifies `dataQueue, `handlerQueue, `dataQueueOther, `handlerQueueOther, `destroyed, `pushed, `called
      ensures broke == (FirstBreak(script) < |script|)
      ensures var was, ps := old(State()), PushesOf(Ran(script));
        && called == old(called) + Calls(was.flying, was.handlers + HandlersOf(ps), old(recvMain), script, extra)
        && State() == (if broke then Abandoned(QueuedAll(was, ps)) else QueuedAll(was, ps))
        && pushed == old(pushed) + HandlersOf(ps) + (if broke then Flatten(extra) else [])
    {
      hide Flatten, HandlersOf, QueuedAll, BytesOf, PushesOf, Interleave, Calls, FirstBreak;
      var hs := if recvMain then handlerQueueOther else handlerQueue;
      ghost var was := State();
      NothingPushed(was);
      broke := false;
      var i := 0;
      while i < |hs|
        invariant 0 <= i <= |hs| && i <= FirstBreak(script) && (script != [] ==> !destroyed)
        invariant called == old(called) + hs[..i]
        invariant State() == QueuedAll(was, PushesOf(script[..i]))
        invariant pushed == old(pushed) + HandlersOf(PushesOf(script[..i]))
      {
        called := called + [hs[i]];
        RunScript(was, PushesOf(script[..i]), old(pushed), script[i].pushes);
        PushesTake(script, i);
        if script[i].destroys {
          QueuedAllAppends(was, PushesOf(script[..i + 1]));
          assert hs[..i] + [hs[i]] == hs[..i + 1];
          CallsBroken(was.flying, was.handlers + HandlersOf(PushesOf(script[..i + 1])), recvMain, script, extra);
          TellAll(extra);
          return true;
        }
        i := i + 1;
      }
      assert script[..i] == script && hs[..i] == hs;
      CallsAll(was.flying, was.handlers + HandlersOf(PushesOf(script)), recvMain, script, extra);
    }

    /** The pushes one handler makes, after `done` made by the handlers before it. */
    method RunScript(ghost was: View, ghost done: seq<Push>, ghost first: seq<Handler>, pushes: seq<Push>)
      requires State() == QueuedAll(was, done) && pushed == first + HandlersOf(done)
      modifies `dataQueue, `handlerQueue, `dataQueueOther, `handlerQueueOther, `pushed
      ensures State() == QueuedAll(was, done + pushes) && pushed == first + HandlersOf(done + pushes)
    {
      hide HandlersOf, QueuedAll, BytesOf;
      var i := 0;
      ghost var all := done;
      assert done + pushes[..0] == done;
      while i < |pushes|
        invariant 0 <= i <= |pushes| && all == done + pushes[..i]
        invariant State() == QueuedAll(was, all) && pushed == first + HandlersOf(all)
      {
        Enqueue(pushes[i].data, pushes[i].handler);
        OneMorePushed(was, all, pushes[i]);
        all := all + [pushes[i]];
        i := i + 1;
      }
      assert pushes[..i] == pushes;
    }

    /** Every queued handler is told that the pipe broke. `extra[i]` are handlers pushed by the i-th
        of them while it runs, which a destroyed cache calls at once. */
    method Destroy(extra: seq<seq<Handler>>)
      requires Valid() && |extra| == |handlerQueueOther| + |handlerQueue|
      modifies this
      ensures Valid() && destroyed && wire == old(wire) && accepted == old(accepted)
      ensures old(destroyed) ==> State() == old(State()) && called == old(called) && pushed == old(pushed)
      ensures !old(destroyed) ==>
        && State() == Abandoned(old(State()))
        && called == old(called) + Interleave(old(handlerQueueOther) + old(handlerQueue), extra)
        && pushed == old(pushed) + Flatten(extra)
    {
      hide Flatten, Interleave, Permuted;
      if destroyed {
        return;
      }
      OnceEach(called, handlerQueueOther, handlerQueue, extra, recvMain);
      TellAll(extra);
    }

    method TellAll(extra: seq<seq<Handler>>)
      requires |extra| == |handlerQueueOther| + |handlerQueue|
      modifies `handlerQueue, `handlerQueueOther, `destroyed, `pushed, `called
      ensures State() == Abandoned(old(State()))
      ensures called == old(called) + Interleave(old(handlerQueueOther) + old(handlerQueue), extra)
      ensures pushed == old(pushed) + Flatten(extra)
    {
      hide Flatten, Interleave;
      destroyed := true;
      CallQueued(handlerQueueOther + handlerQueue, extra);
      handlerQueueOther, handlerQueue := [], [];
    }

    /** The loops of `destroy` over the queued handlers. */
    method CallQueued(hs: seq<Handler>, extra: seq<seq<Handler>>)
      requires |extra| == |hs|
      modifies `called, `pushed
      ensures called == old(called) + Interleave(hs, extra)
      ensures pushed == old(pushed) + Flatten(extra)
    {
      hide Flatten, Interleave;
      NothingCalled();
      var i := 0;
      while i < |hs|
        invariant 0 <= i <= |hs|
        invariant called == old(called) + Interleave(hs[..i], extra[..i])
        invariant pushed == old(pushed) + Flatten(extra[..i])
      {
        called := called + [hs[i]] + extra[i];
        pushed := pushed + extra[i];
        InterleaveTake(hs, extra, i);
        FlattenTake(extra, i);
        i := i + 1;
      }
      assert hs[..i] == hs && extra[..i] == extra;
    }
  }
}
