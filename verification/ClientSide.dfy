/** The client as the source has it: `ClientSession` objects whose callbacks change them in place, and
    the sending half of the `Pipeline` they share. */
module ClientSide {
  import opened Bytes
  import opened Frames
  import opened SendCache
  import opened Trojan
  import opened Component
  import opened Session

  /** `New` until the CONNECT frame is sent and the session started, `Ready` until its request is. */
  datatype Status = New | Ready | Forward | Destroyed

  /** A frame a session hands to its pipeline, with the handler to call once it is sent. */
  datatype Sent = Sent(frame: Frame, handler: Handler)

  class ClientSession {
    const id: u16
    const opening: nat        // tells it from the other sessions under its id, as its address does
    const component: PipelineComponent
    var status: Status
    var inReading: bool       // the guard of in_read_buf
    var wack: nat             // what the write in progress will acknowledge

    ghost var threw: bool     // the guard refused a second read
    ghost var taken: bytes    // read from the local socket
    ghost var written: bytes  // written to the local socket
    ghost var writing: bool   // a write of `wdata` to the local socket is in progress
    ghost var wdata: bytes
    ghost var req: Option<bytes>
    ghost var ended: Ending

    ghost function State(): (c: Client)
      reads this, component, component.cache
    {
      Client(
        match status case New => CNew case Ready => CReady case Forward => CForward case Destroyed => CClosed,
        Sender(component.Credit(), inReading, threw, taken),
        Receiver(component.cache.State(), writing, wdata, wack, component.writeCloseFuture, written),
        req, ended)
    }

    ghost predicate Valid()
      reads this, component, component.cache
    {
      && component.isUsePipeline
      && (status != Destroyed ==> component.isAsyncWriting == writing)
      && (status == New || status == Ready ==> !component.waitForAck && !component.cache.isWaiting)
    }

    constructor (id: u16, opening: nat, cfg: Config)
      ensures Valid() && this.id == id && this.opening == opening && State() == NewPair(cfg).c
    {
      this.id, this.opening := id, opening;
      var c := new PipelineComponent(cfg.clientWindow);
      c.isUsePipeline := true;
      component := c;
      status, inReading, wack := New, false, 0;
      threw, taken, written, writing, wdata, req, ended := false, [], [], false, [], None, Running;
    }

    method InAsyncRead()
      requires Valid() && status == Forward
      modifies this`inReading, this`threw, component
      ensures Valid() && State() == old(State()).(up := TryRead(old(State()).up))
    {
      var ok := component.PreCallAckFunc();
      if !ok {
        return;
      }
      threw := threw || inReading;
      inReading := true;
    }

    /** A handler of the read cache, writing what was received. */
    method OutRecv(data: bytes, ackCount: nat)
      requires Valid() && status == Forward
      modifies this`writing, this`wdata, this`wack, component`isAsyncWriting
      ensures Valid() && State() == old(State()).(down := StartWrite(old(State()).down, Deliver(data, ackCount)))
    {
      component.isAsyncWriting := true;
      writing, wdata, wack := true, data, ackCount;
    }

    method OutAsyncRead()
      requires Valid() && status == Forward
      modifies this, component, component.cache
      ensures Valid() && status == Forward && State() == old(State()).(down := Ask(old(State()).down))
    {
      var call := component.cache.AsyncRead();
      if call.Deliver? {
        OutRecv(call.data, call.count);
      }
    }

    // ---- frames ----

    method RecvData(data: bytes)
      requires Valid() && status != Destroyed
      modifies this, component, component.cache
      ensures Valid() && State() == COnData(old(State()), data)
    {
      var ok, call := component.PipelineInRecv(data);
      if call.Deliver? {
        OutRecv(call.data, call.count);
      }
    }

    method RecvAckCmd(count: nat)
      requires Valid() && status != Destroyed
      modifies this, component
      ensures Valid() && State() == COnAck(old(State()), count)
    {
      component.RecvAckCmd(count);
      if component.waitForAck {
        InAsyncRead();
      }
    }

    method RecvClose()
      requires Valid() && status != Destroyed
      modifies this, component
      ensures Valid() && State() == COnClose(old(State()))
    {
      var gone := component.CanbeClosedByPipeline();
      if gone {
        status, ended := Destroyed, PeerClosed;
      } else {
        component.writeCloseFuture := true;
      }
    }

    // ---- completions ----

    /** The CONNECT frame was sent. */
    method Start()
      requires Valid()
      modifies this`status
      ensures Valid() && State() == CConnectSent(old(State()))
    {
      if status == New {
        status := Ready;
      }
    }

    /** `request_remote`: the request leaves, and what comes back is asked for. */
    method RequestRemote(request: bytes) returns (send: Sent)
      requires Valid() && status == Ready
      modifies this, component, component.cache
      ensures Valid() && State() == CRequest(old(State()), request)
      ensures send == Sent(Data(id, request), DataSent(id, opening))
    {
      status, req := Forward, Some(request);
      OutAsyncRead();
      send := Sent(Data(id, request), DataSent(id, opening));
    }

    method InReadDone(data: bytes) returns (send: Sent)
      requires Valid() && status == Forward
      modifies this
      ensures Valid() && State() == CRead(old(State()), data)
      ensures send == Sent(Data(id, data), DataSent(id, opening))
    {
      inReading, taken := false, taken + data;
      send := Sent(Data(id, data), DataSent(id, opening));
    }

    /** A DATA frame was sent. */
    method OutSent()
      requires Valid()
      modifies this, component
      ensures Valid() && State() == CDataSent(old(State()))
    {
      if status == Forward {
        InAsyncRead();
      }
    }

    /** An ACK frame was sent. */
    method InSent()
      requires Valid()
      modifies this, component, component.cache
      ensures Valid() && State() == CAckSent(old(State()))
    {
      if status == Forward {
        OutAsyncRead();
      }
    }

    /** A write to the local socket completed: a deferred close is due, or an acknowledgement. */
    method InWritten() returns (send: Sent)
      requires Valid() && status == Forward && writing
      modifies this, component
      ensures Valid() && State() == CWriteDone(old(State()))
      ensures send == if WriteCloses(old(State()).down) then Sent(Close(id), Ignored)
        else Sent(Ack(id, old(wack) % 0x1_0000), AckSent(id, opening))
    {
      var count := wack % 0x1_0000;
      var queued := component.cache.HasQueuedData();
      writing, wdata, wack, written := false, [], 0, written + wdata;
      if component.writeCloseFuture && !queued {
        status, ended := Destroyed, PeerClosed;
        return Sent(Close(id), Ignored);
      }
      component.isAsyncWriting := false;
      return Sent(Ack(id, count), AckSent(id, opening));
    }

    /** The same after the session was destroyed, which only reaches the local socket. */
    method InWrittenLate()
      requires Valid() && status == Destroyed && writing
      modifies this
      ensures Valid() && status == Destroyed && State() == CLate(old(State()))
    {
      writing, wdata, wack, written := false, [], 0, written + wdata;
    }

    method Fail() returns (send: Sent)
      requires Valid() && status != Destroyed
      modifies this
      ensures Valid() && State() == CEnd(old(State()), Failed) && send == Sent(Close(id), Ignored)
    {
      status, ended := Destroyed, Failed;
      send := Sent(Close(id), Ignored);
    }
  }

  // ---- the pipeline ----

  lemma {:induction false} EncodeAllAppend(a: seq<Frame>, b: seq<Frame>)
    requires AllSendable(a) && AllSendable(b)
    ensures AllSendable(a + b) && EncodeAll(a + b) == EncodeAll(a) + EncodeAll(b)
  {
    hide Encode, Sendable;
    if a == [] {
      assert a + b == b;
    } else {
      EncodeAllAppend(a[1..], b);
      assert (a + b)[1..] == a[1..] + b;
    }
  }

  lemma EncodeOne(f: Frame)
    requires Sendable(f)
    ensures AllSendable([f]) && EncodeAll([f]) == Encode(f)
  {
  }

  /** What a pipeline's cache was given: the password line, once connected, and then exactly the frames.
      Before that nothing has left. */
  ghost predicate Carries(pw: bytes, connected: bool, wire: bytes, accepted: bytes, fs: seq<Frame>) {
    && AllSendable(fs)
    && (if connected then accepted == pw + CRLF + EncodeAll(fs) else wire == [] && accepted == EncodeAll(fs))
  }

  lemma CarriesMore(pw: bytes, connected: bool, wire: bytes, accepted: bytes, fs: seq<Frame>, more: seq<Frame>)
    requires Carries(pw, connected, wire, accepted, fs) && AllSendable(more)
    ensures Carries(pw, connected, wire, accepted + EncodeAll(more), fs + more)
  {
    hide EncodeAll, AllSendable;
    EncodeAllAppend(fs, more);
    assert (pw + CRLF + EncodeAll(fs)) + EncodeAll(more) == pw + CRLF + (EncodeAll(fs) + EncodeAll(more));
  }

  /** The password goes in front of the frames queued before the connection came up. */
  lemma CarriesPassword(pw: bytes, wire: bytes, queue: bytes, fs: seq<Frame>, after: bytes)
    requires Carries(pw, false, wire, wire + queue, fs)
    ensures Carries(pw, true, after, wire + (pw + CRLF) + queue, fs)
  {
  }

  lemma CarriesWire(pw: bytes, connected: bool, wire: bytes, after: bytes, accepted: bytes, fs: seq<Frame>)
    requires Carries(pw, connected, wire, accepted, fs) && (!connected ==> after == wire)
    ensures Carries(pw, connected, after, accepted, fs)
  {
  }

  /** The sending half of a pipeline. */
  class Pipeline {
    const password: bytes
    const cache: SendDataCache
    ghost var frames: seq<Frame>    // every frame sent, in order

    ghost predicate Valid()
      reads this, cache
    {
      && cache.Valid() && !cache.destroyed
      && Carries(password, cache.connected, cache.wire, cache.accepted, frames)
    }

    constructor (password: bytes)
      ensures Valid() && fresh(cache) && this.password == password && frames == [] && !cache.connected
    {
      this.password := password;
      cache := new SendDataCache(false);
      frames := [];
    }

    /** What has left on the wire is the password line and the frames in order, but for what is queued. */
    lemma WireIs()
      requires Valid() && cache.connected
      ensures cache.wire + cache.State().queue == password + CRLF + EncodeAll(frames)
    {
    }

    lemma QueueIs()
      requires Valid()
      ensures cache.wire + cache.State().queue == cache.accepted
    {
    }

    /** The connection is up, with frames perhaps already queued. */
    method OnConnected()
      requires Valid() && !cache.connected
      modifies cache
      ensures Valid() && cache.connected
    {
      hide Carries, Sound;
      QueueIs();
      ghost var wire, queue := cache.wire, cache.State().queue;
      cache.SetConnected();
      cache.InsertData(password + CRLF);
      CarriesPassword(password, wire, queue, frames, cache.wire);
    }

    method SessionAsyncSendCmd(send: Sent)
      requires Valid() && Sendable(send.frame)
      modifies this, cache
      ensures Valid() && frames == old(frames) + [send.frame] && cache.connected == old(cache.connected)
    {
      hide Carries, Sound, EncodeAll, Encode;
      EncodeOne(send.frame);
      CarriesMore(password, cache.connected, cache.wire, cache.accepted, frames, [send.frame]);
      cache.PushData(Encode(send.frame), send.handler);
      frames := frames + [send.frame];
      CarriesWire(password, cache.connected, old(cache.wire), cache.wire, cache.accepted, frames);
    }

    /** A write completed. Its handlers make pushes, which are frames too; none of a successful write
        destroys the pipeline. */
    method Completed(script: seq<Entry>, ghost more: seq<Frame>)
      requires Valid() && cache.isAsyncSending && |script| == |cache.State().flying| && FirstBreak(script) == |script|
      requires AllSendable(more) && BytesOf(PushesOf(script)) == EncodeAll(more)
      modifies this, cache
      ensures Valid() && frames == old(frames) + more && cache.connected == old(cache.connected)
    {
      hide Carries, Sound, EncodeAll, BytesOf, PushesOf, QueuedAll, AllSendable, FirstBreak, Calls, Permuted;
      CarriesMore(password, cache.connected, cache.wire, cache.accepted, frames, more);
      QueuedAllAppends(cache.State(), PushesOf(script));
      cache.Complete(true, script, []);
      frames := frames + more;
      CarriesWire(password, cache.connected, old(cache.wire), cache.wire, cache.accepted, frames);
    }
  }
}
