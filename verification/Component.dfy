/** The per-session part of a pipeline: the credit gate and close flags of `PipelineComponent`, its
    `ReadDataCache`, and the allocation of session ids. */
module Component {
  import opened Bytes

  /** The credit gate of a sending end. */
  datatype Gate = Gate(counter: nat, first: bool, wait: bool)

  /** Where a credit counter starts: the configured window goes through a signed 32-bit integer before it
      is stored in 64 bits. */
  function InitialCounter(window: u32): (n: nat)
    ensures n <= 65534 <==> window <= 65534
    ensures window >= 0x8000_0000 ==> n >= 0x8000_0000_0000_0000
  {
    if window < 0x8000_0000 then window else window + 0xFFFF_FFFF_0000_0000
  }

  predicate Open(g: Gate) {
    g.first || g.counter > 0
  }

  /** A call of `pre_call_ack_func`; the very first one costs nothing. */
  function Called(g: Gate): (r: Gate) {
    if Open(g) then Gate(if g.first then g.counter else g.counter - 1, false, false)
    else g.(wait := true)
  }

  function Acked(g: Gate, n: nat): (r: Gate) {
    g.(counter := g.counter + n)
  }

  /** What a `ReadDataCache` holds: frames merged into one run of bytes, and how many they were. */
  datatype Inbox = Inbox(queue: bytes, pushAck: nat, waiting: bool)

  datatype Delivery = Nothing | Deliver(data: bytes, count: nat)

  function Pushed(i: Inbox, d: bytes): (r: Inbox) {
    if i.waiting then i.(waiting := false) else Inbox(i.queue + d, i.pushAck + 1, false)
  }

  function OnPush(i: Inbox, d: bytes): (r: Delivery) {
    if i.waiting then Deliver(d, 1) else Nothing
  }

  function Asked(i: Inbox): (r: Inbox) {
    if i.queue == [] then i.(waiting := true) else Inbox([], 0, i.waiting)
  }

  function OnAsk(i: Inbox): (r: Delivery) {
    if i.queue == [] then Nothing else Deliver(i.queue, i.pushAck)
  }

  class ReadDataCache {
    var dataQueue: bytes
    var pushAckCount: nat
    var isWaiting: bool

    ghost function State(): (i: Inbox)
      reads this
    {
      Inbox(dataQueue, pushAckCount, isWaiting)
    }

    constructor ()
      ensures State() == Inbox([], 0, false)
    {
      dataQueue, pushAckCount, isWaiting := [], 0, false;
    }

    /** The call of the waiting handler, if there is one, is the result. */
    method PushData(data: bytes) returns (call: Delivery)
      modifies this
      ensures State() == Pushed(old(State()), data) && call == OnPush(old(State()), data)
    {
      if isWaiting {
        isWaiting := false;
        call := Deliver(data, 1);
      } else {
        pushAckCount := pushAckCount + 1;
        dataQueue := dataQueue + data;
        call := Nothing;
      }
    }

    /** A handler that does not call back into the cache, as on the TCP path. */
    method AsyncRead() returns (call: Delivery)
      modifies this
      ensures State() == Asked(old(State())) && call == OnAsk(old(State()))
    {
      if |dataQueue| == 0 {
        isWaiting := true;
        call := Nothing;
      } else {
        call := Deliver(dataQueue, pushAckCount);
        dataQueue := [];
        pushAckCount := 0;
      }
    }

    method HasQueuedData() returns (b: bool)
      ensures b <==> dataQueue != []
    {
      b := |dataQueue| > 0;
    }
  }

  class PipelineComponent {
    const cache: ReadDataCache
    var ackCounter: nat
    var waitForAck: bool
    var firstCallAck: bool
    var isUsePipeline: bool
    var isAsyncWriting: bool
    var writeCloseFuture: bool

    ghost function Credit(): (g: Gate)
      reads this
    {
      Gate(ackCounter, firstCallAck, waitForAck)
    }

    constructor (window: u32)
      ensures fresh(cache) && Credit() == Gate(InitialCounter(window), true, false)
      ensures cache.State() == Inbox([], 0, false)
      ensures !isUsePipeline && !isAsyncWriting && !writeCloseFuture
    {
      cache := new ReadDataCache();
      ackCounter, waitForAck, firstCallAck := InitialCounter(window), false, true;
      isUsePipeline, isAsyncWriting, writeCloseFuture := false, false, false;
    }

    method RecvAckCmd(count: nat)
      modifies `ackCounter
      ensures Credit() == Acked(old(Credit()), count)
    {
      ackCounter := ackCounter + count;
    }

    method PreCallAckFunc() returns (ok: bool)
      modifies `ackCounter, `waitForAck, `firstCallAck
      ensures ok == Open(old(Credit())) && Credit() == Called(old(Credit()))
    {
      if !firstCallAck {
        if ackCounter <= 0 {
          waitForAck := true;
          return false;
        }
        ackCounter := ackCounter - 1;
      }
      waitForAck := false;
      firstCallAck := false;
      return true;
    }

    /** False is the source's `logic_error`. */
    method PipelineInRecv(data: bytes) returns (ok: bool, call: Delivery)
      modifies cache
      ensures ok == isUsePipeline
      ensures ok ==> cache.State() == Pushed(old(cache.State()), data) && call == OnPush(old(cache.State()), data)
      ensures !ok ==> cache.State() == old(cache.State()) && call == Nothing
    {
      if !isUsePipeline {
        return false, Nothing;
      }
      ok := true;
      call := cache.PushData(data);
    }

    method CanbeClosedByPipeline() returns (b: bool)
      ensures b <==> !isAsyncWriting && cache.dataQueue == []
    {
      var queued := cache.HasQueuedData();
      b := !isAsyncWriting && !queued;
    }
  }

  // ---- session ids ----

  function Ahead(c: u16, k: nat): (r: u16) {
    (c + k) % IDS
  }

  /** Counting up from `c` and wrapping, the k-th id is the first that is not in use. */
  predicate FirstFreeAt(used: set<u16>, c: u16, k: nat) {
    k < IDS && Ahead(c, k) !in used && forall j :: 0 <= j < k ==> Ahead(c, j) in used
  }

  ghost function Range(n: nat): (r: set<int>)
    ensures |r| == n && forall x :: x in r <==> 0 <= x < n
  {
    if n == 0 then {} else Range(n - 1) + {n - 1}
  }

  lemma Missing(s: set<int>, n: nat) returns (x: nat)
    requires |s| < n && forall y :: y in s ==> 0 <= y < n
    ensures x < n && x !in s
  {
    var r := Range(n);
    assert s <= r && r != s;
    x :| x in r && x !in s;
  }

  /** As long as one id is free, the search finds it within one turn of the counter. */
  lemma SomeFree(used: set<u16>, c: u16) returns (k: nat)
    requires |used| < IDS
    ensures k < IDS && Ahead(c, k) !in used
  {
    var x := Missing(used, IDS);
    k := if x >= c then x - c else x - c + IDS;
  }

  /** How far from `c` the first free id is, when the ones before `k` are known to be taken. */
  function Gap(used: set<u16>, c: u16, k: nat): (r: nat)
    requires |used| < IDS && k <= IDS && forall j :: 0 <= j < k ==> Ahead(c, j) in used
    ensures FirstFreeAt(used, c, r)
    decreases IDS - k
  {
    assert k < IDS by {
      var free := SomeFree(used, c);
    }
    if Ahead(c, k) !in used then k else Gap(used, c, k + 1)
  }

  function NextId(used: set<u16>, c: u16): (id: u16)
    requires |used| < IDS
  {
    Ahead(c, Gap(used, c, 0))
  }

  lemma AheadStep(c: u16, k: nat)
    ensures Ahead(c, 0) == c && Ahead(Ahead(c, k), 1) == Ahead(c, k + 1)
  {
  }

  /** The static state behind the ids, and the ids the live sessions hold. */
  datatype Pool = Pool(counter: u16, used: set<u16>, live: seq<u16>)

  datatype IdOp = Allocate | Free(i: nat)

  /** An allocation that finds the ids exhausted throws, and the session is never made. */
  function Apply(p: Pool, op: IdOp): (r: Pool) {
    match op
    case Allocate =>
      if |p.used| >= 0xFFFF then p
      else
        var id := NextId(p.used, p.counter);
        Pool(Ahead(id, 1), p.used + {id}, p.live + [id])
    case Free(i) =>
      if i < |p.live| then Pool(p.counter, p.used - {p.live[i]}, p.live[..i] + p.live[i + 1..]) else p
  }

  function ApplyAll(p: Pool, ops: seq<IdOp>): (r: Pool)
    decreases |ops|
  {
    if ops == [] then p else ApplyAll(Apply(p, ops[0]), ops[1..])
  }

  /** Live sessions hold distinct ids, and those are the ids in use. */
  ghost predicate Exact(p: Pool) {
    && (forall i, j :: 0 <= i < j < |p.live| ==> p.live[i] != p.live[j])
    && (forall x :: x in p.used <==> x in p.live)
  }

  lemma AllocateExact(p: Pool)
    requires Exact(p) && |p.used| < 0xFFFF
    ensures Exact(Apply(p, Allocate))
  {
  }

  lemma FreeExact(p: Pool, i: nat)
    requires Exact(p) && i < |p.live|
    ensures Exact(Apply(p, Free(i)))
  {
  }

  lemma ApplyExact(p: Pool, op: IdOp)
    requires Exact(p)
    ensures Exact(Apply(p, op))
  {
    match op
    case Allocate =>
      if |p.used| < 0xFFFF {
        AllocateExact(p);
      }
    case Free(i) =>
      if i < |p.live| {
        FreeExact(p, i);
      }
  }

  /** In every run of allocations and releases the ids of live sessions stay distinct and exact. */
  lemma {:induction false} EveryRunExact(p: Pool, ops: seq<IdOp>)
    requires Exact(p)
    ensures Exact(ApplyAll(p, ops))
    decreases |ops|
  {
    hide Apply, Exact;
    if ops != [] {
      ApplyExact(p, ops[0]);
      EveryRunExact(Apply(p, ops[0]), ops[1..]);
    }
  }

  class SessionIds {
    var counter: u16
    var used: set<u16>
    ghost var live: seq<u16>

    ghost function State(): (p: Pool)
      reads this
    {
      Pool(counter, used, live)
    }

    constructor ()
      ensures State() == Pool(0, {}, []) && Exact(State())
    {
      counter, used, live := 0, {}, [];
    }

    /** False is the source's `logic_error`. */
    method AllocateId() returns (ok: bool, id: u16)
      requires Exact(State())
      modifies this
      ensures Exact(State()) && State() == Apply(old(State()), Allocate)
      ensures ok <==> |old(used)| < 0xFFFF
      ensures ok ==> id == NextId(old(used), old(counter)) && id !in old(used)
      ensures ok ==> live == old(live) + [id]
    {
      hide Gap, Ahead, Exact;
      ApplyExact(State(), Allocate);
      if |used| >= 0xFFFF {
        return false, 0;
      }
      ghost var first := counter;
      ghost var gap, i := Gap(used, first, 0), 0;
      AheadStep(first, 0);
      id := counter;
      counter := Ahead(counter, 1);
      while id in used
        invariant i <= gap && id == Ahead(first, i) && counter == Ahead(id, 1) && used == old(used) && live == old(live)
        decreases gap - i
      {
        AheadStep(first, i);
        id := counter;
        counter := Ahead(counter, 1);
        i := i + 1;
      }
      used, live := used + {id}, live + [id];
      ok := true;
    }

    /** A session gives its id back, which is then free. */
    method FreeId(id: u16, ghost i: nat)
      requires Exact(State()) && i < |live| && live[i] == id
      modifies `used, `live
      ensures Exact(State()) && State() == Apply(old(State()), Free(i)) && id !in used
    {
      ApplyExact(State(), Free(i));
      used, live := used - {id}, live[..i] + live[i + 1..];
    }
  }
}
