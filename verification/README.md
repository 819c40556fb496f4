# Trojan Plus pipelines, in Dafny

Trojan Plus carries many proxied sessions over one TLS stream, a *pipeline*. This project models that
protocol as its two ends implement it, the scheduling of pipelines in the client, and the smaller formats
and lookups around them, and proves what they keep.

**The protocol.** `Frames` is the frame format and the receive loop; `SendCache` the double-buffered sender;
`Component` the read cache, the credit gate and the session ids of one session. `Session` has every callback
of a client and a server session as a function, and two invariants of the pair: one that holds in every run,
whatever comes back from the server, and one of the way back; `SessionSteps` shows each callback keeps both.
`Flight` sorts the frames and handlers in flight by id and by opening, since an id is used by many sessions one
after the other, and lifts the invariants to all sessions at once. `Protocol` is the whole: two processes, two
send caches, two byte streams and their read buffers, and 25 kinds of events, each one callback of the source:
among them writes and connects that complete after their session has ended, what a server session does that
came back that way or was taken off the list, and the loss of the connection at either end.
An id is opened again as soon as the client session that had it is gone. The environment decides which pending
operation completes next, what is read from sockets, when connections and sessions fail, and how the streams
are cut into reads. `Progress` reads the invariants off after every run, and `Delivery` shows that a pipeline
left alone comes to rest with everything delivered. `Runs` builds runs step by step that meet the limits of the
protocol, and `Reuse` settles what a former session under an id can still do to a new one. `ClientSide` and
`ServerSide` have the same callbacks as classes that change in place, each proved equal to the function the
protocol uses, with the server's in-place session list and receive loop proved to be the protocol's lines.

What comes from the client is in order in every run. What comes back is not, where an id is opened again too
early, because frames carry the id only. The theorems on the way back, on credit and on closing are therefore
over runs that are *calm* about the id they speak of: that id is opened again only once the server has the last
session under it off its list, that session cannot return, and nothing of it is on its way back
(`Protocol.IsCalm`, `Flight.Reusable`). What happens to other ids does not matter.

**Scheduling.** `Scheduler` keeps a fixed number of pipelines per server configuration, interleaves them in
place, and chooses one for each new session.

**The rest.** `Trojan` (addresses and requests), `Udp` and `UdpForward` (datagrams over a stream), `Association`
(the reading half of a UDP association inside a pipeline), `Dns` (names in messages), `Domains` (the domain
trie), `Checksum` (Internet checksums), `Bytes` (buffers and integers).

Events stand for foreign calls: sockets, TLS, resolvers, timers and the completion order of asynchronous
operations are the environment's; cancelling an operation does not recall a completion already due. Integers
are unbounded except where the source's width shows: session ids and frame counts (16 bits), frame lengths
(32 bits, narrowed to `int` by the parser), configured windows (32 bits, converted to `int` before they start
the 64-bit credit counters, `Component.InitialCounter`), DNS label lengths (8 bits), checksums (32-bit sums).

## What the code really does

These are places where the obvious claim is false of the code. Each has the exact condition under which it
holds, for all inputs.

- A legal frame of 4294967294 payload bytes is taken for a format error, because the parser's result narrows
  to -2; every other legal frame is read back (`Frames.SelfDelimiting`).
- The number of unacknowledged frames is bounded by window + 1, since the first call of the gate is free, and
  the request frame is outside the count. The credit between live ends is exact after every run calm about its id if and
  only if the window is at most 65534, either way (`Runs.UpCreditExactIff`, `Runs.DownCreditExactIff`); above
  that an acknowledgement count can be cut to 16 bits and credit is lost for good, at 65535 all of it
  (`Runs.StuckAtRest`). Order and completeness of the streams do not depend on it.
- A server session closed while its target is still being connected drops what the request left to write,
  and only that, unless the connect still completes (`Progress.GracefulClose`, with a run in
  `Runs.DropsRequest`).
- The continuation of a connect does not look at the status: a server session ended while its target was being
  connected comes back, unlisted, and acts under its id. What it reads goes to the client of the session that
  has the id now, its writes are acknowledged to that client, and when it ends that session is taken off the
  list and its client told to close, while it lives on and its frames are dropped
  (`ServerSide.PipelineSession.ErasesItsReplacement`, with a run of the whole in `Reuse.StrayBytes`). So a
  session replaced by a CONNECT can remove its replacement. Whenever an id is opened, the new session can be
  erased that way if and only if the server has the connection and some former session under the id may return:
  its connect may still complete, it lives on unlisted, its target is being connected while the server still
  lists it, or its request has not reached the server yet (`Reuse.EraseIff`).
- An id reused early brings the new session what was meant for former ones. Whenever an id is opened, the new
  session can be touched by a former one at all, by credit, bytes or a CLOSE, if and only if something of the id
  can still reach the client, or the server has the connection and some former session may return, is
  forwarding, or is writing frames it will acknowledge (`Reuse.TouchIff`); with the way back clear that leaves
  the sessions off the list that can return or owe an acknowledgement (`Reuse.WhenClear`), and there are runs of
  the latter kind whatever the windows (`Reuse.OwesAtReuse`). What goes to the server is not touched
  (`Progress.UpstreamExact`).
- The same continuation brings back a UDP forwarding session of the client that ended while connecting; what it
  then sends is still its header and datagrams in order (`UdpForward.RunSound`).
- `ReadDataCache::async_read` hands out its queue again to a handler that asks from inside. That of a UDP
  association does: the bytes received are appended once if and only if they complete a datagram or make the
  buffer too long (`Association.AppendedOnceIff`); otherwise the rest of the datagram is made up from its own
  bytes (`Association.MadeUpDatagram`). On the TCP path none asks.
- Every handler given to the send cache is called once if and only if none of them destroys the cache from
  inside a completion (`SendCache.CalledOnceIff`); none does.
- The main configuration's pipelines are counted by hash, the others by identity, so the main one reaches its
  number exactly when no other live pipeline shares its hash or it has its number already
  (`Scheduler.MainReachesIff`).
- The interleaving loop orders all rounds but the last; the last is a permutation, not necessarily in order
  (`Scheduler.ArrangedBlocks`, `Scheduler.LastRoundOutOfOrder`).
- The rotating choice has a cycle of n + 1: the first pipeline gets two turns (`Scheduler.Fair`).
- An unspecified endpoint is sent as 0.0.0.0 with port 0 (`Trojan.EndpointRoundTripIff`).
- A DNS compression pointer is the sum of its two halves, not their concatenation; they agree below 256
  (`Dns.PointerIff`). Reading a name never returns if and only if it comes back to a position, as with a
  pointer to itself (`Dns.NeverReturnsIff`, `Dns.SelfPointer`).
- The domain trie also matches names beside listed domains, such as x.www.others.com when only api.others.com
  is listed (`Domains.OverMatchIff`, `Domains.BesideListed`).
- Only the twenty fixed bytes of an IPv4 header are summed; with options the header is right exactly when the
  options sum to zero (`Checksum.OptionsIff`).

## Model

| member | source | states |
|---|---|---|
| Progress.UpstreamExact | src/session/pipelinesession.cpp:186-274 | after every run, for every session ever opened under any id: written and being written to the target is a prefix of what the request leaves to write plus what the client read; while the server has the session listed, written ++ being written ++ queued ++ still framed is exactly that, in order, for any chunking, any reuse of ids and any other sessions, those off the list included; before the request nothing is written |
| Progress.DownstreamExact | src/core/pipeline.cpp:167-247 | the same from the target to the client's socket, after every run calm about the id, whatever happens to other ids |
| Progress.CreditConserved | src/session/pipelinecomponent.h:69-84 | after every run calm about the id counter + free first call + granted read + frames unacknowledged + acknowledgements in flight is at most window + 1 both ways, plus upwards what late writes of former sessions acknowledged, and exactly that between live ends when it fits 16 bits, where no count is cut |
| Progress.OneAtATime | src/session/clientsession.cpp:68-104 | after every run each forwarding end of every session, on the list or off it, does exactly one of reading, sending or waiting for credit, and one of waiting, writing or acknowledging; the read guard is never violated |
| Progress.NoLostWakeUp | src/session/clientsession.cpp:68-104 | after every run calm about the id a waiting sender's whole credit is in frames, with the receiver or in acknowledgements coming back |
| Progress.GracefulClose | src/session/pipelinesession.cpp:232-240 | after every run a server session ended by a CLOSE has written everything the client took in, except what the request left when the target was not connected yet, and all if and only if nothing of that is left or still being written; a deferred close always has a write or queue that triggers it |
| Progress.ClosesMeet | src/core/pipeline.cpp:211-219 | after every run calm about the id a client session ended by a CLOSE has written everything the target sent, and while the connection holds a one-sided end has its CLOSE on the way or deferred |
| Progress.EveryRun | src/session/pipelinesession.cpp:186-274 | the invariant of the whole system holds after every run, that of the way back of each id after every run calm about it, and the receive loops leave no complete frame behind |
| Runs.UpCreditExactIff | src/proto/pipelinerequest.cpp:158-160 | the credit between live ends of an id is window + 1 after every run calm about it, late acknowledgements aside, if and only if the client's window is at most 65534 |
| Runs.DownCreditExactIff | src/proto/pipelinerequest.cpp:158-160 | the same from target to client with the server's window |
| Runs.StuckAtRest | src/session/pipelinecomponent.h:73-84 | with a window whose counter starts at 65535, or 65536 more each, there is a run after which nothing is left to finish and the client waits for credit |
| Runs.DropsRequest | src/session/pipelinesession.cpp:232-240 | a run in which a server session closed by its peer has not written its request |
| Reuse.EraseIff | src/session/pipelinesession.cpp:207-222 | whenever an id is opened, after any run and whatever sessions the server still lists under it: the new session can be taken off the list by a former one if and only if the server has the connection and some former session may return, off the list, replaced while connecting, or with its request still coming |
| Reuse.TouchIff | src/session/pipelinesession.cpp:151-173 | whenever an id is opened: the new session can be given credit, bytes or a CLOSE of a former one if and only if something of the id can still reach the client, or the server has the connection and some former session may return, is forwarding or is writing frames it will acknowledge |
| Reuse.WhenClear | src/session/serversession.cpp:202-233 | with the way back clear both conditions come down to sessions off the list: that one can return, or owes an acknowledgement |
| Reuse.StrayBytes | src/session/serversession.cpp:363-372 | for every configuration a run in which a session ended while connecting comes back and bytes of its target reach the client of the next session under the id |
| Reuse.OwesAtReuse | src/session/serversession.cpp:202-233 | for all windows there is a run calm about id 0 after which it may be opened again while its last session still owes an acknowledgement |
| Reuse.StepFrozen | src/session/serversession.cpp:202-233 | no event but its own, or the loss of the connection, changes a server session off the list, and none but those of sessions off the list gives credit or bytes to another or erases it |
| Delivery.EventualDelivery | src/core/utils.cpp:261-292 | after every run of a pipeline whose connection is up, finishing what is started leads to a state at rest where the session of every id the run was calm about, if it forwards, has delivered every byte both ways and reads again with its whole window |
| Delivery.InternalRunsEnd | src/core/utils.cpp:261-292 | every order of completions without new input ends, within a bound read off the state |
| Delivery.ComesToRest | src/core/utils.cpp:261-292 | every reachable state can be finished to rest |
| Delivery.AtRestSettled | src/session/serversession.cpp:191-238 | at rest both ends of a session live or neither, and a live pair has delivered everything |
| Protocol.StepKeeps | src/session/pipelinesession.cpp:186-274 | each of the 25 kinds of events keeps the invariant, and the way back of every id in order, but that of an id it opens too early |
| Protocol.RunKeeps | src/session/pipelinesession.cpp:186-274 | so does every run |
| Protocol.StartInv | src/core/pipeline.cpp:33-61 | the invariants hold at the start |
| Protocol.HandshakePipe | src/session/pipelinesession.cpp:121-149 | the password check opens the stream exactly when the whole line is read, and never refuses the right password, however it is cut |
| Protocol.PasswordPipe | src/core/pipeline.cpp:65-86 | connecting puts the password line in front of all frames queued before |
| Protocol.DrainPipe | src/session/pipelinesession.cpp:186-274 | a receive loop takes complete frames off the front of what is in flight and never fails |
| Protocol.SendPipe | src/core/pipeline.cpp:88-110 | a send adds exactly its frame and its handler at the end of what is in flight |
| Protocol.SettlePipe | src/core/utils.cpp:274-290 | the end of a completion keeps frames and remaining handlers |
| Protocol.BrokenPipe | src/core/pipeline.cpp:249-273 | losing the connection drops the handlers and leaves the stream as it is |
| Flight.CoreStep | src/session/pipelinesession.cpp:175-184 | a step of one line leaves all others alone |
| Flight.ServeStep | src/session/pipelinesession.cpp:207-264 | the server's dispatch of the next frame keeps what every run keeps: a CONNECT ends a session that still has the id and starts the next, anything else reaches the session it was sent for or none |
| Flight.ServeCalm | src/session/pipelinesession.cpp:207-264 | and the way back of every id that was in order |
| Flight.HearStep | src/core/pipeline.cpp:200-236 | the client's dispatch of the next frame keeps what every run keeps, whatever comes back |
| Flight.HearCalm | src/core/pipeline.cpp:200-236 | and the way back of every id that was in order |
| Flight.ResumeClientStep | src/session/clientsession.cpp:395-468 | so does the next completion handler of a client session, of a former one too |
| Flight.ResumeClientCalm | src/session/clientsession.cpp:395-468 | and it keeps the way back |
| Flight.ResumeServerStep | src/session/serversession.cpp:383-405 | the same of a server session |
| Flight.ResumeServerCalm | src/session/serversession.cpp:383-405 | and it keeps the way back |
| Flight.Opens | src/core/pipeline.cpp:129-134 | opening a session under any id whose last client session is gone keeps what every run keeps, and the way back if the id is reusable |
| Flight.LateStep | src/session/serversession.cpp:202-233 | a write of a server session off the list that completes is a deed both sessions survive in shape: it ends with a CLOSE, or gives its count to the session that has the id, or to none |
| Flight.LateCalm | src/session/serversession.cpp:202-233 | and leaves the way back of its id in order, the count told apart from the session's own |
| Flight.DeedStep | src/session/pipelinesession.cpp:151-173 | whatever a session off the list does to itself, and under its id to the session that has it, keeps what every run keeps |
| Flight.StrayReadStep | src/session/serversession.cpp:391-399 | bytes a stray reads are such a deed: they go to the session that has the id, or the stray ends |
| Flight.StrayEndStep | src/session/pipelinesession.cpp:303-313 | so is its end, which takes the session that has the id off the list |
| Flight.AloneCalm | src/session/pipelinesession.cpp:151-173 | where the way back of an id is in order, a session that can return is the last under it, and finds none to act upon |
| Flight.LoseClientsStep | src/core/pipeline.cpp:249-273 | losing the connection at the client keeps both, but for closes meeting |
| Flight.LoseServersStep | src/session/pipelinesession.cpp:315-336 | so does losing it at the server |
| Flight.UntouchedIff | src/core/pipeline.cpp:206-228 | what comes back for a former session under the id leaves a new one alone if and only if there is nothing of it |
| SessionSteps.RequestOk | src/session/clientsession.cpp:421-447 | sending the request keeps what every run keeps of a session; `RequestDown` is the same of the way back |
| SessionSteps.ConnectSentOk | src/session/clientsession.cpp:395-405 | the completion of a CONNECT frame keeps what every run keeps of a session; `ConnectSentDown` is the same of the way back |
| SessionSteps.ClientReadOk | src/session/clientsession.cpp:379-383 | forwarding what the client read keeps what every run keeps of a session; `ClientReadDown` is the same of the way back |
| SessionSteps.ClientDataSentOk | src/session/clientsession.cpp:462-468 | the completion of a client's DATA frame keeps what every run keeps of a session; `ClientDataSentDown` is the same of the way back |
| SessionSteps.ClientAckSentOk | src/session/clientsession.cpp:407-410 | the completion of a client's ACK frame keeps what every run keeps of a session; `ClientAckSentDown` is the same of the way back |
| SessionSteps.ClientWriteDoneOk | src/session/clientsession.cpp:118-156 | a completed write of a client, which ends the session with a CLOSE or acknowledges, keeps what every run keeps of a session; `ClientWriteDoneDown` is the same of the way back |
| SessionSteps.ClientLateOk | src/session/clientsession.cpp:118-156 | a client's write that completes after its end keeps what every run keeps of a session; `ClientLateDown` is the same of the way back |
| SessionSteps.ClientOnDataOk | src/core/pipeline.cpp:222-224 | a DATA frame at the client keeps what every run keeps of a session; `ClientOnDataDown` is the same of the way back |
| SessionSteps.ClientOnAckOk | src/session/clientsession.cpp:68-73 | an ACK frame at the client, waking a waiting sender, keeps what every run keeps of a session; `ClientOnAckDown` is the same of the way back |
| SessionSteps.ClientOnCloseOk | src/core/pipeline.cpp:211-219 | a CLOSE frame at the client, at once or deferred, keeps what every run keeps of a session; `ClientOnCloseDown` is the same of the way back |
| SessionSteps.ClientFailOk | src/session/clientsession.cpp:566-595 | the failure of a client keeps what every run keeps of a session; `ClientFailDown` is the same of the way back |
| SessionSteps.ServerOnConnectOk | src/session/pipelinesession.cpp:207-222 | a CONNECT frame keeps what every run keeps of a session; `ServerOnConnectDown` is the same of the way back |
| SessionSteps.ServerOnDataOk | src/session/serversession.cpp:272-381 | a DATA frame at the server, the request or data, keeps what every run keeps of a session; `ServerOnDataDown` is the same of the way back |
| SessionSteps.ServerOnAckOk | src/session/pipelinesession.cpp:246-254 | an ACK frame at the server, waking a waiting sender, keeps what every run keeps of a session; `ServerOnAckDown` is the same of the way back |
| SessionSteps.ServerOnCloseOk | src/session/pipelinesession.cpp:232-240 | a CLOSE frame at the server, at once or deferred, keeps what every run keeps of a session; `ServerOnCloseDown` is the same of the way back |
| SessionSteps.ServerConnectedOk | src/session/serversession.cpp:363-372 | reaching the target keeps what every run keeps of a session; `ServerConnectedDown` is the same of the way back |
| SessionSteps.ServerReadOk | src/session/serversession.cpp:391-399 | forwarding what the server read keeps what every run keeps of a session; `ServerReadDown` is the same of the way back |
| SessionSteps.ServerDataSentOk | src/session/serversession.cpp:383-389 | the completion of a server's DATA frame keeps what every run keeps of a session; `ServerDataSentDown` is the same of the way back |
| SessionSteps.ServerAckSentOk | src/session/serversession.cpp:401-405 | the completion of a server's ACK frame keeps what every run keeps of a session; `ServerAckSentDown` is the same of the way back |
| SessionSteps.ServerWriteDoneOk | src/session/serversession.cpp:202-237 | a completed write of a server, which ends the session with a CLOSE or acknowledges, keeps what every run keeps of a session; `ServerWriteDoneDown` is the same of the way back |
| SessionSteps.ServerLateOk | src/session/serversession.cpp:202-233 | a server's write that completes after its end keeps what every run keeps of a session; `ServerLateDown` is the same of the way back |
| SessionSteps.ServerErasedOk | src/session/pipelinesession.cpp:303-313 | so does being taken off the list without being told |
| SessionSteps.ServerRevivedOk | src/session/serversession.cpp:363-372 | so does a connect that completes off the list; `ServerRevivedDown` is the same of the way back |
| SessionSteps.StrayReadOk | src/session/serversession.cpp:391-399 | so does a read of a stray |
| SessionSteps.StrayAloneOk | src/session/serversession.cpp:234-236 | so does a write of a stray whose pipeline has been freed |
| SessionSteps.OffListDown | src/session/serversession.cpp:202-233 | a session off the list that takes nothing in and gains no credit leaves the way back as it is |
| SessionSteps.ServerFailOk | src/session/serversession.cpp:545-581 | the failure of a server keeps what every run keeps of a session; `ServerFailDown` is the same of the way back |
| SessionSteps.ForeignDown | src/session/serversession.cpp:202-233 | an acknowledgement of a former session keeps the way back, told apart |
| Frames.SelfDelimiting | src/proto/pipelinerequest.cpp:31-166 | an encoded legal frame with anything behind it is read back with its exact length, if and only if its length does not narrow to the error code -2 |
| Frames.ProperPrefix | src/proto/pipelinerequest.cpp:31-122 | every proper prefix of an encoded frame is incomplete |
| Frames.Stable | src/proto/pipelinerequest.cpp:31-122 | any other verdict never changes with more bytes |
| Frames.ChunkingIndependent | src/session/pipelinesession.cpp:186-274 | for every byte stream, well formed or not, every way of cutting it into reads dispatches the same frames and keeps the same rest |
| Frames.StreamRoundTrip | src/session/pipelinesession.cpp:186-274 | encoded frames and part of another, read in any chunks, dispatch exactly the complete frames and keep the part |
| Frames.PipelineRequest.Parse | src/proto/pipelinerequest.cpp:31-122 | the result and fields are those of the frame at the front, or the error code |
| Frames.PipelineRequest.Generate | src/proto/pipelinerequest.cpp:124-166 | appends the encoding of the frame asked for, the count cut to 16 bits, or reports the length error and the header bytes left behind |
| Frames.FrameReader.Received | src/core/pipeline.cpp:179-239 | one read commits its bytes and dispatches what the stream so far says; it terminates |
| SendCache.SendDataCache.PushData | src/core/utils.cpp:247-259 | appends bytes and handler to the one FIFO the two queues form and starts a write if none is in flight; a destroyed cache calls the handler; bytes written ++ queued stay the bytes accepted, handlers called ++ in flight ++ queued stay the handlers pushed |
| SendCache.SendDataCache.InsertData | src/core/utils.cpp:230-245 | puts bytes in front of what is queued |
| SendCache.SendDataCache.AsyncSend | src/core/utils.cpp:261-292 | hands over the whole queue, if there is one, a connection and no write in flight, and receives into the other one |
| SendCache.SendDataCache.Complete | src/core/utils.cpp:274-290 | the handlers of the flight run in order, what they push waits in the other queue, and a success starts the next write; if one destroys the cache, all queued on both sides are told and nothing more is written; every handler was called once or is still queued if and only if none does |
| SendCache.CalledOnceIff | src/core/utils.cpp:274-290 | the calls of a completion, with those provoked, are the handlers pushed, each once, if and only if no handler destroys the cache |
| SendCache.SendDataCache.Destroy | src/core/utils.cpp:207-224 | every handler queued on either side runs once, with those they push while it happens, also with a write in flight |
| SendCache.QueuedAllAppends | src/core/utils.cpp:247-259 | pushes append in order and touch nothing else |
| SendCache.OnceEach | src/core/utils.cpp:207-224 | destruction calls each queued and each provoked handler once |
| Component.InitialCounter | src/session/pipelinecomponent.cpp:39-39 | the counter of credit starts within what an acknowledgement can count if and only if the configured window is; a window of 2^31 or more starts it beyond 2^63 |
| Component.ReadDataCache.PushData | src/core/utils.h:251-261 | a frame goes to the waiting handler with count 1, or joins the queue and its count |
| Component.ReadDataCache.AsyncRead | src/core/utils.h:263-274 | the whole queue and its count go to the handler, or the handler waits |
| Association.AppendedOnceIff | src/core/utils.h:263-274 | the bytes queued for an association reach its buffer once if and only if they complete a datagram or make the buffer longer than 8192 bytes |
| Association.MadeUpDatagram | src/session/serversession.cpp:377-439 | a datagram of which one of ten bytes has arrived is completed with its own header and handed on |
| Association.UdpAssociation.InAsyncRead | src/core/utils.h:263-274 | asking waits, or gives the handler the queue as many times as it asks, then consumes it |
| Association.UdpAssociation.InRecv | src/session/serversession.cpp:377-380 | what is received goes behind the buffer, and a whole datagram is handed on, the session ends, or more is asked for |
| Association.UdpAssociation.OutUdpSent | src/session/serversession.cpp:420-439 | a whole datagram at the front is handed on, too long a buffer ends the session, anything else asks for more |
| Association.UdpAssociation.PushData | src/core/utils.h:251-261 | a frame that finds the session waiting is taken once, any other only queued |
| Component.PipelineComponent.PreCallAckFunc | src/session/pipelinecomponent.h:73-84 | grants a read for one unit of credit, the first one free, or records the wait |
| Component.PipelineComponent.PipelineInRecv | src/session/pipelinecomponent.cpp:64-72 | pushes into the read cache, or reports that no pipeline is used |
| Component.PipelineComponent.CanbeClosedByPipeline | src/session/pipelinecomponent.h:87-89 | exactly when nothing is being written or queued |
| Component.SessionIds.AllocateId | src/session/pipelinecomponent.cpp:43-55 | with fewer than 65535 ids in use the search terminates with the first free id counting up and wrapping, fresh and marked used; otherwise it fails and changes nothing; it moves the pool of `EveryRunExact` |
| Component.SessionIds.FreeId | src/session/pipelinecomponent.cpp:57-62 | a session that goes frees its id and no other, which moves that pool too |
| Component.SomeFree | src/session/pipelinecomponent.cpp:49-51 | a free id lies within one turn of the counter |
| Component.EveryRunExact | src/session/pipelinecomponent.cpp:43-62 | over every run of allocations and releases the ids of live sessions are distinct and are exactly the ids in use |
| ServerSide.PipelineSession.ProcessStreamingData | src/session/pipelinesession.cpp:186-274 | dispatches exactly the frames in the buffer to the list, keeps the rest, ends the pipeline on a format error; listed ids stay distinct and a listed session lives |
| ServerSide.PipelineSession.InRecv | src/session/pipelinesession.cpp:121-149 | the password line is required first, and frames behind it in the same read are dispatched; a wrong or overlong line ends the pipeline |
| ServerSide.PipelineSession.RecvConnect | src/session/pipelinesession.cpp:207-222 | the session holding the id is destroyed and replaced by a fresh one |
| ServerSide.PipelineSession.RecvData | src/session/pipelinesession.cpp:223-231 | changes the session of that id as its callback says, and no other |
| ServerSide.PipelineSession.RecvClose | src/session/pipelinesession.cpp:232-240 | destroys and erases the session, or defers |
| ServerSide.PipelineSession.RecvAck | src/session/pipelinesession.cpp:246-254 | credits the session of that id and no other |
| ServerSide.PipelineSession.SessionFails | src/session/pipelinesession.cpp:303-313 | a listed session leaves the list, its CLOSE is pushed, and no other session changes |
| ServerSide.PipelineSession.StrayEnds | src/session/pipelinesession.cpp:303-313 | a session off the list that fails changes nothing if it was destroyed; if it lives, exactly the session that has its id leaves the list, with its status as it was, and a CLOSE is pushed |
| ServerSide.PipelineSession.RemoveAfterDestroy | src/session/pipelinesession.cpp:303-313 | the session found by the id leaves the list, whichever it is, and nothing tells it |
| ServerSide.PipelineSession.StaleConnected | src/session/serversession.cpp:363-372 | a connect that completes off the list makes the session forward, destroyed or not, and leaves the list alone |
| ServerSide.PipelineSession.StaleConnectFailed | src/core/utils.h:436-501 | one that fails leaves the session destroyed for good |
| ServerSide.PipelineSession.StrayRead | src/session/pipelinesession.cpp:151-173 | what a session off the list reads leaves as DATA exactly when another session has the id, else the session ends |
| ServerSide.PipelineSession.ReplaceConnecting | src/session/pipelinesession.cpp:207-222 | a CONNECT replaces a session whose target is being connected, whose connect is then still due |
| ServerSide.PipelineSession.ErasesItsReplacement | src/session/pipelinesession.cpp:303-313 | from any such state, whatever the replacement has come to, the connect completing and the former session failing leave it off the list, its status as it was, and its client told to close |
| ServerSide.PipelineSession.SessionRead | src/session/serversession.cpp:128-147 | a DATA frame of the session is pushed and only its entry changes |
| ServerSide.PipelineSession.SessionWritten | src/session/serversession.cpp:202-233 | an ACK frame with the count of the write is pushed and only its entry changes |
| ServerSide.PipelineSession.SessionWrittenLast | src/session/serversession.cpp:213-218 | a due close removes the session and pushes its CLOSE |
| ServerSide.PipelineSession.StaleWritten | src/session/pipelinesession.cpp:151-173 | a write of a session off the list that completes is acknowledged exactly when another session has the id and no close was due; a stray ends when one was due, taking that session off the list, or when none has the id |
| ServerSide.PipelineSession.SessionConnected | src/session/serversession.cpp:364-372 | the target of a listed session is reached, and only its entry changes |
| ServerSide.PipelineSession.Find | src/session/pipelinesession.cpp:175-184 | finds the one listed session of an id, if there is one |
| ServerSide.PipelineSession.Destroy | src/session/pipelinesession.cpp:315-336 | exactly the listed sessions and those with a handler in the cache are destroyed, the list is empty, nothing more is written |
| ServerSide.ServesTheLines | src/session/pipelinesession.cpp:207-264 | the server's list and the protocol's lines take every frame alike |
| ServerSide.ListRefinesLines | src/session/pipelinesession.cpp:186-274 | in every state of the protocol, what the receive loop makes of the server's list is the living part of the protocol's lines |
| ServerSide.ServerSession.RecvData | src/session/serversession.cpp:272-381 | a DATA frame moves the object exactly as the protocol's server callback: the request opens the connection, data waits while connecting, is queued while busy or is written |
| ServerSide.ServerSession.RecvAck | src/session/pipelinesession.cpp:246-254 | an ACK frame does too: credit, and a read if one waited |
| ServerSide.ServerSession.RecvClose | src/session/pipelinesession.cpp:232-240 | a CLOSE frame does too: destroyed at once exactly when nothing is written or queued, else deferred |
| ServerSide.ServerSession.OnConnected | src/session/serversession.cpp:364-372 | reaching the target does too, whatever the status was: a session off the list comes back as a stray |
| ServerSide.ServerSession.OutReadDone | src/session/serversession.cpp:178-188 | a completed read does too, releasing the guard; off the list the bytes are not its own client's |
| ServerSide.ServerSession.InSent | src/session/serversession.cpp:383-389 | a sent DATA frame does too: the next read if there is credit, only while forwarding |
| ServerSide.ServerSession.OutSent | src/session/serversession.cpp:401-405 | a sent ACK frame does too: what is queued is written, or the session waits |
| ServerSide.ServerSession.OutWritten | src/session/serversession.cpp:202-237 | a completed write does too, and ends the session exactly when its close was deferred and nothing is queued |
| ServerSide.ServerSession.OutWrittenLate | src/session/serversession.cpp:202-233 | a write that completes off the list does too, and ends a stray exactly when its close was deferred and nothing is queued |
| ServerSide.ServerSession.Fail | src/session/serversession.cpp:545-581 | destruction does too, and does nothing the second time |
| ClientSide.ClientSession.RequestRemote | src/session/clientsession.cpp:421-447 | the request moves the object exactly as the protocol's client callback, and leaves as a DATA frame |
| ClientSide.ClientSession.InReadDone | src/session/clientsession.cpp:90-103 | a completed read does too, and leaves as a DATA frame |
| ClientSide.ClientSession.InWritten | src/session/clientsession.cpp:118-156 | a completed write does too, and sends CLOSE exactly when a deferred close is due, else an ACK with its count |
| ClientSide.ClientSession.InWrittenLate | src/session/clientsession.cpp:118-156 | a write that completes after destruction only reaches the local socket |
| ClientSide.ClientSession.RecvData | src/core/pipeline.cpp:222-224 | a DATA frame does too: written if the session waits, else queued |
| ClientSide.ClientSession.RecvAckCmd | src/session/clientsession.cpp:68-73 | an ACK frame does too: credit, and a read if one waited |
| ClientSide.ClientSession.RecvClose | src/core/pipeline.cpp:211-219 | a CLOSE frame does too: destroyed at once exactly when nothing is written or queued, else deferred |
| ClientSide.ClientSession.OutSent | src/session/clientsession.cpp:462-468 | a sent DATA frame does too: the next read if there is credit |
| ClientSide.ClientSession.InSent | src/session/clientsession.cpp:407-410 | a sent ACK frame does too: what is queued is written, or the session waits |
| ClientSide.ClientSession.Fail | src/session/clientsession.cpp:566-595 | a failure does too, and sends CLOSE |
| ClientSide.Pipeline.OnConnected | src/core/pipeline.cpp:65-86 | the password line goes ahead of every frame, sent before or after |
| ClientSide.Pipeline.SessionAsyncSendCmd | src/core/pipeline.cpp:88-110 | exactly the frame is added to what leaves |
| ClientSide.Pipeline.Completed | src/core/pipeline.cpp:44-58 | a completion, its handlers pushing frames, keeps what leaves |
| ClientSide.Pipeline.WireIs | src/core/pipeline.cpp:72-77 | the wire and the queue are the password, CRLF and the frames in order |
| Scheduler.Service.PreparePipelines | src/core/service.cpp:266-368 | from any list with any expired entries: all alive, no live pipeline lost, exactly pipeline_num of every load-balance configuration and, with distinct hashes, of the main one, arranged when there are several |
| Scheduler.Service.Arrange | src/core/service.cpp:323-357 | the in-place loop computes the interleaving |
| Scheduler.Service.ClearExpired | src/core/utils.h:573-587 | keeps the live pipelines in order and tells whether any was gone |
| Scheduler.Service.StartPipelines | src/core/service.cpp:282-294 | starts exactly the missing ones |
| Scheduler.TurnedPermutes | src/core/service.cpp:323-357 | whatever it starts from, the interleaving is a permutation |
| Scheduler.TurnedArranges | src/core/service.cpp:323-357 | from any order of a balanced list it ends arranged |
| Scheduler.ArrangedPositions | src/core/service.cpp:323-357 | in an arranged list the first (n - 1) * k positions hold configuration i mod k |
| Scheduler.ArrangedBlocks | src/core/service.cpp:323-357 | every aligned block of k, the last too, holds each configuration exactly once |
| Scheduler.LastRoundOutOfOrder | src/core/service.cpp:323-357 | four configurations of two pipelines end with 0 2 1 3 |
| Scheduler.MainReachesIff | src/core/service.cpp:273-294 | the main configuration reaches its number if and only if it had it or no other live pipeline shares its hash |
| Scheduler.Service.Expire | src/core/pipeline.cpp:249-273 | losing any pipeline at any time keeps the list preparable |
| Scheduler.Service.EraseExpired | src/core/service.cpp:431-443 | so does erasing an expired entry on the way |
| Scheduler.Service.SelectPipeline | src/core/service.cpp:381-405 | the first connected pipeline at or after the index, with its wrap-around and fallback; the index never exceeds n + 1 |
| Scheduler.ConnectedIff | src/core/service.cpp:381-405 | a connected pipeline is chosen if and only if one lies at or after the index, wrapped, or the first one is connected |
| Scheduler.Fair | src/core/service.cpp:381-405 | on a list of n connected pipelines any n + 1 calls of the selection in a row, from any index, choose each once and the first twice |
| Scheduler.PickIsChosen | src/core/service.cpp:381-405 | with all connected, the choice is that rotation |
| Trojan.AddressRoundTrip | src/proto/socks5address.cpp:31-103 | an encoded address with anything behind it is read back with its length |
| Trojan.AddressCanonical | src/proto/socks5address.cpp:31-81 | what is accepted is the encoding of what is returned |
| Trojan.AddressPrefix | src/proto/socks5address.cpp:31-81 | a proper prefix is refused |
| Trojan.AddressStable | src/proto/socks5address.cpp:31-81 | an accepted address does not change with more bytes |
| Trojan.EndpointRoundTripIff | src/proto/socks5address.cpp:83-103 | an endpoint is read back if and only if it is specified or is 0.0.0.0 with port 0 |
| Trojan.Socks5Address.Parse | src/proto/socks5address.cpp:31-81 | sets the fields to the address parsed, and on failure leaves address and port alone |
| Trojan.Socks5Address.Generate | src/proto/socks5address.cpp:85-103 | appends the endpoint's form |
| Trojan.RequestRoundTripIff | src/proto/trojanrequest.cpp:27-69 | a generated request is read back with what follows as payload, if and only if the password has no line end and the name has 1 to 255 bytes |
| Trojan.RequestIsConsumed | src/session/serversession.cpp:285-358 | a plain request leaves nothing to write to the target |
| Trojan.TrojanRequest.Parse | src/proto/trojanrequest.cpp:27-49 | the result and fields are those of the request, or -1 with the password read so far |
| Udp.PacketRoundTrip | src/proto/udppacket.cpp:30-82 | an encoded datagram with anything behind it is read back with its length |
| Udp.PacketPrefix | src/proto/udppacket.cpp:30-50 | a proper prefix is refused |
| Udp.PacketCanonical | src/proto/udppacket.cpp:30-50 | what is accepted is the encoding of what is returned |
| Udp.DomainRoundTripIff | src/proto/udppacket.cpp:66-82 | a generated datagram is read back if and only if its name has 1 to 255 bytes and its payload fits 16 bits |
| Udp.StreamRoundTrip | src/session/udpforwardsession.cpp:189-232 | any prefix of a stream of datagrams that fit, read in any chunks, delivers the complete ones in order, keeps the incomplete one, and the session lives |
| Udp.FitsIff | src/session/udpforwardsession.cpp:197-203 | all ways of cutting a datagram are survived if and only if it is at most 8193 bytes framed |
| Udp.UdpPacket.Parse | src/proto/udppacket.cpp:30-50 | sets the fields to the datagram parsed |
| Udp.UdpPacket.Generate | src/proto/udppacket.cpp:66-82 | appends the datagram, both lengths cut to their fields |
| Udp.UdpPacket.GenerateTo | src/proto/udppacket.cpp:52-64 | appends the datagram for an endpoint |
| UdpForward.RunSound | src/session/udpforwardsession.cpp:68-243 | over every run, while the session lives or may come back: one write exactly while FORWARDING, nothing stuck in FORWARD, and sent ++ buffered is the request header and every datagram taken, in order |
| UdpForward.StreamIsUnderstood | src/session/udpforwardsession.cpp:68-243 | after every run the stream parses as a UDP ASSOCIATE request for the target followed by exactly the datagrams that arrived |
| UdpForward.UdpForwardSession.InRecv | src/session/udpforwardsession.cpp:166-187 | buffers the datagram and writes only in FORWARD, keeping the above |
| UdpForward.UdpForwardSession.OnConnected | src/session/udpforwardsession.cpp:72-90 | writes the header and what arrived before, or ends, whatever the status was |
| UdpForward.UdpForwardSession.OutSent | src/session/udpforwardsession.cpp:234-243 | writes what is buffered or returns to FORWARD |
| UdpForward.UdpForwardSession.OutRecv | src/session/udpforwardsession.cpp:189-232 | delivers the complete datagrams and keeps the rest, or ends when it is too long; where the NAT socket fails it delivers exactly those before and ends |
| Dns.RoundTripIff | src/proto/dns_header.cpp:77-150 | read_label undoes write_label anywhere in a message, stopping right behind it, if and only if the name is empty or every label has 1 to 63 bytes |
| Dns.NameRoundTrip | src/proto/dns_header.cpp:77-150 | so every name of such labels without dots survives |
| Dns.ReadsTheStandard | src/proto/dns_header.cpp:77-119 | on names whose pointers are below 256 and go to before their segment, read_label terminates with the expansion of section 4.1.4 of RFC 1035, just past the name, and fails exactly when the standard gives no meaning |
| Dns.ReturnsIff | src/proto/dns_header.cpp:77-119 | read_label returns if and only if it does within as many nested calls as the message has bytes |
| Dns.NeverReturnsIff | src/proto/dns_header.cpp:77-119 | read_label never returns if and only if the calls nested in it come back to a position |
| Dns.SelfPointer | src/proto/dns_header.cpp:86-100 | as a pointer to itself does |
| Dns.PointerIff | src/proto/dns_header.cpp:91-91 | the position computed is the standard's if and only if the six high bits are zero |
| Dns.ReadLabel | src/proto/dns_header.cpp:77-119 | the method on a stream is that reading, failures included |
| Dns.WriteLabel | src/proto/dns_header.cpp:121-150 | the one-pass loop writes the labels, counting lengths in one byte |
| Domains.WalkIsExact | src/core/utils.cpp:404-453 | for a list in order, the bisecting walk over the sorted trie decides, for every name, exactly a condition on the list alone |
| Domains.SubdomainsMatch | src/core/utils.cpp:404-453 | a listed domain of two labels or more that none extends and whose leftmost label is not generic matches, with every name under it |
| Domains.LoadedTextMatches | src/core/utils.cpp:332-453 | the same from the text of a list to the text of a name |
| Domains.OverMatchIff | src/core/utils.cpp:420-428 | a name that is not listed nor under a listed one matches if and only if two or more of its labels begin a listed domain and it leaves there at a label that is not generic and ends none |
| Domains.BesideListed | src/core/utils.cpp:420-428 | x.www.others.com matches where api.others.com is all that is listed, whatever x is |
| Domains.FindIsGet | src/core/utils.cpp:314-330 | among ascending siblings bisection finds what a linear search finds |
| Domains.LocateInsert | src/core/utils.cpp:294-312 | inserting a path makes its nodes and changes no other |
| Domains.InsertAllIn | src/core/utils.cpp:332-355 | the trie holds exactly the prefixes of the listed paths |
| Domains.ArrangedAscending | src/core/utils.cpp:389-392 | sorting two levels makes all levels ascending if the deeper ones were |
| Domains.InOrderAscends | src/core/utils.cpp:332-355 | the deeper ones are, if new labels are listed after smaller ones |
| Domains.DomainMatcher.LoadFromStream | src/core/utils.cpp:357-396 | loads exactly the lines of the text and sorts |
| Domains.DomainMatcher.ParseLine | src/core/utils.cpp:332-355 | inserts the path of the line, read from the right |
| Domains.DomainMatcher.IsMatch | src/core/utils.cpp:404-453 | the loop decides the walk |
| Checksum.IcmpHeader.AssignChecksum | src/proto/icmp_header.h:100-113 | only the checksum changes, and the message then sums to 0xFFFF if and only if the 32-bit sum lost no carry, which holds for bodies up to 131068 bytes |
| Checksum.Ipv4Header.AssignHeaderChecksum | src/proto/ipv4_header.h:165-177 | only the checksum changes and the twenty bytes sum to 0xFFFF |
| Checksum.FoldedCompletes | src/proto/icmp_header.h:110-112 | two folds suffice for any 32-bit sum |
| Checksum.WrappedCompletesIff | src/proto/icmp_header.h:100-113 | a longer sum is completed if and only if what overflowed is a multiple of 0xFFFF |
| Checksum.ChecksIff | src/proto/icmp_header.h:100-113 | the ones' complement sum of section 1 of RFC 1071 is 0xFFFF if and only if the plain sum is a positive multiple of 0xFFFF |
| Checksum.OptionsIff | src/proto/ipv4_header.h:165-177 | with options the whole header sums right if and only if the options sum to zero |

## Left out

- Sockets, TLS, resolvers, signals, files, MySQL, JSON, logging and the Android glue are foreign calls; what they deliver is an event.
- Which completions a socket still delivers once it has been closed is the environment's choice; none is excluded. The 64-bit credit counters do not wrap in the model.
- Bytes a lost connection does not deliver stay in the model's stream and are never received; after a loss no new pipeline takes the sessions over.
- UDP associations inside a pipeline: the model's requests do not open one, and `ServerSide.TcpOnly` says so of the frame that would. `Association` has the reading half of the server's; its sending half, the client's half and the resolving of names are not modelled.
- ServerSide.ServerSession.RecvData: a request that opens a UDP association is excluded by its precondition, for the same reason; likewise ServerSide.PipelineSession.RecvData, ProcessStreamingData and InRecv, and the event `Requested` of `Protocol`.
- SendCache.SendDataCache.Complete: after a handler has destroyed the cache the source goes on over handlers it has just cleared, which has no defined meaning; the model ends the loop there.
- ClientSide.Pipeline.Completed: no handler of a successful write destroys the pipeline, which holds of all handlers the sources push.
- The SOCKS5 negotiation a client session goes through before its request; a session is `New`, then `Ready`, then forwards.
- The client's in-place list of sessions (`Pipeline::sessions`) is modelled as a table of values in `Flight.Hear`; lookup by object identity is not captured.
- Sessions are told apart by their id and a number, where the source's handlers hold the object.
- Domains.DomainMatcher.ParseLine: collects the labels of a line and inserts them as one path, where the source walks the trie through pointers while reading; std::sort and std::lower_bound are functions.
- Dns.ReadLabel: the bytes a short read leaves in the source's buffer are not appended; the stream has failed then.
- Trojan.Socks5Address.Parse: a domain type without its length byte is incomplete; the source reads one byte past the view. Addresses are bytes, not text.
- The TUN device, lwIP and `TUNProxySession`, whose flow control differs, are not part of this model.
- `IPv4Matcher` (a set of address prefixes), the UDP idle timer, the DNS cache and header bit fields, ICMP processing, the authentication back ends, ALPN and certificates.
