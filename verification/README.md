# Verified model of an epoll network library and its log pipeline

The repository is a muduo-style reactor library (event loop, timers, connections, server,
reconnecting client), two wire codecs, an incremental HTTP parser, and an asynchronous log
pipeline built on them (bounded multi-producer queue, sender with backpressure, rolling log
file).  This project models the parts whose correctness depends on interleaving, re-entrancy
or exact byte accounting, and proves what they keep over every run.

Two forms occur side by side.  Where the source updates an object, there is a class with the
same fields; each of its methods is proved equal to a function on a plain value.  Whole runs
are state machines over such values: the kernel, the other threads and the user's callbacks
are arbitrary choices, methods that other threads can come between are split at their locks
and atomics, and a run is any finite list of enabled steps.  Most machines take their steps
from the very functions the classes are proved against; for the event loop and for accepting,
where they do not, `EventLoop.RoundIsARun` and `TcpServer.AcceptsAsStored` tie the two, and
`LogReconnects.RoundsAreRuns` ties the rounds of the log sender's loop to the event loop.

| file | what it holds |
|---|---|
| `Bytes`, `Arithmetic`, `History` | octet strings, division lemmas, logs of alternating edges |
| `ByteBuffer` | the compacting byte buffer |
| `BigEndian`, `Framing`, `RpcCodec` | length-prefixed frames and the RPC header inside them |
| `HttpParser` | the incremental request parser |
| `MpscQueue`, `LogProtocol` | the bounded queue; producers and drainer interleaved |
| `EventLoop` | deferred functors and the eventfd, interleaved |
| `TimerQueue`, `TimerRuns`, `TimerHandling` | timer containers and kernel timer; whole timer lives; handle_read and posted requests as runs |
| `Connection` | output side of a connection, half-close and close |
| `LogPipeline`, `LogProgress`, `LogDelivery` | the log pipeline and its invariants; what it can always still do, and backpressure; the log stream end to end |
| `LogReconnects`, `LogSender` | the pipeline across connections; the sender object |
| `TcpServer`, `TcpClient` | connection table under descriptor reuse; reconnect machine |
| `LogFile` | rolling files across restarts |

The results to read first are `LogReconnects.NeverWedgedIffDispatchIsShort`,
`LogProgress.NeverWedgedIff`, `LogDelivery.EndToEnd`, `LogProgress.CanDeliver`,
`LogProtocol.EveryRun`, `EventLoop.NeverStrandedIff`, `TimerRuns.EveryRun`,
`TimerRuns.CancelStopsIff`, `TcpServer.EveryRun`, `TcpClient.WaitKeptIff`,
`Connection.EveryRun`, `Framing.DecodeIsTheReading`, `RpcCodec.TwoLayerRoundTrip`,
`HttpParser.RequestRoundTrip` and `LogFile.EveryRun`.

## Where the code does less than one would expect

Each of these is a lemma about the code as it stands, with the exact condition.

- The frame decoder computes `4u + len` in 32 bits, so a limit above 2^32 - 5 lets it copy past
  the readable bytes; `Framing.OverrunIffLimitTooLarge`.
- An empty payload can be encoded but not decoded; `Framing.RoundTrip` is an equivalence.
- Work queued on the loop thread before `loop()` is entered is not signalled and the loop can
  sleep on it; `EventLoop.NeverStrandedIff`.
- A timer cancelled by a callback of the batch that already holds it still fires, although the
  comment at src/timer_queue.cpp:161-164 says otherwise, and so may one cancelled before its add
  has reached the loop; `TimerRuns.CancelStopsIff`, with the runs
  `TimerRuns.CancelInsideItsBatchIsTooLate` and `TimerRuns.CancelBeforeItsAddIsTooEarly`.
- `on_high_water` ignores which connection it is about.  If dispatching one round of events takes
  as long as the first retry delay, a connection can be lost and replaced with its high-water
  notice still queued, and the notice pauses the new one for good;
  `LogReconnects.NeverWedgedIffDispatchIsShort`.
- Every push that returns wake_up starts one more chain of tick timers;
  `LogProgress.OneChainPerWakeup`, `LogProgress.OneTickTimerIff` and
  `LogProgress.AnyNumberOfTickTimers`.
- `send_batch` goes on through an empty `connection_` after a write error; `LogSender.FaultsIff`.
- A removal that arrives after its descriptor was reused skips the disconnect callback for good;
  `TcpServer.RemovalSkipsIffReused`, with the run `TcpServer.ReuseLosesTheDisconnect`.
- Retry timers are not cancelled, so an old one can make a retry come before its delay is over;
  `TcpClient.WaitKeptIff`, with the run `TcpClient.StaleTimerShortensTheWait`.
- The directory scan ignores numbers above one million; `LogFile.RestartResumesIff`, with the
  directory `LogFile.RestartGoesBack`.

## Model

| member | source | states |
|---|---|---|
| ByteBuffer.Buffer.constructor | util/buffer.h:29-35 | a new buffer holds nothing and keeps the prepend margin |
| ByteBuffer.Buffer.Compact | util/buffer.h:115-121 | the overlapping move down to the prepend mark keeps the unread bytes |
| ByteBuffer.Buffer.Grow | util/buffer.h:122-124 | reallocation keeps the unread bytes and both indices |
| ByteBuffer.Buffer.EnsureWritable | util/buffer.h:112-125 | len free bytes, unread bytes unchanged; keeps the storage exactly when the free space before and after suffices, otherwise grows to writer + len |
| ByteBuffer.Buffer.Append | util/buffer.h:55-60 | the queue of unread bytes gains exactly the data at its end |
| ByteBuffer.Buffer.Write | util/buffer.h:57-58 | copying behind the writer leaves the unread bytes in front of it alone |
| ByteBuffer.Buffer.Retrieve | util/buffer.h:63-69 | consumes the first len bytes, all of them if len is too large |
| ByteBuffer.Buffer.RetrieveAll | util/buffer.h:100-103 | nothing is left unread |
| ByteBuffer.Buffer.RetrieveAsString | util/buffer.h:80-84 | returns the first len bytes and consumes them |
| ByteBuffer.Buffer.PeekString | util/buffer.h:47-52 | the first len bytes, without consuming them |
| ByteBuffer.Buffer.Find | util/buffer.h:92-97 | the position of the first CR LF of the unread bytes |
| ByteBuffer.FirstCrlf | util/buffer.h:92-97 | a CR LF pair stands there and at no earlier place; none at all if there is no result |
| ByteBuffer.Buffer.Perform | util/buffer.h:55-125 | any list of appends, retrieves and reservations acts on the unread bytes as on an abstract queue, with 8 <= reader <= writer <= size kept |
| ByteBuffer.Advance | util/buffer.h:55-125 | what one operation takes out followed by what it leaves is the old queue and what was put in |
| ByteBuffer.AdvanceTakes | util/buffer.h:63-69 | a retrieve takes out as many bytes as asked, as far as there are; the other operations none |
| ByteBuffer.ReplayConserves | util/buffer.h:55-125 | over any operation sequence, consumed bytes followed by the queue are the initial queue followed by everything appended |
| BigEndian.Append | rpc/rpc_message.h:122-127 | the shift loop writes the w low-order octets, most significant first |
| BigEndian.Read | rpc/rpc_message.h:130-137 | the accumulator loop in a w-octet register yields the big-endian value |
| BigEndian.ValueOfOctets | rpc/rpc_message.h:122-137 | reading what was written gives the number back, for every number that fits |
| BigEndian.OctetsOfValue | rpc/rpc_message.h:122-137 | writing what was read gives the octets back |
| Framing.EncodeFrame | util/length_prefixed_codec.h:36-49 | masking and shifting the 32-bit length yields its four octets, then the payload |
| Framing.PeekUint32 | util/length_prefixed_codec.h:78-86 | the big-endian value of the first four unread bytes |
| Framing.Peel | util/length_prefixed_codec.h:64-72 | a frame is taken only if the input is that frame followed by the rest and its payload is within the limit |
| Framing.TakeFrame | util/length_prefixed_codec.h:64-72 | one round of the decode loop on a Buffer: takes one frame or leaves the bytes alone with a verdict |
| Framing.DecodeBuffer | util/length_prefixed_codec.h:60-74 | the decode loop on a Buffer appends exactly the frames of Decode, with its verdict and its unread rest |
| Framing.DecodeIsTheReading | util/length_prefixed_codec.h:51-74 | decode finds the one and only way to read the stream as whole legal frames followed by an incomplete or an illegal head |
| Framing.OverrunIffLimitTooLarge | util/length_prefixed_codec.h:69-72 | some stream makes the decoder copy past the readable bytes if and only if the limit exceeds 2^32 - 5 |
| Framing.DecodeSplit | util/length_prefixed_codec.h:60-74 | decoding a prefix and going on with what it left is decoding everything at once |
| Framing.BadIsSticky | util/length_prefixed_codec.h:55-67 | after a false verdict, later bytes change neither the frames nor the verdict |
| Framing.BoundariesDoNotMatter | util/length_prefixed_codec.h:51-74 | for every cutting into chunks: the same frames, verdict and unread bytes as one call on the whole stream |
| Framing.ReceiveAll | util/length_prefixed_codec.h:60-74 | the same, performed on a Buffer with an append and a decode per chunk |
| Framing.RoundTrip | util/length_prefixed_codec.h:36-74 | concatenated frames decode to the same payloads with nothing left if and only if every payload has 1 to max bytes |
| Framing.PrefixDecodesToPrefix | util/length_prefixed_codec.h:51-74 | any prefix of legal frames decodes without error to a prefix of the payloads |
| RpcCodec.EncodeMessage | rpc/rpc_message.h:79-91 | the 15-byte header, method and body; the empty payload for an over-long method |
| RpcCodec.DecodeMessage | rpc/rpc_message.h:99-119 | accepts by Decode and leaves the output untouched on refusal |
| RpcCodec.EncodeLayout | rpc/rpc_message.h:79-91 | the position of every field of an encoded message: type, id, status, method length, method, body |
| RpcCodec.DecodeAfterEncode | rpc/rpc_message.h:79-119 | an encodable message decodes to itself |
| RpcCodec.EncodeAfterDecode | rpc/rpc_message.h:79-119 | every accepted payload is the encoding of the message it decodes to |
| RpcCodec.RoundTripIff | rpc/rpc_message.h:79-119 | a message survives if and only if its type is known and its method fits 16 bits of length |
| RpcCodec.AcceptsExactlyTheImage | rpc/rpc_message.h:99-119 | the accepted payloads are exactly the encodings of encodable messages |
| RpcCodec.TwoLayerRoundTrip | rpc/rpc_message.h:74-119 | any list of messages within the limits, encoded through both layers and cut anywhere, arrives as the same list with no byte left |
| HttpParser.HttpContext.StoreHeader | http/http_request.h:49-54 | the lower-casing loop stores the value under the lower-cased key |
| HttpParser.HttpContext.StoreTarget | http/http_context.h:89-96 | the target is split at its first question mark |
| HttpParser.HttpContext.RequestLine | http/http_context.h:77-108 | verdict and request of ParseRequestLine, including what a refused line leaves behind |
| HttpParser.HttpContext.Header | http/http_context.h:111-121 | verdict and request of ParseHeader; the loop skips exactly the leading spaces |
| HttpParser.HttpContext.OneLine | http/http_context.h:37-62 | what one complete line does to state and request |
| HttpParser.HttpContext.ParseBuffer | http/http_context.h:34-67 | the parse loop on a Buffer: terminates because the unread bytes shrink, and leaves state, request, verdict and unread bytes as Parse says |
| HttpParser.ParseSplit | http/http_context.h:34-67 | parsing a prefix and going on is parsing everything at once; after an error or a complete request more bytes only wait |
| HttpParser.BoundariesDoNotMatter | http/http_context.h:34-67 | for every cutting into chunks: the same state, request, verdict and unread bytes as one call |
| HttpParser.FieldRoundTripIff | http/http_context.h:111-121 | a printed header line gives its field back if and only if the key holds no colon and the value does not start with a space |
| HttpParser.LastDuplicateWins | http/http_request.h:49-54 | the value kept under a lower-cased key is that of the last field with that key |
| HttpParser.KeysIgnoreCase | http/http_request.h:49-54 | stored keys hold no capital letter, and two keys meet in one header if and only if they differ at most in the case of ASCII letters |
| HttpParser.FieldLine | util/buffer.h:91-97 | a printed field is one line if and only if neither its key nor its value holds a CR LF pair |
| HttpParser.UnnamedHeaderUntouched | http/http_request.h:49-54 | a key that no field names keeps its value or stays absent |
| HttpParser.RequestLineRoundTrip | http/http_context.h:77-108 | a printed request line is recovered: verb, path, query, version |
| HttpParser.RequestLineAcceptedIff | http/http_context.h:77-108 | a line is accepted if and only if it is a known method, a target without spaces and a known version, with one space between |
| HttpParser.HeaderAcceptedIff | http/http_context.h:111-113 | a header line is accepted if and only if it has a colon |
| HttpParser.FieldsRoundTrip | http/http_context.h:48-66 | a printed header block is recovered and ends the request, leaving what follows unread; keys and values may hold a CR or an LF alone, only not the pair |
| HttpParser.RequestRoundTrip | http/http_context.h:34-121 | a whole printed request is recovered, however cut and whatever follows it, under the same conditions |
| MpscQueue.MpscQueue.constructor | util/mpsc_queue.h:43-46 | capacity at least 1, empty, flag down |
| MpscQueue.MpscQueue.PushLocked | util/mpsc_queue.h:69-80 | the ring gains the element at its end, or is full and unchanged |
| MpscQueue.MpscQueue.RaiseFlag | util/mpsc_queue.h:86-94 | wakes if and only if the flag was down |
| MpscQueue.MpscQueue.Push | util/mpsc_queue.h:68-94 | the whole push when undisturbed |
| MpscQueue.MpscQueue.PopFront | util/mpsc_queue.h:111-116 | the oldest element leaves the ring |
| MpscQueue.MpscQueue.Drain | util/mpsc_queue.h:105-124 | moves the first min(max, size) elements in order and lowers the flag when nothing is left; with max 0 nothing changes |
| MpscQueue.MpscQueue.TakeDropped | util/mpsc_queue.h:128-130 | returns the count and zeroes it |
| LogProtocol.ConservedStep | util/mpsc_queue.h:68-130 | every atomic section of producers and drainer conserves messages and loss counts |
| LogProtocol.Preserved | util/mpsc_queue.h:68-130 | every step keeps no-lost-wakeup, alternation of wake-ups with emptying drains, and conservation |
| LogProtocol.RunFrom | util/mpsc_queue.h:68-130 | the same over every run from a state that has them |
| LogProtocol.EveryRun | log_sender/log_sender.cpp:178-204 | in every interleaving of any number of producers with the drainer: a non-empty queue has its flag up or a producer about to raise it; two wake-ups have an emptying drain between them; messages handed to send_batch, then the batch at hand, then the ring are the accepted pushes in lock order; refused pushes are the reported losses plus the counter plus the producers about to count |
| EventLoop.EventLoop.QueueInLoop | src/event_loop.cpp:159-172 | appends, and signals unless the loop thread posts outside its functor batch |
| EventLoop.EventLoop.RunInLoop | src/event_loop.cpp:151-157 | run now or queued, exactly one of the two; signalled when queued |
| EventLoop.EventLoop.DoPendingFunctors | src/event_loop.cpp:217-229 | runs exactly what was queued at the swap; everything queued meanwhile waits for the next round, each with its own signal |
| EventLoop.RoundIsARun | src/event_loop.cpp:217-229 | what DoPendingFunctors promises is what the loop's own steps do from the swap to the end of the batch |
| EventLoop.WakeRun | src/event_loop.cpp:115-172 | every run keeps: pending work on the way into epoll_wait is signalled or about to be, and a positive counter will be reported although the channel is edge-triggered |
| EventLoop.NeverStrandedIff | src/event_loop.cpp:115-172 | no interleaving sleeps on queued work if and only if, on entry to loop(), nothing is pending, or the eventfd is signalled, or a poster is about to signal |
| EventLoop.OrderRun | src/event_loop.cpp:159-229 | every run keeps: executed, then rest of the batch, then pending is the lock order, and rounds are exact |
| EventLoop.FunctorsRunInOrder | src/event_loop.cpp:217-229 | functors run in lock order, none twice, none skipped, each in exactly the first batch swapped after it was queued |
| EventLoop.LeavesOnlyAfterQuit | src/event_loop.cpp:119-124 | no run without a call of quit leaves the loop, EINTR included |
| EventLoop.QuitIsSeen | src/event_loop.cpp:119-124 | once set, the flag stays, and the loop leaves at its next check, to which an interrupted wait also leads |
| EventLoop.LoopThreadHasAStep | src/event_loop.cpp:115-140 | until it has left, the loop thread always has a step of its own |
| TimerQueue.ToItimerspec | src/timer_queue.cpp:22-39 | never the all-zero setting; with the current time it adds up to max(expiration, now + 1 ns) |
| TimerQueue.Insert | src/timer_queue.h:60-69 | the set stays sorted by (expiration, id) and gains exactly the entry |
| TimerQueue.Erase | src/timer_queue.cpp:126-133 | the set stays sorted and loses exactly the entry |
| TimerQueue.AddKeeps | src/timer_queue.cpp:99-114 | the index stays exact and the kernel timer stays at the earliest entry |
| TimerQueue.CancelKeeps | src/timer_queue.cpp:116-140 | the same for a cancel; the id is gone |
| TimerQueue.ExtractKeeps | src/timer_queue.cpp:157-175 | the loop takes exactly the due entries, in order, and both containers still agree |
| TimerQueue.CancelTakesOut | src/timer_queue.cpp:116-133 | a cancel takes out exactly the entry with that id |
| TimerQueue.ActMeans | src/timer_queue.cpp:74-97 | run_at from a callback enters exactly its timer under a new id, cancel takes out exactly the timer with that id |
| TimerQueue.HandleReadRestores | src/timer_queue.cpp:142-185 | whatever the callbacks add and cancel, at return the containers agree and the kernel timer stands at the earliest entry |
| TimerQueue.TimerQueue.ResetTimerfd | src/timer_queue.cpp:187-194 | the kernel timer is set by ToItimerspec |
| TimerQueue.TimerQueue.AddTimerInLoop | src/timer_queue.cpp:99-114 | the in-place add is Add and keeps both invariants |
| TimerQueue.TimerQueue.CancelInLoop | src/timer_queue.cpp:116-140 | the in-place cancel is Cancel and keeps both invariants |
| TimerQueue.TimerQueue.ExtractExpired | src/timer_queue.cpp:157-175 | the in-place loop is Extract and returns the due entries |
| TimerQueue.TimerQueue.Perform | src/timer_queue.cpp:74-97 | the synchronous adds and cancels of one callback |
| TimerQueue.TimerQueue.HandleRead | src/timer_queue.cpp:142-185 | fires exactly the entries due at the clock reading, in order, leaves the queue as Handled says (see TimerHandling.HandleReadIsARun) and restores both invariants |
| TimerRuns.LocatedStep | src/timer_queue.cpp:74-185 | every step keeps each issued id in exactly one place, in the container of that place and no other |
| TimerRuns.Exec | src/timer_queue.cpp:74-194 | every run keeps the whole invariant |
| TimerRuns.EveryRun | src/timer_queue.cpp:74-194 | over every run: an id is being issued, posted, live, cancelled, extracted or done, exactly one of them; it fires at most once and never early; each batch fires in (expiration, id) order; outside handle_read the kernel timer stands at the earliest entry |
| TimerRuns.CancelledNeverFires | src/timer_queue.cpp:116-140 | an id cancelled while its entry was in the set never fires in any continuation; one that fired stays so |
| TimerRuns.CanFire | src/timer_queue.cpp:74-194 | from every reachable state, a timer that is being issued, posted, live or extracted has a run in which it fires, and in which handle_read is entered only after the kernel timer has gone off |
| TimerRuns.CancelStopsIff | src/timer_queue.cpp:93-140 | a cancel on the loop thread keeps an unfired timer from firing in every continuation if its entry is in the ordered set at that moment, or was cancelled before; otherwise there is a continuation in which it fires through the kernel timer |
| TimerRuns.CancelInsideItsBatchIsTooLate | src/timer_queue.cpp:168-179 | a run from the start, through the kernel timer, in which only the first of two timers has fired, its callback cancels the second, and the next step fires the second |
| TimerRuns.CancelBeforeItsAddIsTooEarly | src/timer_queue.cpp:74-97 | a run from the start in which a timer is cancelled on the loop thread before its posted add, and a continuation in which it fires through the kernel timer |
| TimerRuns.ExtractedFires | src/timer_queue.cpp:168-179 | whatever a run does, a timer that handle_read has taken out has fired by the time handle_read is over |
| TimerHandling.HandleReadIsARun | src/timer_queue.cpp:142-185 | handle_read as the class performs it, with whatever its callbacks add and cancel, is a run that extracts, fires each due timer with its callback's actions, and re-arms; it fires exactly the due timers, in order |
| TimerHandling.FiresAsAsked | src/timer_queue.cpp:74-114 | over every run a timer is kept and fired with the expiration that run_at was called with, and not before it |
| TimerHandling.PostedInOrder | src/timer_queue.cpp:74-97 | adds and cancels posted by other threads are run in the order they were posted |
| Connection.WriteLoop | src/connection.cpp:111-126 | for every sequence of kernel answers, taken followed by left is the data, and the loop drains exactly when nothing is left |
| Connection.WriteLoopExactly | src/connection.cpp:111-126 | the loop takes all that the kernel offers before its first refusal and no more than there is; if something is left, EAGAIN means blocked and an error means broken |
| Connection.InterruptsDoNotMatter | src/connection.cpp:116-117 | leaving out every EINTR changes nothing |
| Connection.Connection.WriteDirectly | src/connection.cpp:154-172 | the fast path of send is WriteLoop |
| Connection.Connection.WriteBacklog | src/connection.cpp:111-126 | the loop of handle_write is WriteLoop on the output buffer |
| Connection.Connection.Send | src/connection.cpp:148-196 | the whole new state, and the high-water callback is queued exactly on crossing the mark upwards |
| Connection.Connection.HandleWrite | src/connection.cpp:104-146 | the whole new state, and the write-complete callback is queued exactly when there is one and a backlog was emptied |
| Connection.Connection.ShutdownInLoop | src/connection.cpp:207-219 | SHUT_WR now, or pending while there is a backlog, or nothing on a closed connection |
| Connection.Connection.Close | src/connection.cpp:222-248 | closes once |
| Connection.SentExact | src/connection.cpp:148-196 | a send keeps byte exactness: taken followed by backlog is what was accepted, EPOLLOUT exactly while there is a backlog |
| Connection.SendAccepts | src/connection.cpp:148-196 | a send that leaves the connection up has accepted all of its data |
| Connection.FlushedExact | src/connection.cpp:104-146 | so does handle_write |
| Connection.EveryRun | src/connection.cpp:104-248 | every mix of sends, partial writes, EINTR, EAGAIN, errors, half-closes and closes keeps byte exactness on an unclosed connection, SHUT_WR at most once, and a half-closed connection has issued it with nothing left or has a functor, or a backlog with EPOLLOUT, that will |
| Connection.EveryRunFromStart | src/connection.cpp:104-248 | the same from a new connection |
| Connection.FinAfterLastByte | src/connection.cpp:128-135 | SHUT_WR is issued only when every accepted byte is with the kernel, and nothing is accepted or written afterwards |
| Connection.ShutdownTakesEffect | src/connection.cpp:199-205 | shutdown on a connected connection ends sending at once, keeps the backlog and is then under way |
| Connection.CanFinish | src/connection.cpp:128-219 | from every half-closed state there is a run after which SHUT_WR has been issued with every accepted byte at the kernel |
| LogPipeline.DecimalLength | log_sender/log_sender.cpp:188-191 | a number below 10^k prints in 1 to k digits, so a loss report always fits a frame |
| LogDelivery.ReportSaysHowMany | log_sender/log_sender.cpp:188-191 | the number of losses can be read off the report, between its fixed words |
| LogPipeline.RunFrom | log_sender/log_sender.cpp:122-255 | every run, also past the loss of the connection, keeps the queue protocol, the resume guarantee, alternation of high-water notices and the byte stream |
| LogProgress.NeverWedgedIff | log_sender/log_sender.cpp:217-255 | from a connection just stored, whatever is still queued: no run reaches "paused, nothing to flush, no resume queued" if and only if every queued high-water notice has a resume behind it |
| LogPipeline.PausedAfterMeans | log_sender/log_sender.cpp:242-255 | running the queued functors ends paused if and only if a high-water notice has no resume behind it, or there was a pause and no resume at all |
| LogProgress.RunAllFunctors | src/event_loop.cpp:217-229 | with no backlog, the loop can run everything queued, wake ticks with their drains included, and ends paused exactly as the callbacks say |
| LogProgress.PausedMakesProgress | src/connection.cpp:137-194 | while paused, a write-complete is queued or there is a backlog with EPOLLOUT on; a queued high-water notice has a backlog or a later write-complete behind it; between two notices the backlog fell below the mark |
| LogProgress.TickDrainsIff | log_sender/log_sender.cpp:160-176 | a tick drains if and only if there is a connection and it is not paused |
| LogProgress.HeldBackStep | log_sender/log_sender.cpp:160-176 | paused or without a connection, no step hands anything over, takes from the queue or lets the backlog grow, and only a write-complete callback ends it |
| LogProgress.HeldBackRun | log_sender/log_sender.cpp:160-176 | the same over every run without a write-complete callback, however long ticks and pushes go on |
| LogProgress.NoticeIffCrossing | src/connection.cpp:180-190 | a high-water notice is queued by exactly the steps that take the backlog from below the mark to it or above; with the alternation of crossings, it fell below in between |
| LogProgress.LossResumes | log_sender/log_sender.cpp:235-239 | losing the connection ends the pause |
| LogProgress.CanDeliver | log_sender/log_sender.cpp:160-213 | from every state with the invariant of RunFrom, on an open connection with a tick timer set, there is a run after which every accepted message that no earlier connection took is sent and with the kernel |
| LogProgress.OneTickTimerIff | log_sender/log_sender.cpp:135-176 | with no wake tick on its way, there is at most one tick timer if and only if no push has ever returned wake_up |
| LogProgress.OneChainPerWakeup | log_sender/log_sender.cpp:122-158 | over every run, tick timers set and wake ticks on their way are one more than the pushes that returned wake_up |
| LogProgress.AnyNumberOfTickTimers | log_sender/log_sender.cpp:135-176 | for every n there is a run that ends, all quiet, with n tick timers set |
| LogPipeline.WireRun | log_sender/log_sender.cpp:178-213 | queue protocol and byte stream hold over every run, whatever backpressure does |
| LogDelivery.Received | util/length_prefixed_codec.h:60-74 | a receiver holding any prefix of the kernel's bytes, in any packets, also of a connection that broke in mid-frame, decodes without error a prefix of the payloads sent, and all of them once everything arrived on an open connection |
| LogDelivery.SentInPushOrder | log_sender/log_sender.cpp:178-213 | the messages sent so far are the first accepted pushes, in lock order |
| LogDelivery.EndToEnd | log_sender/log_sender.cpp:178-213 | over every run, from accepted pushes through queue, batches, codec, partial writes, a possible loss of the connection and packets to the decoded frames: in order, without error, none missing once all is read; whatever callbacks were left over |
| LogReconnects.SafeStep | src/event_loop.cpp:119-139 | every step of the loop's rounds, with the client's own retries, keeps a new connection from inheriting a pause, if backpressure is off or no dispatch lasts 500 ms |
| LogReconnects.SlowDispatchWedges | src/tcp_client.cpp:236-278 | a run over two connections that wedges: a wake tick fills the backlog past the mark, the next dispatch loses the connection and, 500 ms on, has it back, and then the old notice is run |
| LogReconnects.NeverWedgedIffDispatchIsShort | log_sender/log_sender.cpp:217-255 | over any number of connections, lost and brought back by the client machine, the sender never wedges if and only if backpressure is off or dispatch always takes less than the first retry delay of 500 ms |
| LogReconnects.EveryConnection | log_sender/log_sender.cpp:178-240 | across reconnects too, each connection carries exactly the frames of what was handed over during its life, and the messages handed over are the first accepted pushes in lock order |
| LogReconnects.EveryReceiver | log_sender/log_sender.cpp:178-240 | over every run with any number of connections, a receiver of the present or just lost one has decoded without error a prefix of the payloads sent on it |
| LogReconnects.RoundsAreRuns | src/event_loop.cpp:115-139 | every run of the rounds is a run of the event loop's own machine, with the same functors queued and the same batch under way |
| LogSender.LogSender.OnConnection | log_sender/log_sender.cpp:217-240 | stores or clears the connection and resumes; a new connection gets the mark and both callbacks unless backpressure is off |
| LogSender.LogSender.SendOne | log_sender/log_sender.cpp:210-212 | one encoded entry goes to the connection; a write error clears connection_ through the close callback |
| LogSender.LogSender.SendBatch | log_sender/log_sender.cpp:206-213 | the connection after the whole batch (see BatchIsAccepted), and whether the loop came round to an empty connection_ |
| LogSender.BatchIsAccepted | log_sender/log_sender.cpp:210-212 | a batch that leaves the connection up is accepted whole, frame by frame in order, on top of any backlog |
| LogSender.BatchIsARun | log_sender/log_sender.cpp:206-213 | send_batch is the run of the pipeline that sends the entries one after the other, up to the end or the break; entries are left over exactly when the code would fault |
| LogSender.LogSender.CollectBatch | log_sender/log_sender.cpp:182-198 | the loss report first, if any, then at most max_batch queued messages in order; the queue is left as take_dropped and drain leave it |
| LogSender.CollectIsARun | util/mpsc_queue.h:105-130 | what CollectBatch promises is what the drain sections of the queue protocol do undisturbed |
| LogSender.LogSender.DoDrainAndSend | log_sender/log_sender.cpp:178-204 | queue, batch, connection and connection_ after one drain |
| LogSender.LogSender.OnTick | log_sender/log_sender.cpp:160-172 | drains as DoDrainAndSend does, if and only if there is a connection, it is up and not paused; otherwise queue and connection are left alone |
| LogSender.FaultsIff | log_sender/log_sender.cpp:206-240 | send_batch calls through an empty connection_ if and only if it starts without a backlog and the kernel, having taken every earlier entry whole, fails the write of one that is not the last |
| LogSender.FaultExample | log_sender/log_sender.cpp:210-212 | any two entries on a new connection, when the first write fails |
| TcpServer.TcpServer.HandleAccept | src/server.cpp:102-171 | the accept loop stores what Admitted says (see AdmittedExactly), in order, under fresh connections |
| TcpServer.AdmittedExactly | src/server.cpp:104-121 | for every sequence of answers, what is stored are exactly the non-blocking descriptors before the first EAGAIN or error, in order |
| TcpServer.AdmittedSplit | src/server.cpp:104-121 | answers that do not end the loop add up |
| TcpServer.AcceptsAsStored | src/server.cpp:104-170 | the accept steps of a run leave the table and the numbering exactly as HandleAccept does |
| TcpServer.TcpServer.RemoveConnectionInLoop | src/server.cpp:173-208 | erases and notifies if and only if the table still holds this very connection |
| TcpServer.StoredSnoc | src/server.cpp:149-158 | storing one more connection overrides whatever its descriptor held and nothing else |
| TcpServer.Preserved | src/server.cpp:102-208 | every step of every loop keeps the table invariant |
| TcpServer.EveryRun | src/server.cpp:102-208 | in every interleaving of accepts, closes on other loops and delayed removals under descriptor reuse: every open descriptor is stored under its own connection; each callback runs at most once and the disconnect callback only after the established one |
| TcpServer.OpenIsStored | src/server.cpp:149-158 | the newest holder of an open descriptor is the one in the table |
| TcpServer.RemovalSkipsIffReused | src/server.cpp:173-187 | a removal touches no other connection's entry, and skips with its disconnect callback if and only if a newer connection was given the descriptor |
| TcpServer.SkippedForGood | src/server.cpp:183-187 | a connection whose removal was skipped never gets its disconnect callback, in any continuation |
| TcpServer.ReuseLosesTheDisconnect | src/server.cpp:149-187 | a run from the start that gets there: closed, descriptor accepted again, then the removal |
| TcpClient.DelayDoubles | src/tcp_client.cpp:276-277 | min(500 * 2^n, 30000) is what doubling up to the cap gives |
| TcpClient.RetryScheduled | src/tcp_client.cpp:250-278 | the n-th retry since a reset sets a timer due min(500 * 2^n, 30000) ms from now; without permission there is none |
| TcpClient.ConnectStarted | src/tcp_client.cpp:119-176 | every outcome of an attempt ends in a good state and the attempt is made at this instant; without permission there is none |
| TcpClient.AttemptLeadsTo | src/tcp_client.cpp:128-164 | per outcome: EINPROGRESS keeps the new socket and is connecting, every failure has closed what it opened and retries, success at once makes that socket the connection |
| TcpClient.HandshakeFinished | src/tcp_client.cpp:178-234 | success, failure, and a call with no connecting socket, which schedules a retry; the state stays good if and only if the client was not connected, whatever the callback calls |
| TcpClient.HandshakeLeadsTo | src/tcp_client.cpp:198-232 | failure closes the socket and retries with the next delay; success makes that very socket the connection with the delays reset, before the callback has its say |
| TcpClient.CallsMade | src/tcp_client.cpp:66-117 | connect and disconnect calls made by a callback, to any depth, keep the state good |
| TcpClient.CallsSplit | src/tcp_client.cpp:66-72 | the calls of a callback take effect one after the other |
| TcpClient.LastCallCounts | src/tcp_client.cpp:66-117 | after a last disconnect the client is down; a last connect attempts at once unless connecting or connected |
| TcpClient.AfterConnect | src/tcp_client.cpp:74-83 | an attempt at this very instant, unless one is under way or the client is connected, when nothing changes |
| TcpClient.AfterDisconnect | src/tcp_client.cpp:85-117 | ends disconnected, without permission to retry and without a new socket |
| TcpClient.AfterClosed | src/tcp_client.cpp:236-248 | the socket is closed and a retry is planned if and only if permitted and the callback did not withdraw |
| TcpClient.AfterTimer | src/tcp_client.cpp:266-274 | a timer that finds the client retrying makes an attempt now, whoever set it; otherwise nothing changes |
| TcpClient.TcpClient.ScheduleRetry | src/tcp_client.cpp:250-278 | the in-place update is RetryScheduled |
| TcpClient.TcpClient.StartConnect | src/tcp_client.cpp:119-176 | the in-place update is ConnectStarted |
| TcpClient.TcpClient.HandleConnectWritable | src/tcp_client.cpp:178-234 | the in-place update is HandshakeFinished |
| TcpClient.TcpClient.ConnectInLoop | src/tcp_client.cpp:74-83 | the in-place update is AfterConnect |
| TcpClient.TcpClient.DisconnectInLoop | src/tcp_client.cpp:85-117 | the in-place update is AfterDisconnect |
| TcpClient.TcpClient.OnConnectionClosed | src/tcp_client.cpp:236-248 | the in-place update is AfterClosed |
| TcpClient.TcpClient.RetryTimer | src/tcp_client.cpp:266-274 | the in-place update is AfterTimer |
| TcpClient.Exec | src/tcp_client.cpp:74-278 | in every reachable state: connecting if and only if a connecting socket is held, connected if and only if a connection is; every socket ever created is exactly one of closed, connecting, owned; the delays since the last reset are exact; while retrying, the timer of the retry is pending |
| TcpClient.QuietAfterDisconnect | src/tcp_client.cpp:85-117 | after a disconnect no run without a connect makes an attempt or a socket, whatever stale timers fire |
| TcpClient.CanConnect | src/tcp_client.cpp:119-234 | from every retrying state there is a run through EINPROGRESS and a successful handshake that ends connected with the socket of that attempt |
| TcpClient.WaitKeptIff | src/tcp_client.cpp:250-278 | from a retry due at t + w, no run without a new connect call attempts before t + w if and only if that instant has come or no pending timer, stale ones included, is due before it |
| TcpClient.StaleTimerShortensTheWait | src/tcp_client.cpp:112-116 | refused at 0, withdrawn, refused at 400: the retry due at 900 is attempted at 500 |
| TcpClient.SoleStep | src/tcp_client.cpp:178-278 | a client that connects once and whose callback makes no calls never has a timer but that of the retry it waits for |
| TcpClient.LossWaits | src/tcp_client.cpp:236-278 | when such a client loses its connection, the retry is due 500 ms later and nothing can go off before |
| LogFile.LogFile.constructor | log_server/log_file.cpp:18-34 | a new object rolls at once, by what the directory holds |
| LogFile.LogFile.ScanTodayMaxSeq | log_server/log_file.cpp:166-191 | the largest number of the day within the limit, 0 if none, whatever the order of the listing |
| LogFile.LogFile.OpenCurrent | log_server/log_file.cpp:134-157 | append mode: an existing file is kept and its size taken over; a failed open leaves the directory alone |
| LogFile.LogFile.RollIfNeeded | log_server/log_file.cpp:94-132 | the file chosen by date change, size, or scan |
| LogFile.LogFile.Append | log_server/log_file.cpp:43-62 | rolls first, then the bytes taken go to the end of the current file |
| LogFile.TextGrows | log_server/log_file.cpp:43-62 | writing to the last file of the last day appends to the text of the whole directory |
| LogFile.RollKeeps | log_server/log_file.cpp:94-132 | a roll keeps numbering, filling, bounds and text, and leaves room in the file it opens |
| LogFile.WriteKeeps | log_server/log_file.cpp:50-61 | so does a write after a roll |
| LogFile.EveryRun | log_server/log_file.cpp:43-191 | over every run of starts, appends and stops with failing opens and short writes: each day's files are 1..k, all but the k-th have reached the roll size, each is smaller than the roll size plus its last write, and in (date, number) order they are everything written |
| LogFile.DirectoryIsWhatLanded | log_server/log_file.cpp:43-62 | over every run, all files in order are the bytes of exactly those appends that needed no new file or could open it |
| LogFile.RollOpensIff | log_server/log_file.cpp:94-147 | after a roll a file is open if and only if none was needed or it could be opened |
| LogFile.CanRestart | log_server/log_file.cpp:18-41 | a running object can be stopped and a new one started, on the same day or later, with nothing lost |
| LogFile.RestartResumesIff | log_server/log_file.cpp:114-129 | after a restart writing goes on at the end of the day's files if and only if the scan limit does not hide the last of them |
| LogFile.RestartGoesBack | log_server/log_file.cpp:183-188 | a day of filled files two beyond the scan limit: a restart chooses the existing file just beyond the limit |

## Left out

- Memory ordering weaker than sequential consistency, and the moment a shared_ptr or weak_ptr releases its object (`Channel::tie`): a connection object is known by its identity.
- System calls, errno values, socket addresses and stderr output: only their outcomes, as free choices of the environment.  A list of kernel answers that runs out continues with "would block".
- Destructors and the shutdown of servers, clients, threads and thread pools; thread-pool round-robin, where the home loop of a connection is a free choice.
- `Channel` event masks and dispatch order: an event that writes after a close in the same dispatch is allowed, and byte-stream claims are about unclosed connections.
- `HttpServer`, `HttpResponse`, and `keep_alive`/`get_header` of `HttpRequest`: short wrappers.  The request is a value inside the parser object, and lower-casing is ASCII only.
- Logging macros, demo programs and the Python clients.
- The RPC server, client and registry that the design documents describe: not in the source.
- Counter overflow of `dropped_`, the eventfd and size_t: unbounded here.  32-bit wrap-around of the frame length is modelled, as the separate verdict `Overrun` where the code's behaviour is undefined.
- EventLoop: functors still pending when quit is observed are never run, so nothing is claimed after the loop has exited.
- `HttpContext::reset`, the eventfd read and write, the drop counter and the two pause callbacks are in the model without rows of their own: each is one assignment.
- TimerRuns: handle_read may be entered at any time, which covers a spurious wake-up; the runs that are shown to exist enter it only after the kernel timer has gone off.
- TimerQueue: reading the clock and setting the kernel timer are one instant, and a callback is a finite list of adds and cancels.
- Connection: the test-and-set of `state_` in `shutdown()` is one step; concurrent callers of it would be a data race on a plain field.  Delayed force-close is a close at an arbitrary time.  A send that breaks the connection counts none of its bytes as accepted.
- LogPipeline: `stop` is not modelled and promises no flush.  A write error in mid-batch ends the run of the loop thread (what the code then does is undefined; `LogSender.FaultsIff` says when).
- LogReconnects: the sender calls connect once, before the run begins with its first connection established; `start` and `stop` are not steps.
- TcpServer: accepting and storing are one step; queued functors may run in any order, which covers every order a loop can have.
- TcpClient: everything done in one event happens at one instant.  `start()` of a connection that the user's callback closed while being told it is up, and a second event on the connect channel after the first has destroyed it, are not modelled.
- LogFile: file names are pairs of date and number, without their textual form; an unreadable directory, a failing file_size, and loss of unflushed data in a crash are not modelled; with dates that go back or numbers beyond the scan limit no claim is made beyond `LogFile.RestartResumesIff`.  With a roll size of 0 the size bound does not apply.
- `append_line` of the log file: it is three appends, so a line may straddle two files; timestamps are not formatted.
