# Verified models of the concurrent and numeric cores

The repository is a collection of C++ programs. This project models the ones that contain a real
protocol, state machine or numerical law, and proves what they are meant to guarantee.

| files | what they model |
|---|---|
| `Semaphore`, `SemaphoreAlone`, `SemaphoreRest`, `SemaphoreTest`, `Sums` | the lock-free semaphore with its condition-variable slow path, and the stress program that exercises it |
| `WorkQueue`, `WorkQueueRuns`, `WorkQueueRest`, `WorkQueueHistory`, `Connections`, `ConnectionManager` | the work-queue scheduler of the HTTP server: event threads and read and write workers that share connections through a flag, a FIFO and an auto-reset event |
| `HttpParser`, `HttpLength`, `HttpRequest` | the incremental request parser |
| `Events`, `ServerHandlers`, `HandlerOutcomes`, `ServerProactor`, `ClientCalls`, `CallPermits`, `Sessions`, `TalkSession`, `ListenSession`, `SpeakSession` | tokens and key allocation, the server and client halves of the asynchronous gRPC chat, and talk, listen and speak calls from end to end |
| `Framer`, `EpollServer` | the edge-triggered epoll server and its frame transformer |
| `IocpEcho` | the completion-port echo server |
| `Bezier`, `Geodetic` | the recursive Bézier curve and the coordinate conversions on the WGS 84 ellipsoid |
| `Basics`, `Reals` | optional values, 32-bit numbers, reversal, and signs of products |

Threads are interleaved step by step: a state is a value, a step is one access to an atomic, one
critical section or one operation of a mutex or condition variable, and a run is any sequence of
labels that says who moves and how the environment decides. Results about runs therefore hold for
every interleaving, every number of threads and connections, and every answer of the system calls.
Objects that one thread changes at a time are classes, and each method is proved against the
function that the results about runs use; `Connections.TurnIsRun` and `ServerProactor.Proactor.Dispatch`
tie the objects of the two servers to the steps of their machines, and `CallPermits` ties the client's
permit to the atomic steps of the semaphore.

Where code and comments disagree, the code is modelled. The parser treats an empty first line
as not yet read, so such streams parse differently when cut differently; `ChunkingExactly` states
for which streams this happens. In the epoll server a mask with `EPOLLERR` and a draining
`EPOLLOUT` looks up a descriptor that is already gone; `EventThrowsExactly` states when. A parser that
threw is not reset: `AppendAfterBadLength` and its neighbours state what the next piece does. The
geodetic height of a point beyond the equatorial plane is not its distance to the ellipsoid;
`HeightIsDistanceExactly` states the bound. A failed completion leaves a client context of the
completion-port server registered with nothing outstanding, and a read connection in error keeps the
workers of the HTTP server busy until the manager closes; `EchoExactness` and `RestsExactly` state when. `closed`
of the connection manager is taken to be false at first, although its constructor does not set it,
and a semaphore has a capacity of at least zero.

## Model

| member | source | states |
|---|---|---|
| `Semaphore.NoLostWakeup` | learn_grpc/hello_world/src/lib/utils/semaphore.h:27-58 | in every interleaving of any number of threads, with spurious failures and wakeups: while somebody sleeps, the free permits are at most the releasers that still owe a notify plus the acquirers awake inside acquire; 0 ≤ remaining ≤ capacity; acquires − releases = capacity − remaining |
| `Semaphore.FreePermitIsNeverStranded` | learn_grpc/hello_world/src/lib/utils/semaphore.h:33-57 | in every run, a free permit together with a sleeper means that some thread can take a step |
| `Semaphore.QuietSleepersHaveNoPermit` | learn_grpc/hello_world/src/lib/utils/semaphore.h:33-56 | when no call is in flight, a sleeping acquirer implies that no permit is left |
| `Semaphore.SomeThreadCanStep` | learn_grpc/hello_world/src/lib/utils/semaphore.h:27-58 | the mutex never blocks everybody: unless all calls are at rest, some thread can step |
| `Semaphore.AcquiredMeansPermitTaken` | learn_grpc/hello_world/src/lib/utils/semaphore.h:30-41 | a thread leaves acquire only with the step that lowers remaining by one |
| `Semaphore.ReleaseReturns` | learn_grpc/hello_world/src/lib/utils/semaphore.h:45-58 | release returns false only where its loop has seen a full semaphore, with nothing changed, and true only behind the step that raised remaining by one |
| `Semaphore.LoadsReadRemaining` | learn_grpc/hello_world/src/lib/utils/semaphore.h:30-48 | the expected value of a compare-exchange loop is what remaining was when it was read |
| `SemaphoreAlone.AcquireTakes` | learn_grpc/hello_world/src/lib/utils/semaphore.h:27-43 | uninterrupted, with a permit left: one permit is taken, nothing else changes |
| `SemaphoreAlone.AcquireSleeps` | learn_grpc/hello_world/src/lib/utils/semaphore.h:33-38 | uninterrupted, without a permit: the thread counts itself as waiting and sleeps with the mutex free |
| `SemaphoreAlone.ReleaseReturnsPermit` | learn_grpc/hello_world/src/lib/utils/semaphore.h:45-58 | uninterrupted, with room and nobody waiting: one permit comes back and true is returned |
| `SemaphoreAlone.ReleaseIsLost` | learn_grpc/hello_world/src/lib/utils/semaphore.h:50-52 | on a full semaphore nothing changes and false is returned |
| `SemaphoreAlone.ReleaseWakes` | learn_grpc/hello_world/src/lib/utils/semaphore.h:53-57 | with a sleeper, one permit comes back and one sleeper is woken, with the mutex free again |
| `Semaphore.NextKeepsInv` | learn_grpc/hello_world/src/lib/utils/semaphore.h:27-58 | each atomic step keeps mutual exclusion, the bounds, the count of waiters in waited, permit conservation and the matching of free permits |
| `SemaphoreRest.CallsComeToRest` | learn_grpc/hello_world/src/lib/utils/semaphore.h:27-58 | from every reachable state a run without new calls, spurious failures or spurious wakeups is bounded, and where it stops every call has returned or sleeps while no permit is left |
| `SemaphoreRest.PlainStepLowersMeasure` | learn_grpc/hello_world/src/lib/utils/semaphore.h:27-58 | each such step lowers a measure: a compare-exchange fails only because another thread succeeded |
| `SemaphoreTest.ErrorCheckNeverFires` | thread/semaphore/main.cpp:61-107 | for every capacity, count and thread numbers, no interleaving of the stress program reaches the "error, acquire" branch: whoever is about to raise number finds it below sn |
| `SemaphoreTest.NumberCounts` | thread/semaphore/main.cpp:77-102 | number goes up by one behind each acquire, down by one before each release, and the check looks at the value before the raise |
| `SemaphoreTest.AcquirerReserves` | thread/semaphore/main.cpp:68-77 | an acquirer that runs by itself reserves an acquire and calls it, or exits when all are reserved |
| `SemaphoreTest.NoAcquirerSleepsForever` | thread/semaphore/main.cpp:68-107 | whenever the semaphore is at rest and an acquirer sleeps, some releaser has reserved a release and is on its way to it, or every releaser is still in its loop and, run by itself, reserves one |
| `SemaphoreTest.SleeperMeansReleaseDue` | thread/semaphore/main.cpp:87-107 | at rest, a sleeper means that a release is reserved or that releaseCount is below acquireCount − sn |
| `SemaphoreTest.ReleaserReserves` | thread/semaphore/main.cpp:87-102 | while a release is due, a releaser that runs by itself reserves it from every place of its loop, stale counts included |
| `SemaphoreTest.NextTestKeepsInv` | thread/semaphore/main.cpp:26-107 | each step keeps the accounts that tie number, acquireCount and releaseCount to the permits taken and returned |
| `WorkQueueRuns.SingleOwnership` | simple_http/tcp_server/src/connection.cpp:394-516 | in every run isReading / isWriting holds exactly when the connection has one token (a thread or one queue slot); two threads never hold the same connection; counters never go negative; the throws at lines 408 and 473 are unreachable |
| `WorkQueueRuns.WriteStreamConservation` | simple_http/tcp_server/src/connection.cpp:255-292 | in every run bytes sent, response, the content a write worker carries and the cached bytes are, in this order, everything passed to AddToWriteCache |
| `WorkQueueRuns.SentIsPrefixOfAppended` | simple_http/tcp_server/src/connection.cpp:139-169 | what was sent is always a prefix of what was passed to AddToWriteCache |
| `WorkQueueHistory.PassedIsConserved` | simple_http/tcp_server/src/connection.cpp:451-516 | bytes sent, response, carried content and cache are, in this order, the contents of the AddToWriteCache calls of the run, one after the other |
| `WorkQueueHistory.EventsAreConserved` | simple_http/tcp_server/src/connection.cpp:98-169 | a connection's counter is its reported events less those spent by a read or write; it is in error exactly when a failure was reported, and unknown to the map exactly when somebody closed it |
| `WorkQueueHistory.QueueIsFifo` | simple_http/tcp_server/src/connection.cpp:228-253 | workers take the connections in the order in which they were enqueued, and leave none out |
| `WorkQueueHistory.CheckClaimsExactly` | simple_http/tcp_server/src/connection.cpp:394-467 | a check claims a connection exactly when it is free and has an event, on the write side with content, or on the write side a handler that is done |
| `WorkQueueHistory.TransferSends` | simple_http/tcp_server/src/connection.cpp:160 | a transfer sends as many bytes of the response as the socket takes, in order, and no others |
| `WorkQueueHistory.ClosedExactly` | simple_http/tcp_server/src/connection.cpp:518-527 | the manager is closed exactly when somebody has called Close |
| `WorkQueueRuns.WorkIsInHands` | simple_http/tcp_server/src/connection.cpp:340-449 | in every run a pending connection has its token, a thread about to check it, or (write side) was released |
| `WorkQueueRuns.QueueIsAttended` | simple_http/tcp_server/src/connection.cpp:417-449 | in every run a non-empty queue of an open manager has a signal, a setter or a draining worker, whether or not its connections are pending |
| `WorkQueueRuns.RestMeansNothingPending` | simple_http/tcp_server/src/connection.cpp:340-516 | an open manager with a worker that comes to rest has an empty queue, no flag set and nothing pending on a connection it still knows |
| `WorkQueueRest.OpenManagerComesToRest` | simple_http/tcp_server/src/connection.cpp:394-516 | from every reachable open state, with no read connection in error, each run without new reports is bounded, and where it stops everything is handled as above, for any worker count |
| `WorkQueueRest.RestsExactly` | simple_http/tcp_server/src/connection.cpp:404-449 | an open manager can come to rest if and only if it is the write side or no connection is in error |
| `WorkQueueRest.ErrorNeverRests` | simple_http/tcp_server/src/connection.cpp:78-80 | with a read connection in error no continuation, however long, ends at rest: the connection is requeued for ever |
| `WorkQueueRest.StepLowersWork` | simple_http/tcp_server/src/connection.cpp:425-516 | each such step lowers a measure over threads, queued connections, their events or content, and the signal |
| `WorkQueueRuns.WaitingWorkerIsReached` | simple_http/tcp_server/src/connection.cpp:425-449 | after Close a waiting worker always has a signal, a pending Set, or a worker on its way out that will Set |
| `WorkQueueRuns.ShutdownMeasure` | simple_http/tcp_server/src/connection.cpp:490-527 | after Close every step of a worker or of a call in progress lowers a measure over thread positions |
| `WorkQueueRuns.ShutdownEndsAllWorkers` | simple_http/tcp_server/src/connection.cpp:518-527 | from every reachable closed state a run without new reports is bounded, and where it cannot continue every worker has exited, for any worker count |
| `WorkQueueRuns.RunInv` | simple_http/tcp_server/src/connection.cpp:294-527 | both invariants hold in every reachable state, for any numbers of threads and either side |
| `WorkQueue.NextKeepsInv` | simple_http/tcp_server/src/connection.cpp:340-527 | every step of every thread keeps the token, event and content invariants |
| `WorkQueue.ActKeepsToken` | simple_http/tcp_server/src/connection.cpp:98-169 | each stage of a thread that carries a connection keeps its single token, its counter and its byte stream |
| `WorkQueue.SingleHolder` | simple_http/tcp_server/src/connection.cpp:394-415 | two positions holding the token of one connection are the same thread |
| `WorkQueue.NextKeepsEventOk` | simple_http/tcp_server/include/utils.h:31-57 | the auto-reset event keeps: queued work or a closing manager always has a signal, a setter or an awake worker behind it |
| `Connections.FollowIsRun` | simple_http/tcp_server/src/connection.cpp:417-516 | the steps of an uninterrupted thread lead the machine to exactly the state its method computes |
| `Connections.FollowEnds` | simple_http/tcp_server/src/connection.cpp:417-516 | following a thread alone ends where it puts the connection down, or at its recheck |
| `Connections.FollowWork` | simple_http/tcp_server/src/connection.cpp:98-169 | a whole Read or Write, as its method is specified, is the machine's run from Work to the recheck |
| `Connections.FollowFetch` | simple_http/tcp_server/src/connection.cpp:505-507 | fetching, storing and writing is the machine's run from Fetch to the recheck |
| `Connections.FollowRecheck` | simple_http/tcp_server/src/connection.cpp:404-415 | rechecking, as its method is specified, is the machine's run from Recheck to the next dequeue |
| `Connections.TurnIsRun` | simple_http/tcp_server/src/connection.cpp:432-511 | a worker that is not interrupted takes the machine from the dequeued connection to its next dequeue exactly as its turn says |
| `Connections.TurnSendsAll` | simple_http/tcp_server/src/connection.cpp:503-511 | a write turn with an event to spend and a socket that takes everything ends with all content ever cached sent |
| `Connections.TurnSendsPrefix` | simple_http/tcp_server/src/connection.cpp:503-511 | otherwise it sends as many bytes in line as the socket takes and keeps the others in order |
| `Connections.Connection.CloseUnless` | simple_http/tcp_server/src/connection.cpp:119-121 | closes exactly when the handler does not wait, the socket once |
| `Connections.ConnectionMap.constructor` | simple_http/tcp_server/src/connection.cpp:188-191 | knows no connection |
| `Connections.ConnectionMap.GetValue` | simple_http/tcp_server/src/connection.cpp:194-201 | the connection, or the exception for an unknown id |
| `Connections.ConnectionMap.Add` | simple_http/tcp_server/src/connection.cpp:203-210 | binds a new id, throws exactly for a known one |
| `Connections.ConnectionMap.Erase` | simple_http/tcp_server/src/connection.cpp:212-219 | unbinds a known id and throws exactly for an unknown one |
| `Connections.WriteCache.constructor` | simple_http/tcp_server/src/connection.cpp:261-262 | no content for any connection |
| `Connections.WriteCache.Add` | simple_http/tcp_server/src/connection.cpp:264-272 | appends to the content of one connection and leaves the others alone |
| `Connections.WriteCache.Get` | simple_http/tcp_server/src/connection.cpp:274-282 | hands over the content of one connection and leaves it empty, the others unchanged |
| `Connections.WriteCache.HasContentToWrite` | simple_http/tcp_server/src/connection.cpp:284-291 | true exactly when content is cached for the connection |
| `Connections.Connection.constructor` | simple_http/tcp_server/src/connection.cpp:28-41 | a new connection is idle on both sides |
| `Connections.Connection.Read` | simple_http/tcp_server/src/connection.cpp:98-122 | closes on an error, spends one readiness, closes when the handler is done, and makes exactly these calls of the handler: the error, the data, the completion of a whole request; the socket is closed once for the error and once more for a finished handler |
| `Connections.Connection.Send` | simple_http/tcp_server/src/socket_handler.cpp:44-73 | moves the taken prefix of response to the socket and keeps the rest |
| `Connections.Connection.Write` | simple_http/tcp_server/src/connection.cpp:144-169 | with a readiness to spend, exactly as many bytes of the response go out as the write calls take, in order, and the rest stays; closes on an error and for a finished handler, the socket once each; reports the error and the completed response |
| `Connections.Connection.SendAndClose` | simple_http/tcp_server/src/connection.cpp:160-168 | the prefix that the socket takes goes out, and a finished handler closes the connection |
| `ConnectionManager.Manager.NeedInQueueRead` | simple_http/tcp_server/src/connection.cpp:394-402 | claims the token exactly when an event happened and nobody holds it |
| `ConnectionManager.Manager.NeedReInQueueRead` | simple_http/tcp_server/src/connection.cpp:404-415 | throws exactly without the flag; keeps the token for a pending event, else gives it up |
| `ConnectionManager.Manager.CheckToInQueueRead` | simple_http/tcp_server/src/connection.cpp:417-423 | flag, queue and event after a check are those of the machine's stages from Check on |
| `ConnectionManager.Manager.DeQueueRead` | simple_http/tcp_server/src/connection.cpp:243-252 | hands out the oldest connection, none exactly when the queue is empty |
| `ConnectionManager.Manager.DeQueueWrite` | simple_http/tcp_server/src/connection.cpp:243-252 | hands out the oldest connection, none exactly when the queue is empty |
| `ConnectionManager.Manager.ReadTurn` | simple_http/tcp_server/src/connection.cpp:438-444 | a turn of the read loop reads, lets other threads add events, errors, content and a close, and then enqueues the connection exactly while an event is pending, else clears its flag |
| `ConnectionManager.Manager.GiveBackRead` | simple_http/tcp_server/src/connection.cpp:442-444 | enqueues the connection exactly while an event is pending, else clears the flag; throws exactly without it |
| `ConnectionManager.Manager.NeedInQueueWrite` | simple_http/tcp_server/src/connection.cpp:459-467 | claims the write token exactly when content can be written or the handler is done, and nobody holds it |
| `ConnectionManager.Manager.NeedReInQueueWrite` | simple_http/tcp_server/src/connection.cpp:469-480 | throws exactly without the flag; keeps the token while content is pending, else gives it up |
| `ConnectionManager.Manager.CheckToInQueueWrite` | simple_http/tcp_server/src/connection.cpp:482-488 | flag, queue and event after a check are those of the machine's stages from Check on |
| `ConnectionManager.Manager.AddToWriteCache` | simple_http/tcp_server/src/connection.cpp:451-457 | caches the content in any case, throws exactly for an id that the map does not know, else checks the connection in |
| `ConnectionManager.Manager.NewConnection` | simple_http/tcp_server/src/connection.cpp:323-338 | adds an idle connection under its id, or leaves the map alone when the id is taken |
| `ConnectionManager.Manager.CanRead` | simple_http/tcp_server/src/connection.cpp:340-351 | counts the event and checks the connection in; an unknown id changes nothing |
| `ConnectionManager.Manager.CanWrite` | simple_http/tcp_server/src/connection.cpp:353-364 | counts the event and checks the connection in; an unknown id changes nothing |
| `ConnectionManager.Manager.Fail` | simple_http/tcp_server/src/connection.cpp:366-392 | sets the error code, checks the connection in on both sides with both queues and events as the machine says; an unknown id changes nothing |
| `ConnectionManager.Manager.OthersAct` | simple_http/tcp_server/src/connection.cpp:63-71 | an error code set by another thread, with the content it caches and the close it makes, reaches the fields that a worker rechecks |
| `ConnectionManager.Manager.Close` | simple_http/tcp_server/src/connection.cpp:518-527 | sets closed and both events once, and nothing the second time |
| `ConnectionManager.Manager.WriteTurn` | simple_http/tcp_server/src/connection.cpp:503-511 | a turn of the write loop fetches and writes, lets other threads add content, events, errors and a close, and then enqueues the connection exactly while content is pending, else clears its flag |
| `HttpParser.ChunkingExactly` | simple_http/http_server/src/http_request.cpp:9-103 | a stream parses the same however it is cut if and only if it does not start with an empty line followed by another line end |
| `HttpParser.ChunkingIndependence` | simple_http/http_server/src/http_request.cpp:96-103 | every cut of such a stream gives the first line, headers, length, flags, failure and body of one Append of the whole |
| `HttpParser.IrregularCutDiffers` | simple_http/http_server/src/http_request.cpp:9-22 | every other stream has a cut, after its leading line ends, that shows a different result |
| `HttpParser.EmptyFirstLineWitness` | simple_http/http_server/src/http_request.cpp:9-22 | two line ends in one piece complete a request, in two pieces they do not |
| `HttpParser.RenderedRequestIsRecovered` | simple_http/http_server/src/http_request.cpp:24-103 | rendering a first line, fields and a body and feeding any cut of it gives back line, trimmed fields, length and body |
| `HttpLength.LengthIsDeclared` | simple_http/http_server/src/http_request.cpp:35-79 | every cut of a request with a Content-Length field shows the number its trimmed value reads as, is complete exactly when that many body bytes are there, and then has exactly these |
| `HttpLength.SingleField` | simple_http/http_server/src/http_request.cpp:35-79 | the usual request: one such field |
| `HttpLength.NoFieldIsZero` | simple_http/http_server/src/http_request.cpp:37-40 | without the field the length is zero and the request complete without a body |
| `HttpLength.BadValueThrows` | simple_http/http_server/src/http_request.cpp:41 | a value that does not read as a number is an exception, with the headers complete |
| `HttpLength.LastFieldCounts` | simple_http/http_server/src/http_request.cpp:30-32 | of several fields with one name the last one counts, with its value trimmed |
| `HttpLength.AbsentField` | simple_http/http_server/src/http_request.cpp:30-32 | a name that no field has is not in the headers |
| `HttpLength.TrimFinds` | simple_http/tcp_server/include/utils.h:15-29 | Trim finds the text between white space, whatever the white space |
| `HttpLength.SpacesAre` | simple_http/tcp_server/include/utils.h:15-23 | white space is the space and the codes 9 to 13 |
| `HttpParser.ScanExtends` | simple_http/http_server/src/http_request.cpp:44-62 | scanning headers of an extended buffer is continuing the scan of the buffer |
| `HttpParser.FindsFirstLineEnd` | simple_http/http_server/src/http_request.cpp:15-18 | the search stops at the first line end |
| `HttpParser.TrimSplits` | simple_http/tcp_server/include/utils.h:15-29 | Trim removes white space at both ends, only white space, and all of it |
| `HttpRequest.HttpRequest.constructor` | simple_http/http_server/src/http_request.cpp:90-94 | an empty request |
| `HttpRequest.HttpRequest.SetFirstLine` | simple_http/http_server/src/http_request.cpp:9-22 | new state is that of the specification |
| `HttpRequest.HttpRequest.AddHeader` | simple_http/http_server/src/http_request.cpp:24-33 | throws exactly without a separator, else binds the name to the trimmed value |
| `HttpRequest.HttpRequest.SetContentLength` | simple_http/http_server/src/http_request.cpp:35-42 | zero without the header; throws exactly when stoi does |
| `HttpRequest.HttpRequest.SetHeaders` | simple_http/http_server/src/http_request.cpp:44-62 | the erase loop does what the recursive scan specifies, with the same failure state |
| `HttpRequest.HttpRequest.TakeLine` | simple_http/http_server/src/http_request.cpp:46-61 | one turn of the loop takes a line, stops for more input, at the blank line, or throws at a bad line |
| `HttpRequest.HttpRequest.CompleteHeaders` | simple_http/http_server/src/http_request.cpp:52-57 | the blank line completes the headers and sets the length |
| `HttpParser.ScanStep` | simple_http/http_server/src/http_request.cpp:46-61 | the recursive scan is the repetition of such turns |
| `HttpRequest.HttpRequest.ParseMessageBody` | simple_http/http_server/src/http_request.cpp:64-79 | collects the body and completes at the declared length |
| `HttpRequest.HttpRequest.ParseRequest` | simple_http/http_server/src/http_request.cpp:81-88 | new state and failure are those of the specification |
| `HttpRequest.HttpRequest.Append` | simple_http/http_server/src/http_request.cpp:96-103 | new state and failure are those of the specification that the chunking results are about |
| `HttpRequest.FeedPieces` | simple_http/http_server/src/http_request.cpp:96-103 | feeding a regular stream piece by piece to one object shows what the whole stream shows |
| `Events.TokenRoundTrip` | learn_grpc/hello_world/src/lib/event/event.h:7-45 | packing key and option into a token and back is the identity in both directions; setOpt keeps the key |
| `Events.EventHandlerManager.Add` | learn_grpc/hello_world/src/lib/event/event_handler_manager.h:21-32 | returns the first free key cyclically after lastKey modulo 2^32, binds it and nothing else; throws exactly when all keys are in use |
| `Basics.AllReached` | learn_grpc/hello_world/src/lib/event/event_handler_manager.h:24-29 | a search that has come round to its start has seen every key |
| `Events.EventHandlerManager.Contains` | learn_grpc/hello_world/src/lib/event/event_handler_manager.h:34-38 | true exactly for a bound key |
| `Events.EventHandlerManager.Get` | learn_grpc/hello_world/src/lib/event/event_handler_manager.h:40-47 | the bound handler, or the exception for an unbound key |
| `Events.EventHandlerManager.Remove` | learn_grpc/hello_world/src/lib/event/event_handler_manager.h:55-59 | unbinds one key and leaves the others alone |
| `ServerHandlers.EachHandlerHasOneOperation` | learn_grpc/hello_world/src/server/async/server_proactor.cpp:34-80 | over every sequence of completions a registered handler has exactly one outstanding operation, an unregistered key has none, so each delivered token finds its handler |
| `ServerHandlers.OneReceiverPerMethod` | learn_grpc/hello_world/src/server/async/server_proactor.h:64-80 | until stop each method on each queue has exactly one handler awaiting RECEIVE; after it at most one |
| `ServerHandlers.ListenWritesAllGreetings` | learn_grpc/hello_world/src/server/async/event_handler/chat_event_handler.h:106-167 | a listen handler that finishes its call has written its three greetings in order |
| `ServerHandlers.ReactAccounts` | learn_grpc/hello_world/src/server/async/event_handler/chat_event_handler.h:106-167 | a reaction either completes the handler or issues exactly one operation of a legal kind, and registers a successor exactly on RECEIVE |
| `HandlerOutcomes.UnaryIsAnswered` | learn_grpc/hello_world/src/server/async/event_handler/chat_event_handler.h:38-69 | a received greet is answered with "Me too!" and waits for that answer to be sent; then, and only then, its handler is removed; a failed receive removes it at once with nothing issued |
| `HandlerOutcomes.FailedReceive` | learn_grpc/hello_world/src/server/async/event_handler/chat_event_handler.h:38-55 | for every kind of handler a failed receive removes it at once with nothing outstanding, and a successor waits for the next call |
| `HandlerOutcomes.ReceivedCall` | learn_grpc/hello_world/src/server/async/event_handler/chat_event_handler.h:106-167 | for every kind of handler a received call starts its first operation, and a successor waits for the next call |
| `HandlerOutcomes.StreamGoesOn` | learn_grpc/hello_world/src/server/async/event_handler/chat_event_handler.h:202-345 | for the streams, what every further completion leads to, failures included |
| `HandlerOutcomes.ServeStarts` | learn_grpc/hello_world/src/server/async/server_proactor.cpp:38-45 | a served method has its handler waiting for the first call |
| `HandlerOutcomes.StoppedExactly` | learn_grpc/hello_world/src/server/async/server_proactor.h:76-80 | the server is stopped exactly when stop was called |
| `HandlerOutcomes.StopIsFinal` | learn_grpc/hello_world/src/server/async/server_proactor.h:67-70 | after stop no new handler waits for a call |
| `ServerHandlers.NextKeepsInv` | learn_grpc/hello_world/src/server/async/server_proactor.cpp:34-80 | each delivery, start of a queue and stop keeps the accounts of all handlers |
| `ServerProactor.Proactor.constructor` | learn_grpc/hello_world/src/server/async/server_proactor.cpp:7-14 | no handlers and nothing outstanding |
| `ServerProactor.Proactor.RegisterHandler` | learn_grpc/hello_world/src/server/async/server_proactor.h:64-74 | binds the handler to a fresh key and issues RECEIVE for it; nothing after stop; throws exactly when all keys are in use |
| `ServerProactor.Proactor.NewHandler` | learn_grpc/hello_world/src/server/async/event_handler/chat_event_handler.h:91-104 | constructing a handler registers it, as the machine's registration does |
| `ServerProactor.Proactor.ServeMethod` | learn_grpc/hello_world/src/server/async/server_proactor.cpp:38-45 | setting up a method on a queue is the machine's step |
| `ServerProactor.Proactor.RegisterSuccessor` | learn_grpc/hello_world/src/server/async/event_handler/chat_event_handler.h:109-111 | a handler that received a call registers its successor and keeps all other handlers bound |
| `ServerProactor.Proactor.ProcessToken` | learn_grpc/hello_world/src/server/async/server_proactor.cpp:72-73 | the handler of a key reacts and no other handler changes |
| `ServerProactor.Proactor.SettleHandler` | learn_grpc/hello_world/src/server/async/server_proactor.cpp:75-77 | the next operation is issued and a complete handler removed |
| `ServerProactor.Proactor.Dispatch` | learn_grpc/hello_world/src/server/async/server_proactor.cpp:66-77 | one turn of the loop over handler objects takes the machine from its state before to its state after, whatever the completion |
| `ServerProactor.Proactor.Stop` | learn_grpc/hello_world/src/server/async/server_proactor.h:76-80 | the machine's stop |
| `ServerHandlers.EventHandler.ProcessUnary` | learn_grpc/hello_world/src/server/async/event_handler/chat_event_handler.h:38-69 | state, operation and registration are those of the specification for greet |
| `ServerHandlers.EventHandler.ProcessListen` | learn_grpc/hello_world/src/server/async/event_handler/chat_event_handler.h:106-167 | state, operation and registration are those of the specification for listen |
| `ServerHandlers.EventHandler.ProcessSpeak` | learn_grpc/hello_world/src/server/async/event_handler/chat_event_handler.h:202-244 | state, operation and registration are those of the specification for speak |
| `ServerHandlers.EventHandler.ProcessTalk` | learn_grpc/hello_world/src/server/async/event_handler/chat_event_handler.h:279-340 | state, operation and registration are those of the specification for talk, with the WRITE option kept by the Finish after a failed write |
| `ClientCalls.PermitLifecycle` | learn_grpc/hello_world/src/client/async/async_chat_client.cpp:195-291 | over every completion order and every ok flag: at most one write-side operation is outstanding or about to be issued; the permit is free exactly when none is and close did not take it; the loop around release succeeds at once |
| `ClientCalls.CompleteMeansNoMoreEvents` | learn_grpc/hello_world/src/client/async/client_proactor.cpp:37-48 | a complete call has no tag outstanding and nothing can happen to it any more, so its removal loses no event |
| `CallPermits.FirstReleaseSucceeds` | learn_grpc/hello_world/src/client/async/async_chat_client.cpp:204-217 | with the call and the atomic steps of the real semaphore interleaved in any way, no release of a speak or talk call ever finds the semaphore full, and the permit is in it, on its way into it, or taken |
| `CallPermits.RefinesClientCall` | learn_grpc/hello_world/src/client/async/async_chat_client.cpp:195-291 | over the real semaphore the call reaches only states that the machine with the abstract permit reaches |
| `CallPermits.NextKeepsInv` | learn_grpc/hello_world/src/client/async/async_chat_client.cpp:331-441 | each step of call and semaphore together keeps the permit accounted for |
| `ClientCalls.NoTagsMeansCompleteOrUsersTurn` | learn_grpc/hello_world/src/client/async/async_chat_client.cpp:331-441 | a started call without outstanding tags is complete or waits for its user |
| `ClientCalls.NextKeepsInv` | learn_grpc/hello_world/src/client/async/async_chat_client.cpp:93-149 | each start, write, close and completion keeps the accounts of permit, tags and flags, for all three kinds of call |
| `ClientCalls.ClientCall.Complete` | learn_grpc/hello_world/src/client/async/async_chat_client.cpp:408-411 | finish, and for speak and talk also closed |
| `ClientCalls.ClientCall.Start` | learn_grpc/hello_world/src/client/async/async_chat_client.cpp:260-270 | takes the permit, issues START_CALL and, for speak, FINISH, as the machine does |
| `ClientCalls.ClientCall.Send` | learn_grpc/hello_world/src/client/async/async_chat_client.cpp:272-291 | takes the permit and issues WRITE or WRITE_DONE, as the machine does |
| `ClientCalls.CompleteWriteIs` | learn_grpc/hello_world/src/client/async/async_chat_client.cpp:204-234 | a completed write-side tag is the only one outstanding |
| `ClientCalls.CompleteReadIs` | learn_grpc/hello_world/src/client/async/async_chat_client.cpp:354-366 | a completed read-side tag is the only one outstanding |
| `ClientCalls.ClientCall.ProcessListen` | learn_grpc/hello_world/src/client/async/async_chat_client.cpp:93-144 | flags and issued operation are those of the specification |
| `ClientCalls.ClientCall.ProcessSpeak` | learn_grpc/hello_world/src/client/async/async_chat_client.cpp:195-253 | flags, permit and issued operation are those of the specification |
| `ClientCalls.ClientCall.ProcessTalk` | learn_grpc/hello_world/src/client/async/async_chat_client.cpp:331-406 | flags, permit and issued operation are those of the specification |
| `TalkSession.TalkEchoesInOrder` | learn_grpc/hello_world/src/client/async/async_chat_client.cpp:331-441 | with the server handler over FIFO channels, the client has always received a prefix of what it wrote, and all of it once it has processed FINISH |
| `TalkSession.TalkNeverHangs` | learn_grpc/hello_world/src/server/async/event_handler/chat_event_handler.h:279-340 | where neither side can complete an operation, the call is not started, is complete with everything echoed, or the user may write or close |
| `TalkSession.ClosedTalkEnds` | learn_grpc/hello_world/src/client/async/async_chat_client.cpp:331-441 | once close has ended the stream, every run continues for a bounded number of completions, and where it stops the call is complete, the handler is done, and the client has received all it ever wrote |
| `Sessions.CompletionNearer` | learn_grpc/hello_world/src/server/async/event_handler/chat_event_handler.h:279-340 | every completion on either side lowers a measure over messages in flight and outstanding operations; only the user adds work |
| `Sessions.CompletionsAreBounded` | learn_grpc/hello_world/src/server/async/event_handler/chat_event_handler.h:279-340 | a run of completions is at most as long as that measure |
| `TalkSession.ExecInv` | learn_grpc/hello_world/src/server/async/event_handler/chat_event_handler.h:279-340 | in every interleaving what the server heard is what the client received and what is on its way down, and the end of the stream travels after all messages |
| `Sessions.ExecShape` | learn_grpc/hello_world/src/client/async/async_chat_client.cpp:93-441 | in every session of every kind what the client wrote is what the server heard and what is on its way up, and call and handler keep their accounts |
| `ListenSession.ListenDeliversGreetings` | learn_grpc/hello_world/src/server/async/event_handler/chat_event_handler.h:106-167 | a listening client has always received a prefix of the three greetings, and all of them once it has processed FINISH |
| `ListenSession.StartedListenEnds` | learn_grpc/hello_world/src/client/async/async_chat_client.cpp:93-157 | a started listen session runs for a bounded number of completions and stops with the call complete, the handler done and all greetings received |
| `SpeakSession.SpeakIsHeardInOrder` | learn_grpc/hello_world/src/server/async/event_handler/chat_event_handler.h:202-244 | the server has always read a prefix of what the client wrote, and all of it once it issues FINISH |
| `SpeakSession.SpeakNeverHangs` | learn_grpc/hello_world/src/client/async/async_chat_client.cpp:195-291 | where neither side can complete an operation, start has not returned, the call is complete with everything heard, or the user may write or close |
| `SpeakSession.ClosedSpeakEnds` | learn_grpc/hello_world/src/client/async/async_chat_client.cpp:195-291 | once close has ended the stream, every run continues for a bounded number of completions and stops with the call complete and everything heard |
| `ListenSession.ExecInv` | learn_grpc/hello_world/src/server/async/event_handler/chat_event_handler.h:106-167 | in every interleaving what the handler has written is what the client received and what is on its way |
| `SpeakSession.ExecInv` | learn_grpc/hello_world/src/server/async/event_handler/chat_event_handler.h:202-244 | FINISH is issued only when the stream has ended and everything is read, and completes the client only after that |
| `Framer.FramesCutAtDots` | linux_programming/socket/server/use_epoll/edge_triggered/main.cpp:404-413 | frames and residue rejoin to the stream and contain no dot |
| `Framer.CutIsUnique` | linux_programming/socket/server/use_epoll/edge_triggered/main.cpp:404-413 | they are the only such cut: dot-free frames and a dot-free rest are found again |
| `Framer.FirstFrameOut` | linux_programming/socket/server/use_epoll/edge_triggered/main.cpp:407-409 | character by character: a frame comes out as an opening bracket, its characters from last to first, a closing bracket, then the rest |
| `Framer.NoFrameOut` | linux_programming/socket/server/use_epoll/edge_triggered/main.cpp:404-413 | without a dot nothing comes out and all is kept |
| `Framer.TakenIsCapacity` | linux_programming/socket/server/use_epoll/edge_triggered/main.cpp:167-183 | as many bytes go out as the write calls take before one would block, or all of them |
| `Framer.FramesExtend` | linux_programming/socket/server/use_epoll/edge_triggered/main.cpp:403-413 | framing a stream that grows is framing the residue with what was added |
| `Framer.TakeFrames` | linux_programming/socket/server/use_epoll/edge_triggered/main.cpp:404-413 | the loop leaves the residue and appends the bracketed reversals of all frames |
| `Framer.WriteLoop` | linux_programming/socket/server/use_epoll/edge_triggered/main.cpp:162-184 | the bytes taken followed by the rest are the string, and exactly as many are taken as the write calls take, or all |
| `Framer.UnsentIsSuffix` | simple_http/tcp_server/src/socket_handler.cpp:44-73 | what is returned is a suffix of what was given |
| `EpollServer.StreamingFramer` | linux_programming/socket/server/use_epoll/edge_triggered/main.cpp:395-432 | after any run of reads and partial writes bytes sent and output are the bracketed, reversed frames of all bytes received, input is the residue, and both readiness flags are down |
| `EpollServer.MapsAgree` | linux_programming/socket/server/use_epoll/edge_triggered/main.cpp:250-314 | over every run conns is injective, its values are exactly the session ids, and each session's descriptor maps back to it |
| `EpollServer.RunKeepsInv` | linux_programming/socket/server/use_epoll/edge_triggered/main.cpp:294-304 | map agreement and the session invariant hold after every run of accepts and events |
| `EpollServer.EventThrowsExactly` | linux_programming/socket/server/use_epoll/edge_triggered/main.cpp:277-292 | an event throws if and only if its descriptor is unknown, or its mask reports an error together with a write, the peer has closed before or in this read, and the socket takes all output including the frames just read |
| `EpollServer.EventOutcome` | linux_programming/socket/server/use_epoll/edge_triggered/main.cpp:277-292 | an event that does not throw removes its descriptor and session exactly when the mask reports an error or the write drains an ended session; otherwise the session has read and written as the mask says; all other descriptors and sessions are as before |
| `EpollServer.AcceptOutcome` | linux_programming/socket/server/use_epoll/edge_triggered/main.cpp:250-275 | a new connection gets an unused id and an empty session, exactly when its descriptor is unknown; nothing else changes |
| `EpollServer.ErrorMaskWitness` | linux_programming/socket/server/use_epoll/edge_triggered/main.cpp:286-291 | such a mask exists: end of file, nothing to send, and all three bits |
| `EpollServer.Server.ProcessNewConnection` | linux_programming/socket/server/use_epoll/edge_triggered/main.cpp:250-275 | throws exactly for a known descriptor; the id check of NewConnection never does; both maps gain the pair |
| `EpollServer.Server.ProcessEvent` | linux_programming/socket/server/use_epoll/edge_triggered/main.cpp:277-292 | throws, or reaches the state of the specification and keeps the agreement of the maps |
| `EpollServer.Server.OnRead` | linux_programming/socket/server/use_epoll/edge_triggered/main.cpp:483-491 | frames are taken and the readiness is spent, as specified |
| `EpollServer.Server.OnWrite` | linux_programming/socket/server/use_epoll/edge_triggered/main.cpp:493-501 | output is written and a drained, ended session closed, as specified |
| `EpollServer.Server.WriteSession` | linux_programming/socket/server/use_epoll/edge_triggered/main.cpp:419-432 | the unsent suffix stays; the session closes exactly when the peer has closed and nothing is left |
| `EpollServer.Server.Close` | linux_programming/socket/server/use_epoll/edge_triggered/main.cpp:434-443 | removes the pair from both maps, throws exactly for a closed session |
| `EpollServer.Server.ErrorPart` | linux_programming/socket/server/use_epoll/edge_triggered/main.cpp:503-510 | closes the session of a known descriptor, throws exactly for an unknown one |
| `EpollServer.Server.Lookup` | linux_programming/socket/server/use_epoll/edge_triggered/main.cpp:284-290 | the id, with the entry that operator[] inserts for an unknown descriptor |
| `EpollServer.Server.Release` | linux_programming/socket/server/use_epoll/edge_triggered/main.cpp:306-314 | terminates with both maps empty |
| `IocpEcho.EchoExactness` | win32_programming/use_iocp/iocp_demo/iocp.cpp:320-425 | over every sequence of completions, partial and failed ones included: at most one operation outstanding, and none exactly when one has failed; sent ≤ toSend ≤ buffer size; a receive is posted only when everything is echoed; the echo is an in-order prefix short of exactly the part being sent |
| `IocpEcho.FailureStrands` | win32_programming/use_iocp/iocp_demo/iocp.cpp:352-357 | after a failed operation the context stays as it is for ever: nothing is posted and nothing can arrive |
| `IocpEcho.FailedReceiveWitness` | win32_programming/use_iocp/iocp_demo/iocp.cpp:352-357 | the shortest such run: the first receive fails |
| `IocpEcho.NextKeepsInv` | win32_programming/use_iocp/iocp_demo/iocp.cpp:320-425 | each completion keeps the invariant, and leaves no operation exactly when there was none or it failed |
| `IocpEcho.FailedKeepsInv` | win32_programming/use_iocp/iocp_demo/iocp.cpp:352-357 | a failed completion only drops its operation |
| `IocpEcho.SurvivesExactly` | win32_programming/use_iocp/iocp_demo/iocp.cpp:353-424 | a completion removes its context exactly when it did not fail and carries no bytes, or the next call fails |
| `IocpEcho.RunSurvivesExactly` | win32_programming/use_iocp/iocp_demo/iocp.cpp:320-425 | a run keeps its context exactly when each completion that could be reported either failed, or carried bytes and was followed up |
| `IocpEcho.MessageIsSent` | win32_programming/use_iocp/iocp_demo/iocp.cpp:369-386 | a received message of n > 0 bytes is in the buffer and a send of exactly these bytes is posted |
| `IocpEcho.RestIsSent` | win32_programming/use_iocp/iocp_demo/iocp.cpp:387-424 | after a partial send exactly the rest is posted, after the last part the next receive |
| `IocpEcho.MessageIsEchoed` | win32_programming/use_iocp/iocp_demo/iocp.cpp:369-424 | a message sent in any positive parts that add up to it ends fully echoed, in order, with the next receive posted |
| `IocpEcho.SendsAreRun` | win32_programming/use_iocp/iocp_demo/iocp.cpp:387-424 | such sends continue the run before them |
| `IocpEcho.RunKeepsInv` | win32_programming/use_iocp/iocp_demo/iocp.cpp:320-425 | the context invariant holds after every run, with an operation outstanding unless one has failed |
| `IocpEcho.ReceivedKeepsInv` | win32_programming/use_iocp/iocp_demo/iocp.cpp:369-386 | a completed receive starts a send of exactly the bytes received |
| `IocpEcho.SentKeepsInv` | win32_programming/use_iocp/iocp_demo/iocp.cpp:387-424 | a completed send goes on with the rest, or posts the next receive once all is sent |
| `IocpEcho.ClientContext.constructor` | win32_programming/use_iocp/iocp_demo/client_context.h:33-42 | a context with no operation and a zeroed buffer of the configured size |
| `IocpEcho.ClientContext.PostFirstReceive` | win32_programming/use_iocp/iocp_demo/iocp.cpp:180-186 | the first receive into the whole buffer establishes the invariant |
| `IocpEcho.ClientContext.React` | win32_programming/use_iocp/iocp_demo/iocp.cpp:361-424 | counters, option and posted operation are those of the specification; the context is dropped exactly when it says so |
| `IocpEcho.ClientContext.Complete` | win32_programming/use_iocp/iocp_demo/iocp.cpp:320-425 | one completion on the shared buffer, failed or not, reaches the specified state and keeps the invariant |
| `IocpEcho.FreeId` | win32_programming/use_iocp/iocp_demo/iocp.cpp:119-126 | the first id from the counter on, modulo 2^32, that is neither in use nor reserved; none exactly when every id is taken, where the search goes round for ever |
| `Bezier.CalcIsBernsteinSum` | curve/core/bezier_curve.h:14-34 | for every order, control points and parameter, calc is the sum of C(n,i) (1−t)^(n−i) t^i P_i |
| `Bezier.ChooseIsQuotient` | curve/core/bezier_curve.h:14-34 | the coefficients of that sum are the quotients n! / (k! (n−k)!) |
| `Bezier.CalcReversed` | curve/core/bezier_curve.h:14-34 | reversing the control points replaces t by 1−t |
| `Bezier.CalcEnds` | curve/core/bezier_curve.h:14-34 | the curve starts at the first and ends at the last control point |
| `Bezier.CalcStaysInBox` | curve/core/bezier_curve.h:14-34 | for 0 ≤ t ≤ 1 the curve stays within any box around its control points |
| `Geodetic.ConversionsAreInverse` | geodetic/main.cpp:66-116 | ecef_to_enu and enu_to_ecef are mutual inverses, both directions, for every reference point |
| `Geodetic.ReadingLeadsBack` | geodetic/main.cpp:83-116 | the ENU reading of one geodetic position from another leads back to it, and is as long as their distance |
| `Geodetic.EastIsLongitude` | geodetic/main.cpp:74 | the east reading is the distance from the axis times the sine of the difference of the longitudes |
| `Geodetic.NorthIsAxis` | geodetic/main.cpp:75-80 | a step along the axis reads as north by the cosine and up by the sine of the latitude |
| `Geodetic.AnglesAreDirections` | geodetic/main.cpp:43-50 | the longitude is the angle from X to Y, and the sign of the latitude decides the side of the equator |
| `Geodetic.DistanceIsPreserved` | geodetic/main.cpp:66-81 | the distance of any two points is the same in both systems |
| `Geodetic.ReadingsSubtract` | geodetic/main.cpp:66-81 | the difference of two readings is the reading of one point from the other |
| `Geodetic.NormalRadiusIs` | geodetic/main.cpp:20-23 | N satisfies N² (1 − e² sin²) = a² |
| `Geodetic.NormalReachesAxis` | geodetic/main.cpp:20-50 | N is the distance from the surface to the Z axis along the normal |
| `Geodetic.ZeroHeightIsOnEllipsoid` | geodetic/main.cpp:43-50 | every point of height zero lands on the ellipsoid |
| `Geodetic.RaisingMovesUp` | geodetic/main.cpp:83-100 | raising the reference point by d gives ENU (0, 0, d) |
| `Geodetic.EllipsoidIsBelowHorizon` | geodetic/main.cpp:66-81 | seen from a point on the ellipsoid, no point of the ellipsoid has a positive up coordinate |
| `Geodetic.HeightIsDistance` | geodetic/main.cpp:43-50 | for every height from −(1 − e²) N on, negative ones included, a point is at that distance from its foot and no point of the ellipsoid is nearer |
| `Geodetic.HeightIsDistanceExactly` | geodetic/main.cpp:43-50 | the height is the distance to the ellipsoid if and only if it is at least −(1 − e²) N, that is, the point has not crossed the equatorial plane |
| `Geodetic.SomePointIsNearer` | geodetic/main.cpp:43-50 | below that, a nearer point of the ellipsoid is constructed, off the equator and on it |
| `SemaphoreTest.ExecTestInv` | thread/semaphore/main.cpp:26-107 | those accounts hold in every reachable state of the stress program |
| `WorkQueueRuns.ShutdownIsBounded` | simple_http/tcp_server/src/connection.cpp:490-527 | after Close the number of steps is at most the initial measure less the final one, and the invariants persist |
| `Connections.Connection.Close` | simple_http/tcp_server/src/connection.cpp:171-180 | closes the socket, erases exactly this connection from the map and marks it closed; a second close finds it erased but closes the socket again |
| `Connections.Connection.SetResponse` | simple_http/tcp_server/src/connection.cpp:139-142 | appends the content to the response |
| `ConnectionManager.Manager.constructor` | simple_http/tcp_server/src/connection.cpp:294-300 | empty queues and cache, events unset |
| `ConnectionManager.Manager.WriteFetched` | simple_http/tcp_server/src/connection.cpp:505-507 | fetching and writing move the cached content behind the response and send its prefix, other connections unchanged |
| `ConnectionManager.Manager.GiveBackWrite` | simple_http/tcp_server/src/connection.cpp:509-511 | enqueues the connection exactly while content is pending, else clears the flag; throws exactly without it |
| `HttpRequest.FailureStays` | simple_http/http_server/src/http_request.cpp:96-103 | a client that stops feeding at the first exception ends with what the pieces up to it left |
| `HttpParser.AppendAfterBadLength` | simple_http/http_server/src/http_request.cpp:35-79 | after stoi threw, the next Append completes the request with length zero and takes all that is left as its body |
| `HttpParser.AppendAfterBadLine` | simple_http/http_server/src/http_request.cpp:24-62 | after a header line without separator, every further Append throws again and only grows the buffer |
| `HttpParser.AppendTakesBadLine` | simple_http/http_server/src/http_request.cpp:9-33 | unless the first line was empty: then the bad line becomes the first line |
| `Events.EventHandlerManager.constructor` | learn_grpc/hello_world/src/lib/event/event_handler_manager.h:17-19 | no handlers, last key zero |
| `ServerHandlers.ExecInv` | learn_grpc/hello_world/src/server/async/server_proactor.cpp:34-80 | the accounts of all handlers hold after every sequence of completions |
| `ServerHandlers.EventHandler.constructor` | learn_grpc/hello_world/src/server/async/event_handler/chat_event_handler.h:97-102 | the fields of a new handler, before it registers itself |
| `ServerHandlers.EventHandler.Process` | learn_grpc/hello_world/src/server/async/server_proactor.cpp:72-73 | the reaction of the handler's own kind |
| `ClientCalls.ExecInv` | learn_grpc/hello_world/src/client/async/async_chat_client.cpp:331-441 | the accounts of permit, tags and flags hold in every run of every kind of call |
| `ClientCalls.ClientCall.constructor` | learn_grpc/hello_world/src/client/async/async_chat_client.cpp:325-329 | a call with one permit and nothing outstanding |
| `ClientCalls.ClientCall.ReleaseUntilDone` | learn_grpc/hello_world/src/client/async/async_chat_client.cpp:350-351 | returns the permit, or records that the loop would spin |
| `EpollServer.ConnsInjective` | linux_programming/socket/server/use_epoll/edge_triggered/main.cpp:250-275 | two descriptors never share an id |
| `EpollServer.Server.constructor` | linux_programming/socket/server/use_epoll/edge_triggered/main.cpp:323-324 | both maps empty |
| `EpollServer.Server.ReadPart` | linux_programming/socket/server/use_epoll/edge_triggered/main.cpp:283-285 | the read of a mask keeps the agreement of the maps and the descriptor known |
| `EpollServer.Server.WritePart` | linux_programming/socket/server/use_epoll/edge_triggered/main.cpp:286-288 | the write of a mask keeps the agreement of the maps |
| `IocpEcho.ClientContext.ReceiveInto` | win32_programming/use_iocp/iocp_demo/iocp.cpp:412-414 | fills the given part of the shared buffer and no other |

## Left out

- Sockets, epoll, completion ports and gRPC themselves: their answers are the choices of a step. gRPC is assumed to deliver each issued token once and, for the talk session, to carry messages in order.
- Semaphore, WorkQueue, ServerHandlers, ClientCalls and Sessions describe concurrency on values with sequentially consistent atomics; weaker memory orders and object lifetimes are not modelled. The semaphore has no class form, because its operations have meaning only under interference.
- WorkQueue: the read and the write half run as two instances of one machine; what one half does to the other (a close, a new response) is a step of the environment. A worker that is woken and finds the event unset goes on sleeping, which is not a separate step.
- WorkQueue: an exception out of a socket call or request handler ends the run; that a connection is closed exactly once, and that the rest of a partial write is eventually sent, do not hold and are not claimed. Connection ids are not reused.
- Connections.Connection.Close: the epoll entry and the descriptor that each socket close removes; only how often the socket is closed is stated.
- Connections.Connection.Read: what the request handler makes of the calls it gets is its own; its answers are parameters.
- ConnectionManager.Manager.WriteTurn, and ReadTurn: what other threads do during a turn is applied at one point, before the recheck; interference between all steps is the subject of WorkQueue.
- SemaphoreTest.NoAcquirerSleepsForever: fairness of the scheduler is not modelled, so it states that a releaser can act, not that it is scheduled. Without releasers acquirers may sleep for ever.
- HttpParser: `std::stoi` is any partial function to integers; body bytes beyond the declared length and `Reset` are not compared.
- Events: the mutex around the handler map, `count`, `clear` and `getKeys`.
- ServerHandlers: the texts of the hello and goodbye replies, the exit of the loop when a poll times out without handlers, and what the program does after the exception of a full key space. After a failed write of a talk handler nothing is claimed about the order of messages.
- CallPermits: users get a call when its start() has returned, so nobody takes the permit between StartCall and Finish of a speak call.
- ClientCalls: the unary greet call, and the exception for a token with the wrong key, which the proactor never passes on.
- Sessions: operations that fail other than reads at the end of the stream.
- EpollServer: a read is "some bytes delivered"; the C-string conversion of the read buffer is not modelled. `nextConnId` does not wrap around. Failing system calls end the run.
- IocpEcho: the shutdown of the server and the registry of contexts beyond the id search.
- Bezier and Geodetic compute over real numbers: rounding is not modelled, and sine, cosine and square root are parameters known by their identities.
- The shared-pointer class, the malloc wrapper, the language-feature demos, the UDP samples, logging and configuration.
