# Verified models of winasync

winasync is a set of callback-driven programs over Windows I/O completion ports: a TCP proxy, a TCP
receiver that writes rotating files, a load generator, and the asynchronous socket and address classes
under them. This project models their protocols in Dafny and proves what they keep over every run.

The histories that theorems speak of are tied to the completions alone: `DeliveryFollowsTheCompletions`,
`FilesFollowTheCompletions`, `SessionsFollowTheCompletions` and `CallbacksTellTheTruth` compute them from the
events of a run, without the handlers.

Each component has a specification module, in which every handler is a function on a state and every
completion the OS can deliver is an event, and a module of lemmas about all its runs. The components
that update objects in place also have classes with those fields; every method is tied to its handler,
and `Drive` takes the objects through any schedule of completions.

| component | specification | objects | theorems |
|---|---|---|---|
| proxy connection (`net/tcp/proxy.cpp`) | ProxySpec.dfy | Proxy.dfy | ProxyRuns.dfy, ProxyStreams.dfy, CloseRace.dfy, ProxySockets.dfy |
| receiver connection (`net/tcp/receiver.cpp`) | ReceiverSpec.dfy | Receiver.dfy | ReceiverRuns.dfy, ReceiverStreams.dfy, FileLock.dfy, ReceiverThreads.dfy, FileNames.dfy |
| asynchronous socket (`net/async/stream/socket.cpp`) | SocketLifetime.dfy, AsyncSocketSpec.dfy | AsyncSocket.dfy | AsyncSocketRuns.dfy |
| load generator (`test-connector.cpp`) | LoadGeneratorSpec.dfy | LoadGenerator.dfy | LoadGeneratorRuns.dfy |
| number parsers (`test-connector.cpp`, `net/socket/address.cpp`) | NumberParsing.dfy | NumberParsing.dfy | NumberParsing.dfy |
| address text form (`net/socket/address.cpp`) | SocketAddress.dfy | SocketAddress.dfy | SocketAddress.dfy |

## Granularity

Protocol properties are stated at handler granularity: a handler is one step, an operation it starts
becomes outstanding, and the completion is a later step even where the OS would answer at once. The lock
properties (CloseRace, FileLock, ReceiverThreads) are stated at the granularity of single memory operations,
for any number of threads and any interleaving; `CloseRace.CloseBothAlone` and the
`Alone` lemmas of FileLock link the two views. The
asynchronous socket is modelled call by call, with answers on the spot and queued completions told apart;
`AsyncSocketRuns.SpotIsPendingThenDone` shows the two to leave the socket alike, and ProxySockets runs the
proxy on it: every step of the slot is a completion and calls that the sockets allow.

What the handler view hides: sockets are set to complete without a queued packet where they can
(net/async/stream/socket.cpp:530-534), so completions inside a call are ordinary, and handlers of one
connection overlap. In the receiver a receive that completes while the handler of the one before still holds
the connection lock finds it taken, and its data is dropped; the theorems `SingleChain` and `StoredIsReceived`
do not speak of such runs. `ReceiverThreads.DroppedExactlyUnderTheLock` gives the exact condition and
`FastReceiveIsDropped` the run, in which nothing fails and only the connection timer can end the connection.

## Assumptions about the environment

The first five are in the `Enabled` predicates of the specifications.

- A transferred count never exceeds the requested length.
- An operation is reported as aborted only after a cancel. An operation that was cancelled is never
  reported as successful.
- The disconnect of a socket completes after the receives and sends outstanding on it.
- A buffer handed to a receive may hold anything until that receive completes (`OsFills`).
- A timer fires once, no earlier than it was armed for. The clock is monotone and does not advance inside
  a handler, so the time stamp of a file is taken at the instant its timer is armed.
- `inet_pton` undoes `inet_ntop`, and IPv6 text is not IPv4 text (`SocketAddress.Faithful`).
- At the start no file of an earlier process has a name this process will use.

## Hypotheses the code relies on

Three properties need a hypothesis that the code does not establish. Each is stated as a predicate on a
step, is proved to be exactly what is needed, and comes with the run that breaks the property without it.

- Proxy: the timer armed for the client's connect does not fire while the connect is outstanding
  (`ProxySpec.Timely`). `TimerIsSafeExactlyWithoutAConnect` proves the guard exact: otherwise the slot
  accepts again with the connect in flight, and the next connect overwrites a live socket
  (`UntimelyTimerLeaksASocket`).
- Receiver: the connection timer, which stays armed after a receive completes, does not fire while the
  file write is outstanding; and a cancelled receive is reported as aborted and not as another error
  (`ReceiverSpec.Orderly`). `OrderlyExactlyKeepsTheChain` proves both exact;
  `TimerDuringWriteSplitsTheChain` and `FailedCancelAcceptsTwice` are the runs.

At handler granularity no other closer can interfere with a connect: `TimerBelongsToTheSession` proves that
a timer never outlives its session.

The asynchronous socket asks two things of its callers, which it does not test (`AsyncSocketRuns.Enabled`):
that no OVERLAPPED structure is used again while it is queued, and that an operation is started through an
I/O object that exists, for an accept the listener's. The theorems about callbacks, notifications and flags
hold under these alone. That no live handle is overwritten is a third demand, and only for the sockets
themselves: `SoundExactlyWhenFresh` proves them kept if and only if it is met. `ProxySockets.StepIsAllowed`
proves that the proxy meets all three at every step, so nothing is issued twice.

Six smaller findings, each with its exact condition:

- The overflow test of `configuration::parse` is right exactly for limits with 9 * max + 9 < 2^64
  (`ParseIsExactlyRight`); all call sites are below.
- An address string that builds round-trips exactly when it is not empty (`TextRoundTrip`).
- A failed connect in the load generator has no handler: once nothing can complete any more, the stop event
  has been set exactly when no connect failed (`EndsExactlyWithoutFailedConnects`).
- `cancel` names the handle an operation was started on exactly when it is not an accept
  (`CancelFindsTheOperation`, `CancelMissesAnAccept`).
- The buffers for file paths keep the paths of some connections and files apart exactly when the longest
  stem fits (`DistinctExactlyWhenTheStemsFit`). `create` accepts directory names of 259 characters; with 251
  already the first connection's first two files share a path (`FirstTwoFiles`).
- A receive's data is dropped exactly when it completes under the connection lock
  (`DroppedExactlyUnderTheLock`).

## Model

| member | source | states |
|---|---|---|
| SocketLifetime.InitNeedsNoHandle | net/async/stream/socket.cpp:518-564 | whatever the OS answers, `init` keeps one live socket per object exactly when it is entered without a handle |
| SocketLifetime.InitTells | net/async/stream/socket.cpp:518-564 | handle and I/O object come out of `init` exactly when it succeeds, and every handle the OS gave is closed again unless it does |
| ProxyRuns.StreamRefinement | net/tcp/proxy.cpp:314-352 | in every reachable state, in each direction, bytes handed over followed by bytes still owed from the view are the bytes received; delivery is an in-order prefix |
| ProxyRuns.ReceiveRelays | net/tcp/proxy.cpp:534-554 | a receive with data turns the buffer into the other half's view, in either direction, and leaves one operation in that direction |
| ProxyRuns.PartialSendRelays | net/tcp/proxy.cpp:561-566 | a partial send shrinks the view by exactly what was handed over and loses nothing |
| ProxyRuns.FullSendRelays | net/tcp/proxy.cpp:339-352 | handing over the last of the view leaves nothing owed and gives the buffer back to a receive |
| ProxyRuns.BufferOwnership | net/tcp/proxy.cpp:442-456 | with both halves open each direction has exactly one operation; a buffer being received into owes nothing; a send reads inside the other half's buffer |
| ProxyRuns.EndOfStreamComesLast | net/tcp/proxy.cpp:333-337 | a zero-byte receive finds everything earlier from that side handed over in full, and closes both halves |
| ProxyRuns.StreamsOnlyGrow | net/tcp/proxy.cpp:219-281 | no completion takes back a byte received or delivered within a session; a new session starts both streams afresh |
| ProxyRuns.SessionAccounting | net/tcp/proxy.cpp:164-217 | outside an accept the counter is open halves plus disconnects outstanding and positive; an accept is outstanding exactly when there is no session; accepts count sessions and refusals |
| ProxyRuns.TimerBelongsToTheSession | net/tcp/proxy.cpp:305-312 | a connect outstanding always has the timer armed, and an armed timer always belongs to a session still open |
| ProxyRuns.LastDisconnectAccepts | net/tcp/proxy.cpp:211-217 | a disconnect re-issues the accept exactly when it is the last of its session, and the counter never wraps |
| ProxyRuns.TeardownEnds | net/tcp/proxy.cpp:568-572 | once both halves are closed every completion leaves fewer operations, some completion is always possible, and the accept comes back after at most six |
| ProxyRuns.SocketsNeverLeak | net/tcp/proxy.cpp:120-128 | over any number of sessions each half has at most one live socket, with its I/O object, and closes it once before making the next |
| ProxyRuns.ReachableIsClosed | net/tcp/proxy.cpp:458-520 | the reachable states are closed under timely completions, so the theorems about them cover runs of any length |
| ProxyRuns.TimerIsSafeExactlyWithoutAConnect | net/tcp/proxy.cpp:354-364 | all timely futures of a timer firing keep one accept or one session and lose no socket if and only if no connect is outstanding |
| ProxyRuns.UntimelyTimerLeaksASocket | net/tcp/proxy.cpp:305-312 | the concrete run in which the timer closes the server half during the connect and the next session overwrites the client's live socket |
| ProxyStreams.DeliveryFollowsTheCompletions | net/tcp/proxy.cpp:314-352 | from the completions alone: what is handed over on the far socket in a session is the first n bytes of the near buffer at each receive of n, cut after as many bytes as the OS reported taken; the view holds the rest |
| ProxyStreams.ReceiveHandsOver | net/tcp/proxy.cpp:534-554 | a receive of n bytes, on either half, gives exactly the first n bytes of its buffer to the other half and arms the timer |
| ProxyStreams.TimerFollowsTheCompletions | net/tcp/proxy.cpp:151-162 | whether the timer runs after each completion: started by a session, by data and by the rest of a partial send on the server half, left alone by one on the client half, stopped by everything else |
| ProxyStreams.SessionPhases | net/tcp/proxy.cpp:130-140 | the halves open are none, the server's while the client's connects, or both with the counter at two |
| ProxyStreams.ClosedIsCut | net/tcp/proxy.cpp:199-204 | what is outstanding on a closed half is cancelled, and it has a handle exactly while its disconnect is outstanding |
| ProxyStreams.EveryEndClosesBoth | net/tcp/proxy.cpp:234-281 | the end of either stream, an error on either half and the timer all cut off and disconnect both halves and stop the timer |
| ProxyStreams.AcceptLeadsOn | net/tcp/proxy.cpp:283-312 | an accept that succeeds connects the client half, one that fails accepts again on a new socket |
| ProxyStreams.ConnectLeadsOn | net/tcp/proxy.cpp:522-532 | a connect that succeeds receives on both halves, one that fails closes the server half alone |
| Proxy.Server.Accept | net/tcp/proxy.cpp:120-128 | issues the accept on a new socket |
| Proxy.Server.Connected | net/tcp/proxy.cpp:130-140 | counts two connections and starts a receive on each half |
| Proxy.Server.Send | net/tcp/proxy.cpp:151-162 | keeps the view, arms the timer, starts the send |
| Proxy.Server.Close | net/tcp/proxy.cpp:177-209 | closes the half at most once, cancelling what is outstanding, with the lock free again on both paths |
| Proxy.Server.CloseConnections | net/tcp/proxy.cpp:164-175 | closes the client half, then the server half |
| Proxy.Server.Disconnected | net/tcp/proxy.cpp:211-217 | counts down with 32-bit wrap-around and accepts at zero |
| Proxy.Server.Accepted | net/tcp/proxy.cpp:283-303 | opens a session: counter one, half open, timer armed, connect started |
| Proxy.Server.Received | net/tcp/proxy.cpp:314-337 | passes the bytes in the receive buffer to the client, or closes on none |
| Proxy.Server.Sent | net/tcp/proxy.cpp:339-352 | sends the rest of the view, or stops the timer and lets the client receive |
| Proxy.Client.Close | net/tcp/proxy.cpp:414-440 | closes the half at most once |
| Proxy.Client.Connected | net/tcp/proxy.cpp:522-532 | opens the half and starts the relaying |
| Proxy.Client.Received | net/tcp/proxy.cpp:534-554 | passes the bytes in the receive buffer to the server, or closes on none |
| Proxy.Client.Sent | net/tcp/proxy.cpp:556-566 | sends the rest of the view, or lets the server receive |
| Proxy.Connection.Dispatch | net/tcp/proxy.cpp:219-281 | every completion, on both halves, takes the objects through exactly the step of the specification |
| Proxy.Connection.Drive | net/tcp/proxy.cpp:458-520 | the objects run any timely schedule of completions and keep the invariant of all the theorems |
| CloseRace.MutualExclusion | net/tcp/proxy.cpp:177-209 | for any threads and interleaving the lock word is the number of threads inside, and that is at most one |
| CloseRace.OneDisconnectPerOpening | net/tcp/proxy.cpp:414-440 | disconnects issued or owed, plus one while open, are exactly the times `open` went from false to true, although it is set without the lock |
| CloseRace.HolderReleases | net/tcp/proxy.cpp:179-187 | a taken lock has a holder that can go on, at most three moves from releasing it, which nobody else sets back |
| CloseRace.NeverDeadlocks | net/tcp/proxy.cpp:193-197 | as long as any thread has not ended some thread goes on, though `stop_timer` waits for callbacks that spin for the same locks |
| CloseRace.WorkDecreases | net/tcp/proxy.cpp:164-209 | every operation of a thread brings it closer to its end, except a spin, which changes nothing |
| CloseRace.CloseAlone | net/tcp/proxy.cpp:177-209 | one half's gate after an uninterrupted `close`: closed, unlocked, one disconnect if it was open |
| CloseRace.CloseBothAlone | net/tcp/proxy.cpp:164-175 | `close_connections` uninterrupted, by a handler or by the timer's callback, leaves both halves closed and unlocked, each disconnected once if it was open, the timer stopped by a handler if the server half was open, and nobody else touched |
| CloseRace.CloseServerAlone | net/tcp/proxy.cpp:177-209 | `close` of the server half uninterrupted does the same to it and leaves the client half alone |
| CloseRace.JobsBegin | net/tcp/proxy.cpp:354-364 | where the two closes and the timer's callback begin |
| CloseRace.StoppingStops | net/tcp/proxy.cpp:371-374 | stopping the timer disarms it, and ends only when none of its callbacks runs |
| ProxySockets.StepIsAllowed | net/tcp/proxy.cpp:219-281 | from sockets that mirror the slot, the completion and every call of a timely step meet all the socket's demands, and the sockets mirror the slot again |
| ProxySockets.SlotsRunOnSockets | net/tcp/proxy.cpp:458-520 | every reachable slot is mirrored by sockets reached by allowed calls alone, all of them sound, so the socket theorems hold of the proxy |
| ProxySockets.CancelsReach | net/tcp/proxy.cpp:199-204 | the cancels made on closing reach exactly the receive and send the slot takes to be outstanding, on the handle they were started on |
| AsyncSocketRuns.OneCallbackPerOperation | net/async/stream/socket.cpp:661-776 | over any sockets and interleaving, every operation issued is called back exactly once, under its own name, unless it is still queued |
| AsyncSocketRuns.CallbacksTellTheTruth | net/async/stream/socket.cpp:661-776 | over any run the callbacks are exactly the OS's answers, each for the operation it answers and with the success the OS gave it |
| AsyncSocketRuns.ConnectTells | net/async/stream/socket.cpp:273-341 | a connect called back on the spot reports success exactly when it has a live handle, which is when every step succeeded |
| AsyncSocketRuns.AcceptTells | net/async/stream/socket.cpp:174-235 | the same for an accept |
| AsyncSocketRuns.LeaveTells | net/async/stream/socket.cpp:411-444 | a disconnect called back on the spot reports the OS's answer, and has closed the socket either way |
| AsyncSocketRuns.TransferTells | net/async/stream/socket.cpp:343-409 | a receive or send called back on the spot reports the OS's answer and leaves the handle alone |
| AsyncSocketRuns.FinishTells | net/async/stream/socket.cpp:661-776 | a completion reports the OS's answer, and closes the socket after a disconnect or a failed accept or connect |
| AsyncSocketRuns.ListenTells | net/async/stream/socket.cpp:136-172 | a socket that listens keeps its handle, and one that fails to has none |
| AsyncSocketRuns.NotificationsBalance | net/async/stream/socket.cpp:273-516 | on every socket StartThreadpoolIo calls are CancelThreadpoolIo calls plus completions delivered plus operations outstanding through it |
| AsyncSocketRuns.SoundExactlyWhenFresh | net/async/stream/socket.cpp:518-575 | a call or completion keeps every socket sound if and only if it creates none over a live handle |
| AsyncSocketRuns.SpotIsPendingThenDone | net/async/stream/socket.cpp:343-444 | an answer on the spot leaves the socket as a completion would, with the same callback |
| AsyncSocketRuns.CancelFindsTheOperation | net/async/stream/socket.cpp:475-516 | the pending flags agree with what is outstanding; CancelIoEx names the handle the operation was started on exactly when it is not an accept |
| AsyncSocketRuns.CancelMissesAnAccept | net/async/stream/socket.cpp:494-500 | two calls lead to a pending accept whose cancel names the accepted socket's handle and not the listener's |
| AsyncSocketRuns.TransferEffect | net/async/stream/socket.cpp:343-409 | a receive or send either makes its one callback or raises its own flag, and balances its notification |
| AsyncSocketRuns.LeaveEffect | net/async/stream/socket.cpp:411-444 | a disconnect either makes its one callback or raises its own flag, and balances its notification |
| AsyncSocketRuns.ConnectEffect | net/async/stream/socket.cpp:273-341 | through every failure of a connect one callback or one flag results, and the notification balances |
| AsyncSocketRuns.AcceptEffect | net/async/stream/socket.cpp:174-235 | the same for the accepted socket, whose notification is the listener's |
| AsyncSocket.Socket.Init | net/async/stream/socket.cpp:518-564 | the effect on handle and I/O object of each way `init` can end |
| AsyncSocket.Socket.Listen | net/async/stream/socket.cpp:136-172 | a listener that fails is closed again |
| AsyncSocket.Socket.Accept | net/async/stream/socket.cpp:174-235 | state of listener and target, and the callback made on the spot |
| AsyncSocket.Socket.Connect | net/async/stream/socket.cpp:273-341 | state and callback of a connect, failures of init and bind included |
| AsyncSocket.Socket.Disconnect | net/async/stream/socket.cpp:411-444 | state and callback of a disconnect |
| AsyncSocket.Socket.Cancel | net/async/stream/socket.cpp:475-516 | CancelIoEx is called exactly for a valid handle with that operation pending |
| AsyncSocket.Socket.IoCompletionCallback | net/async/stream/socket.cpp:661-776 | the completion is dispatched on the stored operation, clears its flag and closes the socket where the source does |
| AsyncSocket.Drive | net/async/stream/socket.cpp:661-776 | any number of socket objects go through any schedule of calls and completions as the specification says |
| ReceiverRuns.RotationConservesBytes | net/tcp/receiver.cpp:136-202 | through size, age and timer rotation, failed writes, opens and moves, the files in number order hold exactly the bytes stored; closed files are in the final directory unless their move failed |
| ReceiverRuns.FilesOnlyGrow | net/tcp/receiver.cpp:223-250 | no step takes a byte out of any file or replaces a moved one, so only empty files are deleted |
| ReceiverRuns.SingleChain | net/tcp/receiver.cpp:252-328 | one accept, receive, write or disconnect outstanding, apart from a cancelled receive; a receive always has its timer; the buffer is never received into while it is written; the file lock is held exactly during a write |
| ReceiverRuns.StoredIsReceived | net/tcp/receiver.cpp:347-421 | across all sessions, stored plus in flight is received if and only if no write was short or failed and no open failed |
| ReceiverRuns.FileSizeBound | net/tcp/receiver.cpp:378-411 | an open file is smaller than the limit, any file smaller than the limit plus one buffer, the size kept is the size on disk, and its sum never wraps |
| ReceiverRuns.NoForgottenFile | net/tcp/receiver.cpp:470-490 | an open file has its timer armed, or is past its age with a write outstanding whose completion, whatever it is, closes it |
| ReceiverRuns.OldInSeconds | net/tcp/receiver.cpp:399-402 | a timer deadline in microseconds that has passed is an age limit in seconds that has passed |
| ReceiverRuns.OrderlyExactlyKeepsTheChain | net/tcp/receiver.cpp:451-468 | all orderly futures of a step keep the single chain if and only if the step is not the connection timer during a write, nor a cancelled receive failing with another error |
| ReceiverRuns.TimerDuringWriteSplitsTheChain | net/tcp/receiver.cpp:204-221 | the concrete run in which the late receive fails, disconnects again, and the slot accepts twice at once |
| ReceiverRuns.FailedCancelAcceptsTwice | net/tcp/receiver.cpp:292-299 | the concrete run in which a cancelled receive fails by itself and two accepts are outstanding on one socket |
| ReceiverStreams.FilesFollowTheCompletions | net/tcp/receiver.cpp:136-202 | from the completions alone: the files in number order hold the first n bytes of the buffer at each write of n, which, with the chunk in flight, is the first n bytes at each receive of n if nothing was dropped |
| ReceiverStreams.WriteLeaves | net/tcp/receiver.cpp:378-415 | a write leaves its file open exactly while it is below the size and the age limit; else the file is closed and, if the move succeeds, in the final directory and not in the temporary one |
| ReceiverStreams.FailureLeaves | net/tcp/receiver.cpp:223-250 | a failed write closes its file and moves it, or deletes it if and only if it is empty |
| ReceiverStreams.TimerLeaves | net/tcp/receiver.cpp:470-490 | the file timer closes and moves the file if the lock is free, and does nothing otherwise |
| ReceiverStreams.ClosedFilesMoveAway | net/tcp/receiver.cpp:423-449 | over any run in which every move succeeds, no file but the open one is left in the temporary directory |
| ReceiverStreams.OpenTakesTheNextNumber | net/tcp/receiver.cpp:136-168 | data received with no file open takes exactly the next number, whether the open succeeds or not; a new file is empty, stamped and timed from now |
| ReceiverStreams.ChainLeadsOn | net/tcp/receiver.cpp:252-328 | which operation each completion leads to: accept, receive, write of all the bytes, receive again; and a disconnect after the end of the stream, every error, a failed open or write and the timer |
| ReceiverStreams.FileTimerHasAFile | net/tcp/receiver.cpp:193-202 | the file timer is armed only for an open file, for the moment it reaches its age |
| Receiver.Connection.OpenFile | net/tcp/receiver.cpp:136-168 | takes the next number and, if the file opens, resets size, timer and time stamp |
| Receiver.Connection.WriteFile | net/tcp/receiver.cpp:170-191 | locks, opens the file if need be, and starts the write, or unlocks and closes the connection |
| Receiver.Connection.OnReceive | net/tcp/receiver.cpp:259-268 | takes the data under the connection lock, and drops it if the lock is taken |
| Receiver.Connection.CloseConnection | net/tcp/receiver.cpp:204-221 | cancels the receive and disconnects |
| Receiver.Connection.ErrorWritingFile | net/tcp/receiver.cpp:223-250 | closes the file, moves it or deletes it if empty, unlocks, closes the connection |
| Receiver.Connection.Written | net/tcp/receiver.cpp:378-415 | counts what was written, rotates a file too big or too old, unlocks, receives again |
| Receiver.Connection.MoveFile | net/tcp/receiver.cpp:423-449 | moves the file of the current number, replacing one of that name |
| Receiver.Connection.OnFileTimer | net/tcp/receiver.cpp:470-490 | closes and moves the file if the lock is free, and otherwise does nothing |
| Receiver.Connection.OnConnectionTimer | net/tcp/receiver.cpp:451-468 | closes the connection under the connection lock, and does nothing if the lock is taken |
| Receiver.Connection.Dispatch | net/tcp/receiver.cpp:252-328 | every completion and timer takes the object through exactly the step of the specification |
| Receiver.Connection.Drive | net/tcp/receiver.cpp:252-328 | the object runs any orderly schedule and keeps the invariant of all the theorems |
| FileLock.TimerNeverTouchesAWrite | net/tcp/receiver.cpp:470-490 | under any interleaving the lock word counts its holders, at most one, and no callback closes or moves a file with a write outstanding |
| FileLock.TryLockFindsAnOpenFile | net/tcp/receiver.cpp:473-485 | whenever a timer callback's try-lock succeeds the file is open |
| FileLock.CancelNeverDeadlocks | util/timer.cpp:40-49 | a handler that waits for the timer while holding the lock is waited for by nobody: running callbacks are done after one step each, none can start, and then the wait ends |
| FileLock.SpinningEnds | net/tcp/receiver.cpp:172-173 | a spinning `write_file` waits for a callback at most three steps from releasing the lock |
| FileLock.WriteFileAlone | net/tcp/receiver.cpp:170-191 | `write_file` uninterrupted leaves the lock taken, the file open and a write outstanding, or gives the lock back |
| FileLock.WrittenAlone | net/tcp/receiver.cpp:378-415 | the completion of the write uninterrupted gives the lock back, the file closed and its timer disarmed if it is to be closed |
| FileLock.CallbackAlone | net/tcp/receiver.cpp:470-490 | `file_timer` uninterrupted leaves the file closed and the lock free, or everything alone if the lock is taken |
| ReceiverThreads.LocksExclude | net/tcp/receiver.cpp:257-268 | with any number of handlers and callbacks at once, each lock word counts its holders, a write outstanding being one of the file lock's, and that is at most one |
| ReceiverThreads.NeverDeadlocks | net/tcp/receiver.cpp:170-221 | the two locks and the two timers together: as long as any thread has not ended, some thread goes on or a write outstanding is due |
| ReceiverThreads.WorkDecreases | net/tcp/receiver.cpp:223-250 | every operation of a thread brings the work left down, except a spin, which changes nothing |
| ReceiverThreads.EveryThreadDoesItsWork | net/tcp/receiver.cpp:223-328 | under any interleaving, what each kind of thread has done by its end, in order: a failed write, for one, has closed and moved the file and disconnected |
| ReceiverThreads.FindingsCount | net/tcp/receiver.cpp:355-376 | no data, a failed open and a failed write are what sends a thread to the disconnect |
| ReceiverThreads.StoppingStops | util/timer.cpp:40-49 | stopping a timer disarms it, and ends only when none of its callbacks runs |
| ReceiverThreads.DroppedExactlyUnderTheLock | net/tcp/receiver.cpp:259-268 | the data of a receive is dropped if and only if some thread is inside the connection lock when it completes |
| ReceiverThreads.FastReceiveIsDropped | net/tcp/receiver.cpp:347-353 | the concrete run, with nothing failing, that drops a receive and leaves nothing outstanding |
| FileNames.NumberConnections | net/tcp/receiver.cpp:556-574 | connection i of acceptor a gets number a * nconnections + i |
| FileNames.FileNameIsInjective | net/tcp/receiver.cpp:138-145 | the printed name determines connection number and file number |
| FileNames.CutAfterStem | net/tcp/receiver.cpp:138-145 | a name cut anywhere after its numbers still determines both |
| FileNames.PathsAreDistinct | net/tcp/receiver.cpp:425-448 | over all acceptors, connections and opens, paths whose stems fit are distinct, so no move overwrites an earlier one |
| FileNames.DistinctExactlyWhenTheStemsFit | net/tcp/receiver.cpp:425-441 | for any number of connections with up to any number of files, two at least, all paths in a directory are distinct if and only if the longest stem fits in MAX_PATH |
| FileNames.FirstTwoFiles | net/tcp/receiver.cpp:138-145 | the first connection's first two files share a path if and only if the directory name is longer than 250 characters |
| FileNames.ShortDirectoriesAreSafe | net/tcp/receiver.cpp:425-441 | in directories of up to 212 characters the paths of all 64-bit numbers are distinct |
| LoadGeneratorRuns.SessionsCarryTheData | test-connector.cpp:589-624 | whatever the partial sends, an established connection carried exactly the data repeated as configured if and only if no send on it failed, and otherwise a prefix |
| LoadGeneratorRuns.SessionsFollowTheCompletions | test-connector.cpp:649-697 | from the completions alone: what every established connection carried is as long as the OS reported taken on it, and it failed exactly if a send on it was reported failed |
| LoadGeneratorRuns.EverythingIsTaken | test-connector.cpp:608-624 | an established connection over, on which no send failed, took the length of the data times the transfers, and less if one failed |
| LoadGeneratorRuns.OneDisconnectPerConnect | test-connector.cpp:626-647 | one disconnect per successful connect, send errors included, and finished exactly after the configured number of disconnects |
| LoadGeneratorRuns.LastFinisherSignals | test-connector.cpp:776-781 | the counter is the number of unfinished connections; the stop event is set once, exactly when all have finished |
| LoadGeneratorRuns.RankDecreases | test-connector.cpp:649-697 | loops, phase, transfers and bytes left decrease at every completion, except a send of nothing, which changes nothing |
| LoadGeneratorRuns.RunsAreBounded | test-connector.cpp:649-697 | with sends that move at least a byte, n connections finish within n * loops * (transfers * length + 2) completions |
| LoadGeneratorRuns.SomethingIsOutstanding | test-connector.cpp:635-647 | before the stop event, and as long as no connect failed, some completion is always due |
| LoadGeneratorRuns.EndsExactlyWithoutFailedConnects | test-connector.cpp:690-694 | once nothing can complete any more, the stop event has been set if and only if no connect failed |
| LoadGeneratorRuns.RestIsFinal | test-connector.cpp:649-697 | nothing can complete any more exactly when every connection is finished or stuck in a failed connect |
| LoadGeneratorRuns.FailedConnectHangs | test-connector.cpp:690-694 | in every run with a failed connect the stop event is never set |
| LoadGeneratorRuns.OneFailedConnect | test-connector.cpp:690-694 | the shortest such run, one connection and one completion |
| LoadGenerator.Connection.Sent | test-connector.cpp:608-624 | sends the rest, the data again, or closes after the last transfer |
| LoadGenerator.Connection.Disconnected | test-connector.cpp:635-647 | connects again or gives up its share of the counter, signalling at zero |
| LoadGenerator.Connection.Complete | test-connector.cpp:649-697 | every completion takes the object through the step of the specification |
| LoadGenerator.Create | test-connector.cpp:754-787 | n distinct connections sharing one counter set to n before any connect: the initial fleet |
| LoadGenerator.Drive | test-connector.cpp:649-697 | all connections together go through any schedule of completions as the specification's fleet does |
| NumberParsing.Parse | test-connector.cpp:462-494 | with 64-bit wrap-around, returns the mathematical value of a digit string in range, and nothing else, for every limit with 9 * max + 9 < 2^64 |
| NumberParsing.ParseIsExactlyRight | test-connector.cpp:473-480 | the parser is right for all strings and minimums if and only if 9 * max + 9 < 2^64 |
| NumberParsing.SlipThrough | test-connector.cpp:475-477 | the digit string that wraps to its own prefix and is accepted at every limit above the threshold |
| NumberParsing.ParsePort | net/socket/address.cpp:225-244 | accepts exactly the digit strings worth 1 to 65535 and returns that value |
| NumberParsing.PortRoundTrip | net/socket/address.cpp:114-117 | parsing inverts decimal printing of exactly those ports |
| SocketAddress.TextRoundTrip | net/socket/address.cpp:13-40 | for every string that builds, building its text again gives the same address if and only if the string is not empty |
| SocketAddress.Ipv4RoundTrip | net/socket/address.cpp:104-123 | the IPv4 text form splits and parses back to address and port |
| SocketAddress.Ipv6RoundTrip | net/socket/address.cpp:126-149 | the bracketed form of section 6 of RFC 5952 splits and parses back to address and port |
| SocketAddress.Ipv4Text | net/socket/address.cpp:104-123 | an IPv4 address prints as its text, a colon and the port in decimal without leading zeros, and no bracket at the front |
| SocketAddress.Ipv6Text | net/socket/address.cpp:126-149 | an IPv6 address prints as its text between brackets, a colon and the port |
| SocketAddress.PathText | net/socket/address.cpp:152-184 | a path prints as itself, the empty one as an abstract name |
| SocketAddress.SplitsExactlyByTheForm | net/socket/address.cpp:189-223 | a string splits into address text and port exactly when it has the plain or the bracketed form, and in one way only |
| SocketAddress.BuildsExactly | net/socket/address.cpp:13-80 | exactly which strings build an IPv4 address, an IPv6 address or a path: a path is any string without that form that fits with its terminator |
| SocketAddress.Address.ExtractIpPort | net/socket/address.cpp:189-223 | fills the caller's buffer with exactly the address part and returns the port, or refuses |
| SocketAddress.Address.BuildIp | net/socket/address.cpp:42-80 | IPv4 first, then IPv6; a failure leaves the address unchanged |
| SocketAddress.Address.Build | net/socket/address.cpp:13-40 | address and port if the text has that form, else a path that fits; a failure leaves the address unchanged |
| SocketAddress.Address.ToString | net/socket/address.cpp:101-187 | succeeds exactly when text and terminator fit, leaves exactly that text, and never writes at or beyond the size |

## Left out

- Inline nested callbacks: a completion is a separate step, so a handler that runs inside the call that caused it is not modelled; what that hides is said under Granularity.
- Runs in which the hypotheses above fail are covered only by the exactness theorems and the concrete runs.
- `bind`, `local`, `remote`, the destructors and the loading of extension functions: thin OS calls.
- `AsyncSocket.Socket.Cancel`: what CancelIoEx makes the OS do is an event of the environment; the method states when it is called.
- `AsyncSocketRuns.OneCallbackPerOperation`: that callers keep to the socket's demands is proved for the proxy only; the receiver and the load generator are not run on the socket model.
- `Receiver.Connection.WriteFile`: the spin on the file lock is modelled in FileLock and ReceiverThreads; at handler granularity the lock is free when the handler runs.
- `Proxy.Server.Close`: the spin on the close lock is modelled in CloseRace; at handler granularity the lock is free when the handler runs.
- `LoadGenerator.Create`: an allocation that fails is not modelled.
- The partly failed open of `filesystem/async/file.cpp`, which leaves the handle set; opening succeeds or fails as a whole.
- A file left by an earlier process under a name of this one, which the open would append to and the move replace.
- `build_abstract` and abstract Unix names, which are not compiled on Windows.
- Command-line parsing, `load_file`, range checks of `create`, growth of the acceptor tables, debug output, main programs and signal handlers.
- Liveness that depends on real time or on the fairness of the OS; that every proxy send is covered by an armed timer is not claimed, since both directions share one timer.
