# Verified models of the edge assistant's reactor, sessions, queues and streams

This project models, in Dafny, the parts of the repository whose correctness depends on many steps
happening in any order, and proves what they keep. `dafny verify dfyconfig.toml` checks all of it.

| file | what it models |
|---|---|
| `TcpServer.dfy` | the life of every connection over one base loop and any number of I/O loops, as a machine that interleaves their handlers; every assert of the code is a step that could fail |
| `TcpEffects.dfy` | what each step of that machine brings about: stages, queued functors, turns of the loops, callbacks, and its agreement with the sending side |
| `TcpConnection.dfy` | the sending side of a connection: what `send` accepts, what the kernel takes, what waits, when the socket is shut |
| `EventLoop.dfy` | functors queued across threads, the eventfd, the swapped batches |
| `ConnectionState.dfy` | the states of a connection, which `TcpServer.dfy` and `TcpConnection.dfy` share |
| `Poller.dfy` | channels, the poller's map and index states, and the kernel's interest set |
| `Buffer.dfy` | the growable byte buffer over an array, with both branches of `makeSpace` |
| `Connector.dfy` | the outgoing connect machine and the disposal of its sockets |
| `UnitManager.dfy` | work ids and the two ports of every registered unit |
| `StackFlow.dfy` | the sessions of the nodes: task, channel and unit under one number, over whole runs |
| `PzmqData.dfy` | the length-prefixed pair of strings |
| `Text.dfy` | printed and scanned integers, as `to_string`, `stoi` and `%i` do it |
| `NodeJobQueue.dfy` | the bounded queue, its producers, worker and stop, and the worker's messages |
| `JsonScan.dfy` | the ad hoc JSON scanner and the `zmq_com` splice |
| `DecodeStream.dfy` | reassembly of a stream's chunks in any order of arrival |
| `StreamMessages.dfy` | a stream's chunks as text: how the body is printed, what is read back from it, and a whole stream of them |
| `Envelopes.dfy` | the messages that the bodies are sent in: what the scanner cuts out of them, and a stream all the way from the worker to the text |
| `Sse.dfy` | the incremental reader of server-sent events |
| `SseCuts.dfy` | what that reader makes of every way of cutting a text |
| `Gateway.dfy`, `Codecs.dfy` | the gateway's streaming and waiting completions, and both ends of the stream together; an encoder and a parser for them |
| `Base64.dfy`, `Wav.dfy`, `Bytes.dfy` | the speech node's Base64 text and WAV bytes, and the gateway's sample chunks |

Where the source changes state in place the model is a class or a method with loops, proved against
a function; the theorems are about runs of these functions. Threads, the kernel and user callbacks
are steps that may come in any order, or parameters that may have any value.

What the code does not do as one might expect, each with the exact condition:

- The event loop's own thread can queue a functor before `loop()` without any wakeup
  (`network/src/EventLoop.cc:116-125`); the first poll then waits for its time-out. `StartsAwake` and
  `LoopsAwake` say exactly when a loop that is started stays awake, and `LostWakeup` shows the case.
- `exit` ends the session of the number in a work id but releases the unit of the text
  (`infra-controller/src/StackFlow.cpp:108-125`), so an id with a padded number leaves a unit and two
  ports behind. `ExitKeeps` has the exact condition, `ExitLeaks` the case.
- A pair whose first field is longer than 127 bytes does not come back where `char` is signed, nor
  one longer than 255 where it is not: `ParamRoundTrip`.
- The reader of server-sent events normalises line ends again whenever a chunk arrives, so
  two carriage returns before a newline are read differently depending on the cut: `SameForAllIff`
  for the events. What a caller sees depends on the cut exactly when a line of carriage returns alone
  stands between data and data of one event: `ReadsSameIff`, and `CutReadsOtherwise` for inputs.
- A stream's text does not survive being printed as JSON, sent and scanned back (`node/llm/src/main.cpp:293-307`,
  `infra-controller/include/channel.h:76-104`, `infra-controller/src/StackFlowUtil.cpp:17-157`). A delta
  that is the word `index` makes the reader throw, the word `finish` ends the stream, and quotes,
  backslashes and control characters, newlines among them, come back escaped: `IndexThrows`,
  `FinishFinishes`, `NewlineStaysEscaped`. The scanner also counts the braces inside of strings when it
  cuts the body out of its message, so a delta that closes a brace too many makes the reader throw
  (`BraceThrows`), and one that leaves more open than the rest of the message closes, which is one unless
  the ids have braces themselves, is never read; one open brace is read, although what is cut out is then
  not the body (`BraceArrives`). `MessageIff` and `TidyMessageIff` have the exact
  condition for one message, `SentIff` and `WorkerStreamDecodes` for whole streams; `ReadIff` and
  `MessagesIff` are about `decode_stream` alone, and `EnvelopeData` about the body alone.
- `restart` while connecting trips an assert or leaks the socket, and trips an assert when it connects
  while the old channel is still to be freed: `RestartKeeps`, `RestartLeaks`, `RestartTooSoon`.
- An allocation that does not find two free ports goes on with an uninitialised one, and the unit that
  it enters has not two places of its own, whatever the variable holds: `AllocateIff`.
  Releasing that unit puts things right again only if it frees no port of another: `ReleaseUndoesIff`.
- A session whose number is not read back from its work id, whose first URL is too long for its
  length byte, or for which there were no two free ports, is entered wrongly: `SetupKeeps`.
- The sizes in a WAV header wrap at 32 bits: `SizesIff`.
- A message whose direct write reports a broken connection is dropped although `send` accepted it:
  `LostExactly` for one send, `NothingLost` and `LostIff` for whole runs.

## Model

| member | source | states |
|---|---|---|
| `TcpServer.AssertsNeverFail` | network/src/TcpServer.cc:60-98 | over any schedule of any number of loops, of accepts, events, functors, sends, shutdowns and forced closes, no assert on `state_`, the erase count, `isNoneEvent` or the poller's map fails, and the state reached is a good one |
| `TcpServer.StepSafe` | network/src/TcpConnection.cc:237-256 | every single step of the machine succeeds and keeps the invariant that ties stages, queued functors, channels and the server's map |
| `TcpServer.StepForward` | network/src/TcpConnection.cc:303-315 | a step moves at most one connection, never back, and by one stage (on the base loop possibly past removal at once) |
| `TcpServer.StageExplained` | network/src/TcpServer.cc:84-98 | at every stage the callbacks fired are none, UP, or UP then DOWN, once each; exactly one functor is owed between stages; the map holds the connection exactly before removal; the channel is registered with the kernel exactly while it is up |
| `TcpServer.KernelWatchesUp` | network/src/TcpConnection.cc:237-256 | in every good state the kernel watches exactly the connections that are up, each on its own loop, under its own descriptor and mask, and for reading at least |
| `TcpServer.UpdateIsPollers` | network/src/Poller.cc:97-139 | an update of a channel in the machine does to index, map and kernel what Poller.UpdateChannel is proved to do |
| `TcpServer.RemoveIsPollers` | network/src/Poller.cc:141-160 | and a removal what Poller.RemoveChannel is proved to do |
| `TcpServer.LastReference` | network/src/TcpConnection.cc:50-54 | a connection that neither the map nor a queued functor points to has been through connectDestroyed: disconnected, its channel removed, and in no poller and no active list |
| `TcpServer.NothingHangs` | network/src/TcpServer.cc:89-98 | when all loops are blocked with nothing queued, each connection is up and in the map, or gone and unreferenced |
| `TcpEffects.StageIs` | network/src/TcpConnection.cc:258-315 | exactly: each step leaves every connection at its stage but the one whose event is the end of file or a hang-up with nothing to read, or whose functor is run, and these go on as far as that takes them |
| `TcpEffects.DownIff` | network/src/TcpConnection.cc:258-271 | an event takes a connection down if and only if it is a hang-up with nothing to read, or reading it finds the end of file |
| `TcpEffects.AcceptAdds` | network/src/TcpServer.cc:60-82 | an accepted socket becomes one new connection, on the loop that was chosen, under its descriptor and in the map, up at once on the base loop; no other is touched |
| `TcpEffects.TodoIs` | network/src/EventLoop.cc:116-125 | exactly: on every loop functors are run in the order in which they were queued, and each step queues just the functors that the code says, on the loop that it says |
| `TcpEffects.TurnIs` | network/src/EventLoop.cc:71-96 | exactly: a loop handles what its poll has reported, event by event, then runs what was queued by then, functor by functor, before it polls again |
| `TcpEffects.ForceDooms` | network/src/TcpConnection.cc:168-175 | a forced close of a connection that is up queues the close on its loop |
| `TcpEffects.ForcedCloseComes` | network/src/TcpConnection.cc:168-194 | over any run, a connection that has been forced to close is gone and unreferenced once all loops are blocked with nothing queued |
| `TcpEffects.IoIsDispatch` | network/src/Channel.cc:40-57 | an event is handled by the callbacks that the channel makes for it, in their order |
| `TcpEffects.SendMatches` | network/src/TcpConnection.cc:86-124 | state and interest in writing after a send are those of the sending side, for every answer of the kernel |
| `TcpEffects.WriteMatches` | network/src/TcpConnection.cc:273-301 | so they are after a writable event |
| `TcpEffects.AskedMatches` | network/src/TcpConnection.cc:126-175 | and after a shutdown or a forced close is asked for |
| `TcpEffects.CloseMatches` | network/src/TcpConnection.cc:303-315 | and after the close |
| `TcpEffects.EstablishMatches` | network/src/TcpConnection.cc:237-245 | and once established |
| `TcpServer.RunForward` | network/src/TcpConnection.cc:188-194 | over any run no connection is lost or goes back a stage |
| `TcpServer.RunKeepsInv` | network/src/TcpServer.cc:60-98 | the invariant holds in every state that a run reaches |
| `TcpServer.Server.constructor` | network/src/TcpServer.cc:16-28 | a new server has its loops waiting and no connections, which is a good state |
| `TcpServer.Server.AcceptConnection` | network/src/TcpServer.cc:60-82 | newConnection does what the machine's step says, trips no assert and keeps the invariant |
| `TcpServer.Server.ConnectEstablishedNow` | network/src/TcpConnection.cc:237-245 | connectEstablished run at once on the base loop, as the machine's step |
| `TcpServer.Server.RemoveConnection` | network/src/TcpServer.cc:84-87 | removal is run at once on the base loop and queued there otherwise |
| `TcpServer.Server.RemoveConnectionNow` | network/src/TcpServer.cc:89-98 | the connection leaves the map and its destruction is queued on its own loop |
| `TcpConnections.NothingLost` | network/src/TcpConnection.cc:86-124 | for any partial writes and errors, the bytes kept are those the kernel took followed by the output buffer, in order; they are all the accepted bytes if and only if no send of the run met the guard of the branch that drops a message; writing is enabled exactly when the buffer is not empty, while not disconnected |
| `TcpConnections.ShutOnceAndLast` | network/src/TcpConnection.cc:126-141 | SHUT_WR happens at most once, is the last thing done to the socket, with nothing waiting, and comes after every accepted byte if and only if no send of the run met that guard |
| `TcpConnections.ShutComesInTheEnd` | network/src/TcpConnection.cc:273-301 | in any run without a forced close, once a shutdown has been asked for and until the connection closes, SHUT_WR has been sent if and only if the buffer is empty, that is, every accepted byte that no fault has dropped has been taken |
| `TcpConnections.ShutComes` | network/src/TcpConnection.cc:284-289 | a writable event that takes all that waits sends a pending SHUT_WR |
| `TcpConnections.AcceptedAreGiven` | network/src/TcpConnection.cc:68-80 | over any run, the accepted bytes are all that was given to send while connected, in order |
| `TcpConnections.StatesAre` | network/src/TcpConnection.cc:126-194 | and the state is the one that the operations alone say |
| `TcpConnections.TakesThese` | network/src/TcpConnection.cc:95-103 | each operation has the kernel take just the start of a message when nothing waits, or of the buffer when the socket is writable; the buffer keeps the rest |
| `TcpConnections.LostExactly` | network/src/TcpConnection.cc:95-110 | a message is lost exactly when it is not empty, is written directly and EPIPE or ECONNRESET comes back |
| `TcpConnections.LostIff` | network/src/TcpConnection.cc:95-124 | from any state of the sending side, a run loses nothing if and only if none of its sends is non-empty, written directly and answered by EPIPE or ECONNRESET where it happens |
| `TcpConnections.StepKeeps` | network/src/TcpConnection.cc:273-301 | each operation keeps the invariant of the sending side |
| `TcpConnections.RunKeeps` | network/src/TcpConnection.cc:68-141 | so does any run of operations |
| `TcpConnections.TcpConnection.ConnectEstablished` | network/src/TcpConnection.cc:237-245 | the object's step is that of the specification, and the poller stays in order |
| `TcpConnections.TcpConnection.SendMessage` | network/src/TcpConnection.cc:68-124 | the same for send, over the real buffer, channel and poller |
| `TcpConnections.TcpConnection.SendNow` | network/src/TcpConnection.cc:86-124 | the same for sendInLoop |
| `TcpConnections.TcpConnection.KeepRest` | network/src/TcpConnection.cc:112-124 | what was not written waits behind what waited before, with writing enabled |
| `TcpConnections.TcpConnection.OnWritable` | network/src/TcpConnection.cc:273-301 | the same for handleWrite, including the pending shutdown |
| `TcpConnections.TcpConnection.ShutdownConnection` | network/src/TcpConnection.cc:126-133 | the same for shutdown |
| `TcpConnections.TcpConnection.ShutdownWrite` | network/src/TcpConnection.cc:135-141 | the same for shutdownInLoop |
| `TcpConnections.TcpConnection.OnClose` | network/src/TcpConnection.cc:303-315 | the same for handleClose; the channel leaves the kernel's set |
| `EventLoops.NoLostWakeup` | network/src/EventLoop.cc:71-96 | over every interleaving in which the loop is started in good order, a loop that blocks with functors pending has a positive eventfd count or a thread between its push and its wakeup |
| `EventLoops.StartsAwake` | network/src/EventLoop.cc:116-125 | a loop that is started after any prelude of pushes, wakeups and quits stays awake for good if and only if nothing is queued or another thread has called |
| `EventLoops.LoopsAwake` | network/src/EventLoop.cc:71-96 | the same from every state in which loop() may be called, also again: it stays awake for good if and only if nothing is queued, or the eventfd is written and unread, or a thread is about to write it |
| `EventLoops.LostWakeup` | network/src/EventLoop.cc:116-125 | the input for which it does not |
| `EventLoops.OnePassHeals` | network/src/EventLoop.cc:177-190 | from the first swap on it stays awake whatever happened before |
| `EventLoops.ExecutedInOrder` | network/src/EventLoop.cc:177-190 | executed functors, the rest of the batch and the pending ones are what was ever queued, in order, without loss or repetition |
| `EventLoops.IterationRunsBatch` | network/src/EventLoop.cc:177-190 | one iteration runs exactly the batch present at the swap, however many functors are queued meanwhile |
| `EventLoops.QuitIs` | network/src/EventLoop.cc:98-107 | quit is set by quitting and forgotten by starting, and by nothing else; at the end of an iteration the loop goes on or ends by it |
| `EventLoops.QuitIsHeard` | network/src/EventLoop.cc:98-107 | over every interleaving, a loop that is blocked although it is to quit is about to be woken |
| `EventLoops.QuitEnds` | network/src/EventLoop.cc:71-96 | each step of the loop brings it nearer to the end of its iteration, and there it ends once it is to quit |
| `EventLoops.NoMoreIterations` | network/src/EventLoop.cc:71-96 | over any run, a loop that is to quit finishes the iteration it is in and begins no other until it is started again |
| `EventLoops.ReadQuiets` | network/src/EventLoop.cc:168-175 | reading the eventfd leaves nothing that wakes the loop but threads that are about to |
| `EventLoops.EventLoop.QueueInLoop` | network/src/EventLoop.cc:116-125 | the object queues, and wakes up, as the specification does |
| `EventLoops.EventLoop.DoPendingFunctors` | network/src/EventLoop.cc:177-190 | the object's batch loop runs what was pending, in order, and leaves what its functors queued |
| `EventLoops.EventLoop.RunOne` | network/src/EventLoop.cc:183-187 | a functor is executed once, and what it queues goes behind what is pending |
| `Pollers.Channel.EnableReading` | network/include/network/Channel.h:46-49 | the poller's map, the index states and the kernel's set and masks still agree, and the channel is registered with its new mask |
| `Pollers.Channel.DisableReading` | network/include/network/Channel.h:50-53 | the same, the channel leaving the kernel's set if its mask is now empty |
| `Pollers.Channel.EnableWriting` | network/include/network/Channel.h:54-57 | the same for writing |
| `Pollers.Channel.DisableWriting` | network/include/network/Channel.h:58-61 | the same |
| `Pollers.Channel.DisableAll` | network/include/network/Channel.h:62-65 | the same for the empty mask |
| `Pollers.Channel.Remove` | network/src/Channel.cc:34-38 | the channel leaves map and kernel, and everything still agrees |
| `Pollers.Channel.Update` | network/src/Channel.cc:29-32 | a new mask reaches the poller and the kernel |
| `Pollers.DispatchOnce` | network/src/Channel.cc:40-57 | of the events that epoll can report, none makes both the close and the read callback; each callback comes at most once, the error callback last, and read and write only if asked for |
| `Pollers.NothingUnanswered` | network/src/Channel.cc:40-57 | exactly: POLLIN is answered by the read callback, POLLOUT by the write callback, POLLERR by the error callback and POLLHUP by the close callback unless there is something to read, close before read before write before error |
| `Pollers.Poller.UpdateChannel` | network/src/Poller.cc:97-139 | ADD, MOD and DEL are issued so that the kernel never refuses, and map, indices and kernel agree again |
| `Pollers.Poller.RemoveChannel` | network/src/Poller.cc:141-160 | a removed channel is in neither, and the rest still agrees |
| `Pollers.Poller.Poll` | network/src/Poller.cc:48-95 | every reported descriptor is found in the map, is a registered channel and gets its own events; a full list doubles |
| `Pollers.Poller.HasChannel` | network/src/Poller.cc:200-206 | a channel is known exactly when its index is not kNew |
| `Buffers.FromBigEndianOf` | network/include/network/Buffer.h:122-139 | big-endian bytes read back as the number modulo their range |
| `Buffers.NetworkRoundTrip` | network/include/network/Buffer.h:122-139 | a signed integer that fits reads back from its bytes in network order |
| `Buffers.BigEndianAt` | network/include/network/Buffer.h:122-139 | in network order the first byte is the most significant one, and so on |
| `Buffers.Buffer.Append` | network/include/network/Buffer.h:88-96 | the readable bytes are the old ones and the new, whichever branch makes the space |
| `Buffers.Buffer.MakeSpace` | network/include/network/Buffer.h:252-266 | both branches leave the readable bytes and the room asked for, with the indices in order and the assert on the cheap prepend met |
| `Buffers.Buffer.ShiftToFront` | network/include/network/Buffer.h:255-266 | the overlapping move in place keeps the readable bytes |
| `Buffers.Buffer.Retrieve` | network/include/network/Buffer.h:53-60 | exactly the first bytes go |
| `Buffers.Buffer.RetrieveAsString` | network/include/network/Buffer.h:79-84 | they are returned, and go |
| `Buffers.Buffer.RetrieveAll` | network/include/network/Buffer.h:70-73 | nothing is readable any more |
| `Buffers.Buffer.EnsureWritableBytes` | network/include/network/Buffer.h:98-103 | there is room for the bytes, and the readable ones are the same |
| `Buffers.Buffer.HasWritten` | network/include/network/Buffer.h:109-112 | bytes that were written into the room become readable |
| `Buffers.Buffer.PeekInt` | network/include/network/Buffer.h:180-210 | the integer that the first bytes stand for in network order |
| `Buffers.Buffer.Unwrite` | network/include/network/Buffer.h:114-117 | exactly the last bytes go |
| `Buffers.Buffer.Prepend` | network/include/network/Buffer.h:232-237 | the bytes come before the readable ones |
| `Buffers.Buffer.AppendInt` | network/include/network/Buffer.h:122-140 | an integer goes to the end in network order |
| `Buffers.Buffer.PrependInt` | network/include/network/Buffer.h:212-230 | and to the front |
| `Buffers.Buffer.ReadInt` | network/include/network/Buffer.h:146-210 | an integer that was appended or prepended is read back and goes |
| `Buffers.Buffer.ReadFd` | network/src/Buffer.cc:14-55 | the scatter read appends everything that came in, through the overflow buffer too, and nothing on an error |
| `Connectors.DisposedOnce` | network/src/Connector.cc:29-181 | over any order of starts, restarts, stops, events and delayed functors no assert fails, every socket opened is closed or handed over at most once, and one is undisposed exactly while connecting |
| `Connectors.StepIsIntended` | network/src/Connector.cc:29-181 | with its channel that is freed later and its asserts, the connector does what a simple one does that tries one socket at a time, gives up or succeeds |
| `Connectors.HandsOver` | network/src/Connector.cc:145-149 | an action hands a socket over exactly if it is an event that finds its connecting good and still wanted |
| `Connectors.HandedIff` | network/src/Connector.cc:132-181 | over any run, a socket is handed over if and only if the event that ended its connecting found it good and still wanted, and every other one that is not being tried has been closed |
| `Connectors.ChannelFreed` | network/src/Connector.cc:24-27 | with nothing queued and not connecting, the channel is freed, as the destructor asserts |
| `Connectors.StartAsserts` | network/src/Connector.cc:34-42 | exactly when start meets its asserts |
| `Connectors.RestartKeeps` | network/src/Connector.cc:98-104 | from every state that keeps all this, restart trips no assert and keeps it if and only if it is not called while connecting nor, when it connects, while the old channel is still to be freed |
| `Connectors.RestartLeaks` | network/src/Connector.cc:98-104 | the input that leaks a socket |
| `Connectors.RestartTooSoon` | network/src/Connector.cc:98-118 | the input that trips the assert on the channel: a restart right behind an event that has failed |
| `Connectors.Connector.OnEvent` | network/src/Channel.cc:40-57 | POLLOUT and POLLERR in one event dispose of the socket as the machine says |
| `Connectors.Connector.ConnectSocket` | network/src/Connector.cc:59-96 | connect sorts the errors into connecting, retrying and closing as the machine does |
| `Connectors.Connector.StartConnector` | network/src/Connector.cc:29-42 | start connects, from the state in which its asserts hold |
| `Connectors.Connector.RestartConnector` | network/src/Connector.cc:98-104 | restart connects afresh, unless connecting |
| `Connectors.Connector.StopConnector` | network/src/Connector.cc:44-48 | stop clears the wish to connect and queues the rest |
| `Connectors.Connector.RunStopInLoop` | network/src/Connector.cc:50-57 | the rest closes the socket that is still undisposed, and no other |
| `Connectors.Connector.RemoveAndResetChannel` | network/src/Connector.cc:120-128 | the channel leaves the poller, gives up its socket and is to be freed later |
| `Connectors.Connector.ResetChannel` | network/src/Connector.cc:130-130 | the channel is freed |
| `Connectors.Connector.OnWritable` | network/src/Connector.cc:132-156 | the socket is handed over if the connection is good and still wanted, and closed otherwise |
| `Connectors.Connector.OnError` | network/src/Connector.cc:158-166 | the socket is closed, unless that was done before in the same event |
| `UnitManagers.ScanUrlOfUrl` | unit-manager/src/remote_server.cpp:66-80 | a port is scanned back from the URL printed with it |
| `UnitManagers.UrlTells` | unit-manager/src/remote_server.cpp:66-80 | the URL of a socket file tells its port, and its unit and kind |
| `UnitManagers.NamedUrls` | unit-manager/src/remote_server.cpp:56-108 | the two URLs of such a unit, by what they start and end in |
| `UnitManagers.SearchesSucceed` | unit-manager/src/remote_server.cpp:56-92 | both searches find a port exactly when two are free |
| `UnitManagers.AllocateKeeps` | unit-manager/src/remote_server.cpp:47-110 | a new unit gets two places that nobody had; all units still have disjoint in-range pairs, the marks are exactly their union, and no other unit changes |
| `UnitManagers.AllocateIff` | unit-manager/src/remote_server.cpp:47-110 | an allocation keeps all units in order if and only if two ports are free, whatever the port variables hold that no search has set |
| `UnitManagers.ReleaseKeeps` | unit-manager/src/remote_server.cpp:112-131 | releasing frees exactly the two places of that unit, by scanning its URLs; an unknown key changes nothing |
| `UnitManagers.ReleaseUndoesAllocate` | unit-manager/src/remote_server.cpp:112-131 | releasing what was just allocated restores the marks and the units |
| `UnitManagers.ReleaseUndoesIff` | unit-manager/src/remote_server.cpp:47-131 | releasing the unit of any allocation, stray ports included, keeps all units in order if and only if neither port is another unit's, and then gives everything back |
| `UnitManagers.UnitScans` | unit-manager/src/remote_server.cpp:119-125 | the ports that a release scans from the URLs of a unit in order are those it was given, and in the list |
| `UnitManagers.PortsConserved` | unit-manager/src/remote_server.cpp:47-131 | exactly twice as many places are marked as there are units |
| `UnitManagers.UnitManager.TakePort` | unit-manager/src/remote_server.cpp:58-66 | the search marks and returns the first free place, and returns what the variable held if there is none |
| `UnitManagers.UnitManager.AllocateUnit` | unit-manager/src/remote_server.cpp:47-110 | the object allocates as the specification does, with stray ports too, and keeps the invariant if and only if two ports were free |
| `UnitManagers.UnitManager.ReleaseUnit` | unit-manager/src/remote_server.cpp:112-131 | the object releases as the specification does and keeps the invariant, or returns -1 and changes nothing |
| `UnitManagers.UnitManager.FreePort` | unit-manager/src/remote_server.cpp:121-125 | the place of the scanned port is unmarked if it is in the list, and no other |
| `UnitManagers.UnitManager.constructor` | unit-manager/src/remote_server.cpp:167-173 | a new manager has no unit and all its places are free |
| `Text.StoiOfPrint` | infra-controller/src/StackFlowUtil.cpp:93-100 | stoi reads a printed number back |
| `Text.StoiIff` | infra-controller/src/StackFlowUtil.cpp:93-100 | exactly: stoi reads every integer that fits an int, with its sign and behind any white space, and throws for all others |
| `Text.ScanIOfPrint` | unit-manager/src/remote_server.cpp:121-125 | so does the scan by %i, unless what follows reads on |
| `Text.ScanIOfHex` | unit-manager/src/remote_server.cpp:121-125 | %i reads digits behind 0x in base sixteen |
| `Text.ScanIOfOctal` | unit-manager/src/remote_server.cpp:121-125 | and digits behind a zero in base eight |
| `Text.DottedInjective` | unit-manager/src/remote_server.cpp:50-55 | a work id tells both its name and its number |
| `PzmqData.ParamRoundTrip` | hybrid-comm/src/pzmq_data.cpp:40-63 | both fields of a pair come back if and only if the first is short enough for its length byte |
| `PzmqData.Layout` | hybrid-comm/src/pzmq_data.cpp:59-63 | the length byte, the first field and the second, in this order |
| `PzmqData.RegisterReply` | infra-controller/src/StackFlow.cpp:197-215 | the reply to a registration always decodes to its number, and to both URLs if and only if the first fits its length byte |
| `StackFlows.SetupKeeps` | infra-controller/src/StackFlow.cpp:76-90 | a setup that goes through keeps manager, tasks and channels the same sessions if and only if its number is read back from its work id and, when it is accepted, two ports were free and its first URL fits its length byte, when it is rejected, the ports given back are no unit's; then it gains one session exactly if nothing stands in its way, and otherwise no session, channel, unit or port is gained or lost |
| `StackFlows.SetupKeepsFree` | infra-controller/src/StackFlow.cpp:76-90 | while two ports are free: exactly if the number is read back and, when the session is accepted, the URL fits |
| `StackFlows.SetupShort` | unit-manager/src/remote_server.cpp:56-92 | while they are not: never when the session is accepted, and when it is rejected exactly if the release frees no port of another unit |
| `StackFlows.ExitKeeps` | infra-controller/src/StackFlow.cpp:108-125 | exit goes through exactly if the number can be read, keeps the three together exactly if the id is spelled as issued or names no session, and ends the session named |
| `StackFlows.ExitLeaks` | infra-controller/src/StackFlow.cpp:108-125 | a padded number ends the session but leaves the unit, for every session |
| `StackFlows.ExitPushes` | infra-controller/src/StackFlow.cpp:108-125 | a channel without a task only gets the push URL of the exit |
| `StackFlows.StepKeeps` | node/asr/src/main.cpp:114-204 | an event on one node keeps every node in step and changes no other node |
| `StackFlows.FreshInv` | unit-manager/src/remote_server.cpp:167-173 | a new manager without units and nodes without sessions are together |
| `StackFlows.RunFromFresh` | node/llm/src/main.cpp:145-238 | any run of legal setups and exits from there goes through, with every node and the manager together, no limit exceeded and two ports marked per live unit |
| `StackFlows.ShortIsLegal` | infra-controller/src/StackFlow.cpp:197-215 | what a configuration needs for its setups to be legal: no dot in the name, and a format short enough |
| `StackFlows.RunKeeps` | node/llm/src/main.cpp:145-238 | so does any run of setups and exits from a state in which they are together; never more sessions than the limit, and two ports marked per live unit |
| `StackFlows.WorkIdNumOfWorkId` | infra-controller/src/StackFlowUtil.cpp:93-115 | the number is read back from a work id whose name has no dot |
| `StackFlows.StackFlow.SysRegisterUnit` | infra-controller/src/StackFlow.cpp:197-215 | the object registers with the manager, whichever ports this finds, and enters the channel as the specification does |
| `StackFlows.StackFlow.SysReleaseUnit` | infra-controller/src/StackFlow.cpp:217-236 | the object releases at the manager and drops the channel as the specification does, or throws before both |
| `StackFlows.StackFlow.SetupTask` | node/asr/src/main.cpp:114-179 | the node's setup, with all its failing branches, is that of the specification |
| `StackFlows.StackFlow.ExitTask` | node/asr/src/main.cpp:181-204 | so is the node's exit |
| `StackFlows.StackFlow.SetupSession` | infra-controller/src/StackFlow.cpp:76-90 | the whole setup of the object is that of the specification |
| `StackFlows.StackFlow.ExitSession` | infra-controller/src/StackFlow.cpp:108-125 | so is the whole exit |
| `NodeJobQueues.QueueKeeps` | infra-controller/include/NodeJobQueue.h:23-59 | every step of producers, worker and stop keeps: accepted jobs are popped ones then queued ones, the size bound, one reply owed or sent per refused job, and a pending notification for a blocked worker with work; nothing is accepted once stopped |
| `NodeJobQueues.NoLostNotification` | infra-controller/include/NodeJobQueue.h:36-41 | a worker blocked although it could go on is about to be woken |
| `NodeJobQueues.StopDrains` | infra-controller/include/NodeJobQueue.h:52-59 | once stopped some step is left until the worker ends, and each brings it nearer |
| `NodeJobQueues.EndsInTime` | node/llm/src/main.cpp:321-327 | a bound on the steps that takes |
| `NodeJobQueues.SentKeeps` | node/llm/src/main.cpp:282-319 | whatever the engine calls back with, each job's chunks are numbered 0, 1, 2, ..., a finishing one is empty, an error or result comes last, and jobs do not mix |
| `NodeJobQueues.RunEnds` | node/llm/src/main.cpp:270-319 | all of it for any run of a new queue that has ended its worker |
| `NodeJobQueues.JobsAreTold` | node/llm/src/main.cpp:270-319 | over any schedule of a new queue, what a job has sent is, in order, what its engine has called back with, and then the error or the result that goes with its outcome; a job whose task and channel were there comes to one outcome, unless it is still at work, and one whose were not to none |
| `NodeJobQueues.LookIff` | infra-controller/include/NodeJobQueue.h:36-50 | exactly when the worker takes the oldest job and works on it, skips it, blocks or ends |
| `NodeJobQueues.EveryPushCounts` | infra-controller/include/NodeJobQueue.h:23-34 | over any run, the jobs accepted and those refused are together those pushed |
| `NodeJobQueues.NodeJobQueue.Push` | infra-controller/include/NodeJobQueue.h:23-34 | a job is accepted exactly while running and below the limit |
| `NodeJobQueues.NodeJobQueue.WaitPop` | infra-controller/include/NodeJobQueue.h:36-50 | the oldest job is taken and the rest stays in order; none is returned exactly when there is none, and then the queue is stopped |
| `JsonScan.FindTextFinds` | infra-controller/src/StackFlowUtil.cpp:22-26 | the search finds the first occurrence, and none exactly when there is none |
| `JsonScan.ScanObject` | infra-controller/src/StackFlowUtil.cpp:30-72 | a value that starts with a brace is read up to where its braces first balance, or not at all |
| `JsonScan.ScanQuoted` | infra-controller/src/StackFlowUtil.cpp:73-90 | a quoted value is read up to its first quote that no backslash precedes, and is lost if it has none |
| `JsonScan.ScanBare` | infra-controller/src/StackFlowUtil.cpp:42-90 | a bare word is read up to the comma or brace behind it, and is lost without one |
| `JsonScan.ScanLoose` | infra-controller/src/StackFlowUtil.cpp:30-58 | whatever stands behind the colon without a quote or a brace is read up to the comma or brace behind it, but for spaces and further colons |
| `JsonScan.SampleJsonStrGet` | infra-controller/src/StackFlowUtil.cpp:17-91 | the loop over the characters computes the scan that these are about |
| `JsonScan.SpliceUrl` | unit-manager/src/remote_server.cpp:260-268 | scanning the spliced message for zmq_com yields the URL if and only if the URL has no bare quote and no backslash at its end |
| `JsonScan.SpliceOthers` | unit-manager/src/remote_server.cpp:260-268 | scanning it for any other identifier yields what the request itself yields |
| `JsonScan.InferenceData` | unit-manager/src/remote_server.cpp:260-268 | the buffer of post + length + 13 bytes is filled exactly by the splice |
| `DecodeStreams.DecodeStream` | infra-controller/src/StackFlowUtil.cpp:142-157 | one call does to output and buffer what the specification says, exceptions included |
| `DecodeStreams.AppendAll` | infra-controller/src/StackFlowUtil.cpp:150-152 | its loop appends the deltas from 0 on, up to the first that is missing |
| `DecodeStreams.FinishIff` | infra-controller/src/StackFlowUtil.cpp:149-154 | a finishing chunk completes the stream if and only if the indices are 0..n-1; then all is appended in order and the buffer is empty, otherwise the part before the first gap is appended and an exception leaves the buffer |
| `DecodeStreams.StoreInAnyOrder` | infra-controller/src/StackFlowUtil.cpp:147-147 | the buffer does not depend on the order of arrival |
| `DecodeStreams.AnyOrder` | infra-controller/src/StackFlowUtil.cpp:142-157 | a numbered stream of chunks whose finishing one comes last gives its whole text in order, in whatever order the others arrive |
| `StreamMessages.ReadIff` | node/llm/src/main.cpp:293-307 | decode_stream reads a body that the worker prints as the chunk it was if and only if no character of its delta has to be escaped and the delta is neither index nor finish |
| `StreamMessages.ReadShape` | infra-controller/src/StackFlowUtil.cpp:142-157 | otherwise, and whatever text follows the body, nothing is read, or a chunk of the same number that finishes too early or whose delta is longer |
| `StreamMessages.LooksLike` | node/llm/src/main.cpp:293-307 | a body whose delta needs no escapes, letter by letter |
| `StreamMessages.IndexThrows` | infra-controller/src/StackFlowUtil.cpp:144-145 | the word index as a delta makes stoi throw |
| `StreamMessages.FinishFinishes` | infra-controller/src/StackFlowUtil.cpp:148-149 | the word finish as a delta is read as the finishing chunk |
| `StreamMessages.NewlineStaysEscaped` | utils/json.hpp:18400-18470 | a newline is read as a backslash and an n |
| `StreamMessages.MessagesIff` | infra-controller/src/StackFlowUtil.cpp:142-157 | a numbered stream of printed bodies, the finishing one last and the others in any order, is put together by decode_stream to its text if and only if every delta is faithful in that sense |
| `StreamMessages.StreamIff` | infra-controller/src/StackFlowUtil.cpp:142-157 | the same for any texts of which each is read as its chunk or visibly not |
| `StreamMessages.WorkerIsWellSent` | node/llm/src/main.cpp:270-319 | the chunks of a job that finished are a numbered stream, whatever schedule queue and worker have run |
| `StreamMessages.WorkerBodiesDecode` | node/llm/src/main.cpp:293-307 | so their bodies, given to decode_stream as they are, make their text if and only if every delta is faithful |
| `Envelopes.MessageIff` | infra-controller/include/channel.h:76-104 | what decode_stream reads from a message, after the scan for its data, is the chunk that was sent if and only if the delta is faithful, closes no brace it has not opened, and leaves open just what the rest of the message closes |
| `Envelopes.TidyMessageIff` | infra-controller/include/channel.h:76-104 | with ids whose own braces are nested: if and only if the delta is faithful, closes no brace it has not opened and leaves at most one open |
| `Envelopes.LooksLike` | infra-controller/include/channel.h:76-104 | a message whose names need no escapes, letter by letter |
| `Envelopes.EnvelopeData` | infra-controller/src/channel.cpp:46-46 | the scan for the data of a sent message yields the body itself if and only if the braces of its delta are nested |
| `Envelopes.BraceThrows` | infra-controller/src/StackFlowUtil.cpp:59-72 | a closing brace as a delta makes the reader throw, although it is faithful |
| `Envelopes.LowThrows` | infra-controller/src/StackFlowUtil.cpp:59-72 | so does every delta that closes a brace too many |
| `Envelopes.BraceArrives` | infra-controller/src/StackFlowUtil.cpp:59-72 | an opening brace is read as it was sent, although the data is not the body |
| `Envelopes.SentIff` | node/test/src/main.cpp:172-190 | a numbered stream of messages, the finishing one last and the others in any order, is put together to its text if and only if every one survives in that sense |
| `Envelopes.WorkerStreamDecodes` | node/llm/src/main.cpp:270-319 | whatever schedule queue and worker have run, if the engine has finished a job, the messages that were sent for it are put together to what the engine has said, those before the last in any order, if and only if each of its texts survives in its message |
| `Sse.AnyChunking` | web-vue/src/api/sse.js:13-38 | the events of a clean text are the same for every way of cutting it |
| `Sse.SameForAllIff` | web-vue/src/api/sse.js:35-38 | exactly: every cut gives the events of the whole text if and only if no CR stands before a CR LF |
| `Sse.ReadAlikeIff` | web-vue/src/api/sse.js:40-62 | two lists of events give every caller the same content, deltas and exception, whatever its parser, if and only if they have the same data, empty ones and end marks apart |
| `Sse.CutReadsOtherwise` | web-vue/src/api/sse.js:35-62 | the inputs on which a caller sees the cut: any two data joined by CR CR LF are read as one, and as two when the text is cut there |
| `SseCuts.ReadsSameIff` | web-vue/src/api/sse.js:13-68 | for every parser, content, deltas and exception are the same for every way of cutting a text if and only if no event of the text has a line of carriage returns alone with data both before and behind it |
| `SseCuts.DatasAreLines` | web-vue/src/api/sse.js:35-68 | the data of a text's events are those of its lines, of which the empty ones end events |
| `SseCuts.SeenAreShorn` | web-vue/src/api/sse.js:35-38 | whatever the cut, the reader ends up with the lines of the normalised text, but for some carriage returns at their ends |
| `SseCuts.CutReadsLess` | web-vue/src/api/sse.js:35-38 | for every text with such a line there is a cut by which less is read |
| `Sse.ProcessBuffer` | web-vue/src/api/sse.js:35-68 | one buffer is split, its complete events are dispatched up to an exception, and its last part is kept or flushed |
| `Sse.ProcessEvents` | web-vue/src/api/sse.js:40-62 | its loop dispatches the events in order, up to one that throws |
| `Sse.ParseOfTight` | web-vue/src/api/sse.js:70-77 | a data line is read alike without a space behind its colon |
| `Sse.StreamChatCompletion` | web-vue/src/api/sse.js:13-33 | the reader's loop gives the content, deltas and exception of the events; for a clean text those of the whole text |
| `Gateway.StreamIsReply` | gateway/app/main.py:303-333 | however the stream is cut, the reader's content is what run_chat_completion joins from the same items up to the finishing one, its deltas are those that are not empty, and it throws exactly if an error with a message that is not empty was sent |
| `Codecs.EncodeAndParse` | gateway/app/main.py:303-333 | there are an encoder and a parser in the manner of JSON for which this holds |
| `Gateway.StreamChatCompletion` | gateway/app/main.py:303-333 | the generator yields the events that this is about |
| `Gateway.ProducedIs` | gateway/app/main.py:303-333 | exactly: the stream is the role, each text that is not empty up to the finishing item, and then the finishing chunk or the error and the final mark, if there is one |
| `Gateway.PiecesAre` | gateway/app/main.py:314-333 | the same for what follows the role |
| `Gateway.RunChatCompletion` | gateway/app/main.py:243-249 | the loop returns the join of all deltas |
| `Base64.SpellsTheBits` | node/tts/src/main.cpp:37-76 | four characters for every three bytes or part of them; the symbols spell the bits six at a time, as section 4 of RFC 4648 defines it, and padding follows |
| `Base64.DecodeIff` | node/tts/src/main.cpp:37-76 | a text decodes, strictly, to some bytes if and only if it is their encoding |
| `Base64.Injective` | node/tts/src/main.cpp:37-76 | different bytes have different texts |
| `Base64.AlphabetAt` | node/tts/src/main.cpp:39-40 | the table lists the symbols in order |
| `Base64.Base64Encode` | node/tts/src/main.cpp:37-76 | the loop with its shifts, masks and tail computes that encoding |
| `Wav.WriteWav` | node/tts/src/tts_engine.cpp:218-249 | the bytes pushed are the 44-byte header and two bytes per sample |
| `Wav.SizesIff` | node/tts/src/tts_engine.cpp:227-245 | the file has 44 + 2n bytes and a right format, and right sizes if and only if 2n + 36 fits in 32 bits |
| `Wav.MarksStand` | node/tts/src/tts_engine.cpp:227-245 | the four marks of the format stand at their places, and the size of the format chunk |
| `Wav.SamplesBack` | gateway/app/audio_utils.py:20-37 | a file whose sizes fit is taken without complaint and its samples are read back |
| `Wav.WavPcm16Chunks` | gateway/app/audio_utils.py:11-39 | the chunks are all full but perhaps the last, none is empty, and together they are the samples of the payload; otherwise which error is raised, those of opening and of reading the file included |
| `Wav.ReadChunks` | gateway/app/audio_utils.py:32-37 | its loop over the frames, which stops at the end or at half a sample |
| `Wav.AppendU32` | node/tts/src/tts_engine.cpp:18-24 | four bytes in little-endian order |
| `Wav.AppendU16` | node/tts/src/tts_engine.cpp:12-16 | two bytes in little-endian order |

## Left out

- TcpServer: the handlers of connections are functions on a value of the whole world, and only the
  server's own methods are methods of an object, because loops of several threads interleave; each
  handler is one step, so races inside `send`, `shutdown` and `forceClose` from other threads, which
  the code marks as unsafe, are not modelled. `startRead`, `stopRead`, `forceCloseWithDelay`'s timer
  and the destructors of `TcpServer` and `EventLoopThread` are left out; pointers that user code
  keeps to a connection are not counted, and `nextConnId_` does not wrap.
- TcpConnections: the input buffer, the high-water mark and the write-complete callback are left out of
  the sending side; the last is part of the machine in `TcpServer.dfy`.
- EventLoops: time, signals and the assertions about threads; an eventfd count is unbounded.
- Pollers: failures of `epoll_ctl`, and POLLNVAL, which epoll does not report; updating a channel
  whose index is kDeleted always adds it, as in the code.
- Buffers: `shrink`, `findCRLF` and the growth policy of the vector beyond the size asked for.
- Connectors: the back-off delay of a retry; `retry` schedules nothing, as its `runAfter` is commented
  out, so a connector that has retried stays disconnected until it is restarted.
- UnitManagers: the counter is unbounded, the format holds one conversion, and other processes that
  overwrite keys through `sql_set` and `sql_unset` are left out.
- SetupKeeps: is about a counter that fits an `int`. A release of a port outside of the list changes
  nothing in the model, where the code writes outside of its vector; no unit in order has such a port.
- SpliceOthers: holds for keys that cannot be found across the quotes of the spliced head, as no
  identifier can; for a colon, or a key that starts with a comma, the scan may find the head itself.
- WaitPop: starts where the wait on the condition variable returns; the wait is part of the machine.
- StackFlows: request ids, the JSON that is sent back, `pause` and `taskinfo`; remote calls are
  reliable and answered at once; the second look at the session limit is a choice of the environment.
- NodeJobQueues: the engine is any sequence of callbacks; an index is unbounded; a refused job is
  answered in a step of its own.
- JsonScan: texts longer than an `int` can index; whether the text is well-formed JSON at all.
- StreamMessages, Envelopes: texts are valid UTF-8, on others printing throws; a stream has at most as
  many messages as an `int` counts. Data that is empty is reported as an error by the caller before
  `decode_stream` is called, which counts as throwing; what the caller does after an error is left out.
- Sse: `TextDecoder`, `JSON.parse` and `fetch` are parameters or assumed; chunks are of decoded text;
  white space for `trim` is the fixed set of the language standard.
- Gateway: the JSON encoder is any function that writes one line, and the parser any that reads it
  back; the client's own loop and its time-outs are left out.
- Wav: Python's `wave` module is modelled by what it finds in a file with the header that is written;
  float resampling and playback are left out.
- Not modelled at all: ZeroMQ, ALSA, the speech and language engines, the user interface, scripts,
  `select_json_str`, `unicode_to_utf8` and the choice of the next loop.
