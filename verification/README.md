# Netmux, modelled and proved in Dafny

Netmux is a C++ network library of the "one event loop per thread" kind. This project
models its four connected cores and two small programs from `NPtest/`, and proves what
they keep over every run and every interleaving. `dafny verify dfyconfig.toml` checks all
of it.

| file | what it models | form |
|---|---|---|
| `EventLoopProtocol.dfy` | the functor queue and eventfd wake-up protocol between the loop thread and any number of other threads | state machine, one step per access to shared state |
| `EventLoop.dfy` | `EventLoop` as the loop thread executes it; its ghost trace is a run of the state machine | class |
| `Registration.dfy` | one channel's status, mask, hash entry and kernel entry, over any sequence of calls | functions |
| `Poller.dfy` | `Channel` and `EPollPoller`, with the kernel's interest set as a ghost map | classes |
| `BufferModel.dfy`, `Buffer.dfy` | the byte buffer: its meaning and laws over runs, and the two-cursor vector itself | functions; class over an array |
| `Connection.dfy` | `TcpConnection`: handlers, state and registration of its channel | functions; class |
| `OneConnection.dfy` | one connection of the life cycle: registration, state, holders, calls queued for it | state machine over events |
| `Lifecycle.dfy` | one server, any number of loops and connections, shared ownership, destruction across threads; each of its steps is one event of every connection | state machine |
| `Lifetime.dfy` | what holds over all its runs, as written and as intended | theorems |
| `SendOrder.dfy` | `send` and `shutdown` called by any number of threads, and in place by whole calls | state machine; class |
| `Server.dfy`, `ThreadPool.dfy` | `TcpServer` on its own thread; round-robin choice of a loop | classes |
| `StartHandshake.dfy` | publishing a loop built on another thread's stack | state machine |
| `EventBus.dfy` | the condition-variable event bus | state machine |
| `SocketOwnership.dfy` | the movable, descriptor-owning `Socket` | classes |

## How the model reads the code

* A critical section of a mutex, one load or store of an atomic, and one read or write of
  the eventfd are each one step. Functors and handlers are lists of loop calls.
* System calls are steps with their stated range of results. `epoll_wait` has no timeout in
  the model, so a wake-up has to be earned. `readv` over no bytes returns 0, as on Linux.
* Where the code departs from what it is evidently for, the code is kept and the exact
  condition under which it does its job is proved:
  * line 109 of `EventLoop.cc` writes no wake-up for what the loop thread queues before
    `loop()`, and line 52 wipes an earlier `quit()`;
  * `EventLoop::removeChannel` forwards to `updateChannel`, so `Channel::remove` usually
    puts a channel back into the interest set;
  * `TcpServer::removeConnection` posts itself, so it never returns and never erases;
  * a hang-up and an end of file in one dispatch close twice, and the second `disableAll`
    registers the channel again; this takes a hang-up reported without input to a channel
    that asks for input, which the interface of `epoll_wait` permits and Linux TCP does not
    do, so what holds without such a report is proved as well;
  * `readFd` passes a comparison as the number of buffers, so a full vector, or one with
    64 KiB of slack, reads as the peer's close;
  * `shutdown` tests and stores in two steps, so a close in between is undone;
  * `startLoop` returns the field, read without the lock.
* The life-cycle files and `Connection.dfy` take a flag `written`: true is the code as it
  stands, false is the code with `removeConnection` posting `removeConnectionInLoop` and
  `removeChannel` reaching the poller. The order of callbacks and states is proved of both.
  Lifetime is proved of the second, whatever pointers user code keeps; of the first, exactly
  when it fails is proved: the last pointer can be dropped by another thread, that of
  `~TcpServer` or one of user code, while the loop has the channel, which `remove()` put
  back, in its active list.
* A connection that loses its last pointer is freed in that step, and its `Socket` closes
  the descriptor, which no one duplicates, so the kernel forgets it. That a freed channel is
  in no interest set is therefore built in; `FreedRegisteredExactly` says when it is not
  there already. Dispatching a freed channel has no meaning, and the model no step for it.
* The queue of a loop in `Lifecycle.dfy` and `SendOrder.dfy` is one list, of which a prefix
  is the current batch; `EventLoopProtocol.ExactlyOnceFifo` is what permits that.

## Model

| member | source | states |
|---|---|---|
| EventLoopProtocol.NoLostWakeup | Netmux/reactor/EventLoop.cc:104-112 | in every reachable state where the loop thread is about to block or blocked with functors pending, the eventfd is readable or some thread has yet to write it, unless all that is pending was queued by the loop thread before `loop()` and no swap has happened |
| EventLoopProtocol.PreLoopQueueingIsLostExactly | Netmux/reactor/EventLoop.cc:109-111 | for every n: a run sleeps on n functors with no wake-up coming if and only if n > 0 of them were queued by the loop thread before `loop()` |
| EventLoopProtocol.QueueBeforeLoop | Netmux/reactor/EventLoop.cc:104-112 | for every list of functors there is a run in which the loop thread queues exactly them, in order, before `loop()` and the eventfd is still unwritten |
| EventLoopProtocol.ExactlyOnceFifo | Netmux/reactor/EventLoop.cc:127-138 | executed functors, the rest of the batch and the pending queue are together all `queueInLoop` calls in lock order |
| EventLoopProtocol.ProducerOrderKept | Netmux/reactor/EventLoop.cc:104-108 | each thread's functors are executed in the order in which that thread queued them |
| EventLoopProtocol.DeliveredByNextBatch | Netmux/reactor/EventLoop.cc:127-136 | over any stretch of a run: everything queued at its start is taken by the next swap and executed once that batch ends |
| EventLoopProtocol.BatchIsExact | Netmux/reactor/EventLoop.cc:127-136 | a batch runs exactly the functors pending at its swap, whatever is queued meanwhile |
| EventLoopProtocol.LeftAtExitExactly | Netmux/reactor/EventLoop.cc:54-65 | once `loop()` has returned, what was and ever will be executed is exactly what had been queued up to the last swap; all later functors stay in the queue |
| EventLoopProtocol.QueuedBeforeQuitIsLost | Netmux/reactor/EventLoop.cc:67-72 | a run in which another thread queues a functor and then calls `quit()`, and the loop ends without running it |
| EventLoopProtocol.QuitSeenExactlyAfterStart | Netmux/reactor/EventLoop.cc:50-72 | once `loop()` runs, `quit_` is set if and only if some `quit()` came after line 52; the loop ends only then |
| EventLoopProtocol.QuitBeforeLoopIsLost | Netmux/reactor/EventLoop.cc:50-57 | a run in which `quit()` precedes line 52 and the loop blocks all the same |
| EventLoopProtocol.QuitNeverMissed | Netmux/reactor/EventLoop.cc:54-80 | from any state with `quit_` set: it stays set, a blocked loop thread is being woken, and poll returns at most once more, and not at all if the thread was outside poll |
| EventLoopProtocol.TaskProgress | Netmux/reactor/EventLoop.cc:54-62 | while the k-th queued functor waits, every loop-thread step lowers a well-founded measure of its distance to execution and other threads' steps leave it alone, self-requeueing functors included |
| EventLoopProtocol.ExitProgress | Netmux/reactor/EventLoop.cc:54-65 | with `quit_` set, every loop-thread step lowers the distance to the return of `loop()` |
| EventLoopProtocol.NeverStuck | Netmux/reactor/EventLoop.cc:54-112 | with only the eventfd to wake it, a running loop with work or a quit request always has a step, or gets one from a wake-up some thread still owes |
| EventLoopProtocol.SelfPostNeverReturns | Netmux/TcpServer.cc:88-90 | a functor that posts itself to its own loop never returns: from then on nothing else is executed and the queue only grows |
| EventLoopProtocol.CallsNest | Netmux/reactor/EventLoop.cc:95-97 | from a state in which `rest` follows a call, and until the call has returned, whatever other threads do: `rest` is still all to be done, and no handler and no functor starts |
| EventLoopProtocol.PostedQueuesFirst | Netmux/reactor/EventLoop.cc:95-97 | over every run from a `postInLoop` on the loop thread to its return, the loop thread queues exactly what the posted functor requests, so all of that precedes what the caller queues later |
| EventLoopProtocol.RequestsAppend | Netmux/reactor/EventLoop.cc:95-102 | the requests of a body are those of its parts, in order |
| EventLoopProtocol.RequestsOfAction | Netmux/reactor/EventLoop.cc:95-102 | one `queueInLoop` requests its functor, one `postInLoop` what its functor requests, anything else nothing |
| EventLoopProtocol.HandlerRequestsAppend | Netmux/reactor/EventLoop.cc:58-60 | what the handlers of a dispatch request is what each requests, in their order; the wake-up handler requests nothing |
| EventLoopProtocol.BatchRequestsAppend | Netmux/reactor/EventLoop.cc:134-136 | what a batch requests is what the body of each functor requests, in their order |
| EventLoops.EventLoop.QueueInLoop | Netmux/reactor/EventLoop.cc:104-112 | one functor appended; one wake-up written exactly for foreign callers and during a batch; a run of the protocol |
| EventLoops.EventLoop.Quit | Netmux/reactor/EventLoop.cc:67-72 | the flag set, a wake-up written exactly for foreign callers; a run of the protocol |
| EventLoops.EventLoop.Wakeup | Netmux/reactor/EventLoop.cc:74-80 | the wake-up step of a foreign thread or of the loop thread in a batch; after it a poll is bound to return, even if the write failed on a full counter; a run of the protocol |
| EventLoops.EventLoop.HandleRead | Netmux/reactor/EventLoop.cc:118-124 | the handler's step: all wake-ups written so far are taken at once, so poll needs a new one, and what they announced is still queued; a run of the protocol |
| EventLoops.EventLoop.Execute | Netmux/reactor/EventLoop.cc:95-102 | a body run to its end leaves exactly its requests at the end of the queue, those of a functor it posts before those it makes afterwards; a run of the protocol |
| EventLoops.EventLoop.RunBatch | Netmux/reactor/EventLoop.cc:134-136 | all of the batch executed in order; the queue grows by exactly what it requested |
| EventLoops.EventLoop.DoPendingFunctors | Netmux/reactor/EventLoop.cc:127-138 | exactly the pending functors executed, in order; the new queue is exactly what they requested; the flag lowered; a run of the protocol |
| EventLoops.EventLoop.DispatchAll | Netmux/reactor/EventLoop.cc:58-60 | every handler run in order, no functor executed, and the queue grown by exactly what the handlers requested |
| EventLoops.EventLoop.Turn | Netmux/reactor/EventLoop.cc:54-62 | one turn of the loop executes exactly what was pending at its start and then what its handlers queued, in order, and leaves exactly what these requested |
| EventLoops.EventLoop.constructor | Netmux/reactor/EventLoop.cc:23-41 | a new loop is in the protocol's initial state, and its wake-up channel, on its own descriptor, is registered for reading with its own poller |
| Registration.MirrorOverRun | Netmux/reactor/EPollPoller.cc:62-119 | after any sequence of setters and removals, status, hash map and interest set agree and the kernel's mask is the channel's; every `epoll_ctl` issued on the way was legal |
| Registration.UpdateRestoresMirror | Netmux/reactor/EPollPoller.cc:62-81 | `updateChannel` makes kernel and channel agree again after any change of mask, by a legal call; it keeps the mask, and takes the channel out of the interest set if and only if it was added and wants nothing |
| Registration.RemoveForgets | Netmux/reactor/EPollPoller.cc:83-92 | `removeChannel` leaves no entry in either table, by a legal call |
| Registration.SettersExactly | Netmux/reactor/Channel.h:27-30 | each of the four setters sets or clears all of its own bits and leaves the others |
| Registration.IssuedIsPlayed | Netmux/reactor/EPollPoller.cc:62-92 | the calls of `epoll_ctl` issued by a setter or a removal are exactly those that turn the old interest set into the new |
| Registration.WrittenRemoveUnregistersExactly | Netmux/reactor/EventLoop.cc:86-88 | `remove()` as written takes the channel out of the interest set if and only if it was added with an empty mask, and never out of the hash map |
| Registration.TeardownExactly | Netmux/reactor/EventLoop.cc:44-45 | of these two calls alone, before any close of the descriptor: after any history, `disableAll(); remove()` as written leaves the channel registered if and only if it was registered before; as intended it forgets it |
| Registration.CallbacksWithinMask | Netmux/reactor/Channel.cc:54-78 | reads and writes are dispatched only to channels whose mask asks for them |
| Registration.CallbacksExactly | Netmux/reactor/Channel.cc:57-77 | for each of the four callbacks, exactly which reports run it; each runs once, in the order close, error, read, write |
| Registration.CloseThenReadExactly | Netmux/reactor/Channel.cc:57-72 | close and read callbacks both run for one report exactly on a hang-up with priority data and no input |
| Pollers.Channel.Change | Netmux/reactor/Channel.h:27-31 | a mask setter's whole effect on its channel, with every other channel untouched and all channels mirrored by the kernel |
| Pollers.Channel.Remove | Netmux/reactor/Channel.cc:42-44 | `remove()` as written: the effect of `updateChannel` |
| Pollers.Channel.Unregister | Netmux/reactor/EPollPoller.cc:83-92 | `remove()` as intended: the effect of `removeChannel` |
| Pollers.EPollPoller.UpdateChannel | Netmux/reactor/EPollPoller.cc:62-81 | the branch structure of `updateChannel`; each `epoll_ctl` legal where issued; mirror restored for all channels |
| Pollers.EPollPoller.RemoveChannel | Netmux/reactor/EPollPoller.cc:83-92 | the channel forgotten, the others untouched |
| Pollers.EPollPoller.HasChannel | Netmux/reactor/Poller.cc:10-13 | true exactly for channels whose status is not kNew |
| Pollers.EPollPoller.Poll | Netmux/reactor/EPollPoller.cc:39-60 | the active list is the reported channels in order, all registered and within their masks; the array doubles exactly when filled, is always 16 * 2^k and never beyond 16 or twice the peak of registered descriptors |
| Pollers.EPollPoller.FillActiveChannels | Netmux/reactor/EPollPoller.cc:97-103 | exactly the reported channels get their reported events |
| Pollers.EPollPoller.ReportsBounded | Netmux/reactor/EPollPoller.cc:42-50 | a poll never reports more channels than are registered |
| BufferModel.BufferIsFifo | Netmux/Buffer.h:15-44 | over any sequence of calls, bytes taken out followed by bytes readable are the bytes put in, in order, with the cursors in bounds |
| BufferModel.SpaceBound | Netmux/Buffer.cc:37-39 | over any sequence of calls the vector is never longer than it began or than twice the peak demand plus 7, and never shrinks |
| BufferModel.GrowsExactly | Netmux/Buffer.cc:37-46 | a call lengthens the vector if and only if the bytes it would have to hold do not fit behind the prepend; what fits behind the readable bytes goes there without moving them |
| BufferModel.MakeSpaceMakesRoom | Netmux/Buffer.cc:37-46 | both branches leave room for the request, keep the bytes and do not shrink the vector |
| BufferModel.CompactionMovesDown | Netmux/Buffer.cc:41-44 | when compaction is reached the data moves strictly down, so an ascending copy is right |
| BufferModel.ReceiveKeepsBytes | Netmux/Buffer.cc:18-25 | for every byte count the read appends all its bytes, spilled or not |
| BufferModel.FalseEndOfFileExactly | Netmux/Buffer.cc:11-17 | with bytes waiting, `readFd` returns 0 if and only if the vector is full or has at least 64 KiB of slack |
| BufferModel.FalseEndOfFileIsReachable | Netmux/Buffer.cc:8-21 | 1024 unread bytes in a default buffer are such a state, and the next read returns 0 with bytes waiting |
| BufferModel.RetrieveFrees | Netmux/Buffer.h:19-26 | a call that takes everything readable leaves all of the vector but the prepend writable; one that takes less leaves the writable bytes as they were |
| BufferModel.FreshTakes | Netmux/Buffer.h:10-16 | a new buffer has nothing readable and exactly its initial size writable |
| BufferModel.FirstReadDeliversAll | Netmux/Buffer.cc:8-27 | the first read of a new buffer gets all that is waiting, if it fits, is under 64 KiB and the kernel gives it |
| BufferModel.DrainedReadsExactly | Netmux/Buffer.h:19-26 | after any sequence of calls, a buffer that has just been drained finds waiting bytes if and only if its vector has some room and less than 64 KiB of it |
| BufferModel.DrainingHandlerIsSafe | Netmux/Buffer.cc:8-27 | a handler that takes everything on each call never sees a false end of file: after any number of rounds, whatever was waiting and however the kernel split it, the next read finds what fits |
| Buffers.Buffer.constructor | Netmux/Buffer.h:10-14 | an empty buffer with the prepend reserved and exactly the initial size writable |
| Buffers.Buffer.CopyDown | Netmux/Buffer.cc:42 | the in-place ascending copy of possibly overlapping ranges moves the readable bytes intact |
| Buffers.Buffer.Resize | Netmux/Buffer.cc:39 | the longer vector keeps every old byte |
| Buffers.Buffer.MakeSpace | Netmux/Buffer.cc:37-46 | room for the request, same contents |
| Buffers.Buffer.EnsureWriteableBytes | Netmux/Buffer.h:35-39 | room for the request, same contents |
| Buffers.Buffer.Append | Netmux/Buffer.h:40-44 | the bytes added after those readable |
| Buffers.Buffer.ReadFd | Netmux/Buffer.cc:8-27 | for every result of `readv`, errors and spill included, the return value and the new buffer |
| Buffers.Buffer.Retrieve | Netmux/Buffer.h:20-26 | the first bytes dropped and the writable bytes unchanged, or, if no more are readable, everything dropped and all of the vector but the prepend writable |
| Buffers.Buffer.RetrieveAll | Netmux/Buffer.h:19 | nothing readable, and all of the vector but the prepend writable |
| Buffers.Buffer.RetrieveAsString | Netmux/Buffer.h:27-31 | the bytes under the cursor, which are the next bytes of the queue if and only if that many are readable |
| Buffers.Buffer.RetrieveAllAsString | Netmux/Buffer.h:32-34 | everything readable; nothing is left, and all of the vector but the prepend is writable |
| Connections.DestroyedLeavesNothing | Netmux/TcpConnection.cc:63-70 | `connectDestroyed` with a working `remove()` leaves the channel unregistered and unhashed from any state |
| Connections.DestroyedIsNotConnected | Netmux/TcpConnection.cc:63-70 | as written and as intended, `connectDestroyed` leaves a connected connection disconnected and any other in its state, so none in which `send` or `shutdown` is accepted |
| Connections.WrittenDestroyUnregistersExactly | Netmux/TcpConnection.cc:63-70 | `connectDestroyed` as written: the exact condition under which the channel is out of the interest set afterwards |
| Connections.DispatchExactly | Netmux/reactor/Channel.cc:54-78 | one dispatch disconnects exactly on a hang-up or an end of file, and leaves the channel registered again exactly when it sees both |
| Connections.DoubleCloseIsReportable | Netmux/reactor/Channel.cc:57-72 | a report within a connection's mask that hangs up without input and leaves the channel registered again |
| Connections.LiveConnectionClosedExactly | Netmux/TcpConnection.cc:137-149 | a connected peer with bytes waiting is disconnected by `handleRead` if and only if the input buffer is full or has at least 64 KiB of slack |
| Connections.TcpConnection.HandleRead | Netmux/TcpConnection.cc:137-149 | bytes reach the buffer and the message callback, zero bytes close, an error changes nothing |
| Connections.TcpConnection.Established | Netmux/TcpConnection.cc:54-60 | connected, and reading enabled in the kernel |
| Connections.TcpConnection.Close | Netmux/TcpConnection.cc:160-167 | disconnected, and the channel updated with an empty mask |
| Connections.TcpConnection.HandleEvent | Netmux/reactor/Channel.cc:54-78 | in place, for every report and every result of the read: the callbacks of the report run in order, with their effect, bytes to the input buffer and the message callback exactly for those, the peer's end of file closing |
| Connections.TcpConnection.Destroyed | Netmux/TcpConnection.cc:63-70 | `connectDestroyed` as written, in place: the registration it leaves, and the state disconnected if it was connected |
| Connections.TcpConnection.DestroyedIntended | Netmux/TcpConnection.cc:63-70 | `connectDestroyed` with a working `remove()`, in place: the registration it leaves, and the state disconnected if it was connected |
| OneConnection.CalledIsDispatch | Netmux/reactor/Channel.cc:54-78 | running the callbacks of a report one step at a time, as the life cycle does, is the dispatch of `Connections` |
| OneConnection.EventKeepsInv | Netmux/TcpConnection.cc:54-70 | what every event of one connection keeps: call order, holders, the count of destructions, registration, and how often `handleClose` can still run |
| Lifecycle.StepFollows | Netmux/TcpServer.cc:80-97 | each step of server, loops and threads is, for each connection, exactly one of these events or none |
| Lifetime.NoDanglingChannel | Netmux/TcpServer.cc:35-97 | in every interleaving of the intended code, a connection whose channel the kernel or an undispatched active list points to is kept alive by some shared pointer, whatever pointers user code keeps and drops |
| Lifetime.DanglingAsWritten | Netmux/TcpServer.cc:35-42 | in every interleaving of the code as written: a channel without that is in an active list only, its `connectDestroyed` has run, `~TcpServer` has begun, and it is on another loop than the server's or user code kept a pointer |
| Lifetime.DanglingReachableExactly | Netmux/TcpServer.cc:35-42 | for every number n of loops: a run of the code as written to such a channel exists if and only if n > 1, or user code keeps a pointer and n > 0 |
| Lifetime.DropWhileReported | Netmux/TcpServer.cc:36-41 | for any number of loops above one, such a run: the destructor's local pointer outlives its post, and is the last to go |
| Lifetime.ReleaseWhileReported | Netmux/TcpServer.cc:36-41 | for any number of loops, such a run with a pointer kept by user code |
| Lifetime.FreedRegisteredExactly | Netmux/TcpConnection.cc:63-70 | when the last pointer goes, the channel is still registered, and left to the close of its descriptor, if and only if `remove()` is the written one, `handleClose` had not run exactly twice before `connectDestroyed`, and has run an even number of times since |
| Lifetime.FreedIsForgottenExactly | Netmux/reactor/EventLoop.cc:86-88 | a connection without shared pointers was established once, has been destroyed and is in no interest set; the hash map keeps the dead pointer if and only if `remove()` is the written one |
| Lifetime.EstablishedOnceThenDestroyed | Netmux/TcpServer.cc:35-42 | in the code as written and as intended: `connectEstablished` runs at most once, `connectDestroyed` only after it, on the destructor's path too; before it the connection is untouched and the call is on its way |
| Lifetime.DestroyIsOnItsWay | Netmux/TcpServer.cc:92-97 | a connection has left the map if and only if its `connectDestroyed` is queued, being queued, or has run |
| Lifetime.DestructorLeavesNone | Netmux/TcpServer.cc:35-42 | once `~TcpServer` has returned, every connection ever accepted has its `connectDestroyed` queued or run |
| Lifetime.DestroyedIsNeverConnected | Netmux/TcpConnection.cc:63-70 | in every run of the code as written and as intended: once `connectDestroyed` has run, the connection is not connected and the test of `shutdown()` cannot pass |
| Lifetime.SwapTakesTheQueue | Netmux/reactor/EventLoop.cc:130-133 | the batch of a loop begins as all of its queue |
| Lifetime.BatchRunsInOrder | Netmux/reactor/EventLoop.cc:127-136 | over any steps of any loops since a swap: with m of the n jobs of the batch left, the first n - m have each been run at its turn |
| Lifetime.BatchRunsWhatWasQueued | Netmux/reactor/EventLoop.cc:127-138 | when a batch can end, every job that was queued at its swap has been run in it, in its place |
| Lifetime.DestroyedOncePerClose | Netmux/TcpConnection.cc:160-167 | while the server serves there is exactly one `connectDestroyed`, run or on its way, for each run of `handleClose`; the destructor adds at most one, for a connection still in the map |
| Lifetime.ClosesBounded | Netmux/TcpConnection.cc:160-167 | before `connectDestroyed`, `handleClose` runs at most three times, and more than once only after a hang-up was dispatched without the input its mask asked for |
| Lifetime.RankDropsExactly | Netmux/TcpConnection.cc:84-89 | in the code as written and as intended: a step lowers a connection's state if and only if it is the store of a `shutdown()` whose connection was disconnected since the test |
| Lifetime.RankDropIsReachable | Netmux/TcpConnection.cc:84-89 | a run in which that happens |
| Lifetime.DoubleCloseIsReachable | Netmux/TcpConnection.cc:137-149 | a run in which one dispatch runs `handleClose` twice and registers the channel again |
| Lifetime.WrittenNeverErases | Netmux/TcpServer.cc:88-90 | as written, while the server serves its map keeps every connection ever accepted |
| Lifetime.WrittenDestroyInRun | Netmux/TcpConnection.cc:63-70 | over every run of the code as written: `connectDestroyed` runs at most once, and takes the channel out of the interest set if and only if `handleClose` has run exactly twice before it, so never without a bare hang-up |
| Lifetime.WrittenLeavesDeadPointer | Netmux/TcpServer.cc:35-42 | as written, a run in which destroying the server puts a live connection's channel back into the interest set and, once the connection is freed, leaves its pointer in the hash map |
| SendOrder.CallsKeepOrder | Netmux/TcpConnection.cc:73-89 | of each thread's accepted calls: executed, queued and in flight are together all of them, in order |
| SendOrder.SendsPrecedeShutdown | Netmux/TcpConnection.cc:73-89 | once a thread's `shutdownInLoop` has executed, the log holds all that thread's accepted calls, sends first and that shutdown last |
| SendOrder.NothingAcceptedAfterShutdown | Netmux/TcpConnection.cc:73-89 | after its accepted `shutdown()` no call of that thread is accepted |
| SendOrder.Outbound.Send | Netmux/TcpConnection.cc:73-81 | accepted exactly when connected; then executed at once on the loop's thread and queued on any other, so that all the thread got accepted is executed or queued, in order; nothing after its `shutdown()`; a run of the machine |
| SendOrder.Outbound.Shutdown | Netmux/TcpConnection.cc:84-89 | the same for `shutdown()`, which comes after the thread's sends; the state disconnecting; a run of the machine |
| SendOrder.Outbound.RunQueue | Netmux/reactor/EventLoop.cc:134-136 | the queue run empty, everything in it executed in order; a run of the machine |
| Servers.AssignedEvenly | Netmux/TcpServer.cc:58-60 | of all connections accepted, no loop was given two more than another |
| Servers.TcpServer.NewConnection | Netmux/TcpServer.cc:58-86 | a fresh name in the map, the loop whose turn it is, and one `connectEstablished` posted there before anything else for that connection |
| Servers.TcpServer.RemoveConnectionInLoop | Netmux/TcpServer.cc:92-97 | the connection erased and one `connectDestroyed` queued on its own loop |
| Servers.TcpServer.Destruct | Netmux/TcpServer.cc:35-42 | one `connectDestroyed` for each connection in the map, on its own loop, and for no other |
| ThreadPool.EventLoopThreadPool.GetNextLoop | Netmux/reactor/EventLoopThreadPool.cc:15-22 | the i-th call returns `loops[i mod n]`, or the main loop when there are none; the index stays in range |
| ThreadPool.EventLoopThreadPool.Start | Netmux/reactor/EventLoopThreadPool.cc:25-37 | one thread and one loop for each `startLoop`, in order; the init callback runs on the main loop if and only if there are no threads and there is a callback |
| ThreadPool.ShareOf | Netmux/reactor/EventLoopThreadPool.cc:17-20 | how often each loop is chosen by the first k calls, exactly |
| ThreadPool.RoundRobinIsFair | Netmux/reactor/EventLoopThreadPool.cc:17-20 | between floor(k/n) and ceil(k/n) times each, within one of each other |
| StartHandshake.PublishedIsUsable | Netmux/reactor/EventLoopThread.cc:23-53 | in every interleaving, a published loop is alive and initialised, the parent does not sleep on it, and the pointer captured under the lock is not null |
| StartHandshake.StartFailsExactlyOnEarlyExit | Netmux/reactor/EventLoopThread.cc:28-33 | `startLoop` is stranded or returns null if and only if the child's loop ended before it returned |
| StartHandshake.EarlyExitIsReachable | Netmux/reactor/EventLoopThread.cc:28-33 | runs showing both failures |
| EventBus.InvokeInOrder | NPtest/loop/EventLoopExample.cpp:55 | the invocations an event gives rise to are its handlers, each once, in registration order, with the event's data |
| EventBus.CallbackTrace | NPtest/loop/EventLoopExample.cpp:45-59 | in every interleaving the invocations are a prefix of the handlers, in registration order, of the emissions up to the first EXIT; all of them once `loop()` returns |
| EventBus.ProcessedThenQueued | NPtest/loop/EventLoopExample.cpp:36-52 | processed events followed by queued ones are the emitted ones, in lock order |
| EventBus.CallbacksEmit | NPtest/loop/EventLoopExample.cpp:36-55 | in every interleaving the consumer's own emissions, then those the current callback has still to make, are in order what the invoked callbacks emit; between events they are all of it |
| EventBus.ThreadEmits | NPtest/loop/EventLoopExample.cpp:36-42 | a thread's `emit` puts its own event, with its data, behind all others, and is no callback's emission |
| EventBus.NeverLeftWaiting | NPtest/loop/EventLoopExample.cpp:36-48 | while the consumer sleeps, each queued event comes from a thread that has yet to notify for it, whatever the other emitters are doing |
| SocketOwnership.Owners.Construct | NPtest/simple/TcpSocket.h:12-13 | for any number: ownership stays sound if and only if it is -1 or an open descriptor no live socket owns |
| SocketOwnership.Owners.MoveConstruct | NPtest/simple/TcpSocket.h:21-23 | ownership moves, nothing is closed, and open descriptors all owned stay so |
| SocketOwnership.Owners.MoveAssign | NPtest/simple/TcpSocket.h:24-31 | the old descriptor closed once and the other's taken over; self-assignment changes nothing; open descriptors all owned stay so |
| SocketOwnership.Owners.Destroy | NPtest/simple/TcpSocket.h:14-16 | the owned descriptor, if any, closed once; open descriptors all owned stay so |
| SocketOwnership.Owners.AcceptClient | NPtest/simple/TcpSocket.h:86-90 | a socket owning the accepted descriptor, or an exception and nothing owned; open descriptors all owned stay so |
| SocketOwnership.Owners.OneOwnerEach | NPtest/simple/TcpSocket.h:12-31 | with all open descriptors owned, which every method but a bare constructor keeps: each has exactly one owner, no closed one has any, and each was opened as often as it was closed plus once for its owner |
| SocketOwnership.Owners.OwnersAreUnique | NPtest/simple/TcpSocket.h:12-13 | also with descriptors not yet wrapped: no descriptor has two owners, and no closed one has any |

## Left out

- Delivery to the peer in `sendInLoop` and `handleWrite` (Netmux/TcpConnection.cc:95-129, 151-157): leftover bytes are never appended and writing is never enabled, so there is no stream to conserve.
- The lifetime of what cross-thread closures point to: the string of `send` is an owned value, and the raw `this` in `sendInLoop` and `shutdownInLoop` closures is not tracked.
- Lifetime.NoDanglingChannel: does not speak of the code as written, of which it is false; `DanglingAsWritten` and `DanglingReachableExactly` do.
- Lifetime.DanglingAsWritten: a close callback that outlives the server does nothing, where the code would call a destroyed server; a queued removal that does so is run as if the server were there in the code as written, and does nothing in the intended code; the server is not destroyed during a dispatch of its own loop; loops do not end, and what they would leave behind is `EventLoopProtocol.LeftAtExitExactly`.
- Lifetime.FreedIsForgottenExactly: descriptor numbers are not reused, so a dead pointer stays in the hash map where a later connection with the same number on the same loop would replace it.
- Servers.TcpServer.NewConnection: connection names are the numbers that make them unique; overflow of the 32-bit counter is not modelled, and a closure for the server's own loop is listed as posted although it runs at once.
- Buffers.Buffer.RetrieveAsString: the caller stays inside the vector; reading past its end has no meaning in the source.
- EventLoopProtocol.NoLostWakeup: a second `loop()` on the same object is not modelled.
- EventLoops.EventLoop.DoPendingFunctors: the method runs without other threads in between; interleavings are the subject of the state machine that its trace is a run of.
- Pollers.EPollPoller.Poll: time-outs, EINTR and other failures of `epoll_wait` return no event and change nothing.
- Size arithmetic near 2^64 in the buffer and the overflow of the result array's length.
- `Acceptor`, `InetAddress`, `Logger`, `Timestamp`, `Thread`, `CurrentThread` and `Acceptor/Socket`: wrappers and wiring.
- `TcpServer::start`, user callbacks' own behaviour beyond what they queue, and `EventLoop::hasChannel`, which returns nothing.
- The programs in `NPtest/iomux` and the C programs in `NPtest/simple`: single loops over system calls.
- Handlers registered on the event bus while its loop runs.
