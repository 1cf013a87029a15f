# A model of the RDMA capsule in Dafny

The capsule connects machines over RDMA: sockets that exchange queue pair numbers over TCP, a
daemon that makes one sender and two receivers believe they talk to each other while a switch
multiplies packets, a dispatcher that owns queue pairs and receive memory, an event loop,
benchmark clients and servers with flow control, statistics, and a JSON printer. This project
models the hard part of each and proves what it promises over all inputs and all runs.

Each component that changes state has two layers. Values and functions say what a step does; a
class with the source's fields and loops is proved equal to those functions, method by method.
Concurrency is a state machine over single steps, and a run is any sequence of enabled steps.
`None`, `Aborted`, `AssertFailed` or a false `ok` stands for a failed assertion or `abort()`, so
"the step is never `None`" says that the assertion cannot fire.

| file | component |
|---|---|
| `Common.dfy` | options, distinct sequences, concatenation, sums, products and quotients |
| `Socket.dfy`, `Link.dfy`, `DirectHandshake.dfy` | the three-message exchange between two sockets |
| `Multicast.dfy`, `MulticastHandshake.dfy`, `MulticastCompletes.dfy` | the daemon, with any number of sessions at once |
| `Metadata.dfy` | the text that carries connection metadata |
| `QpRegistry.dfy`, `RxMemory.dfy`, `Dispatcher.dfy`, `DispatcherRuns.dfy`, `OrderlyClose.dfy`, `RdmaDispatcher.dfy`, `RxDelivery.dfy` | queue pairs, receive chunks and received data |
| `EventLoop.dfy`, `EventFairness.dfy`, `Timers.dfy`, `FileEvents.dfy` | the event centre |
| `AckRing.dfy`, `Chain.dfy`, `TxPool.dfy` | replication flow control and transmit chunks |
| `AvgCounter.dfy`, `HistogramAxis.dfy`, `HistogramCells.dfy` | statistics |
| `JsonText.dfy`, `JsonFormatter.dfy` | the JSON printer |

What the environment is taken to do:

- TCP delivers whole messages in order; a callback is one step.
- The hardware gives existing queue pairs distinct numbers, completes posted receives and sends once
  each, in any order, and drops a queue pair's unpolled completions and its beacon
  when the queue pair is destroyed. A completion with an error status ends the run, as the code
  aborts on it.
- A write to the notify pipe marks it ready and sets epoll's pending edge; a wait reports the
  pipe if it has unread bytes and, for epoll, a pending edge. A full pipe refuses the write.
- Clocks do not run backwards. Each replica completes sends in order.
- In the runs of the multicast model the daemon's messages get out; the callbacks by themselves are
  given with both outcomes, as a failed write ends the daemon.

Where the code does less than it seems to promise, the condition is exact:

- `DirectHandshake.NumberMustBeReal`: assertions hold in every run exactly if the server's queue
  pair number is not 0.
- `DirectHandshake.AgreementExact`, `MulticastHandshake.MulticastAgreementExact`: a ready server or
  receiver is active exactly if it has not been closed since it became ready.
- `MulticastCompletes.PromiseIffAboveZero`: the daemon keeps its promise in every run exactly if
  group numbers start above 0 and there are enough of them below 2^32. A daemon that starts at 0, as
  its random start allows, has a run in which a sender is connected to peer number 0 while the daemon
  has it in group 1, and so has one whose numbers wrap to 0. Group 2 works, but its switch entry is
  not written.
- `Multicast.FailsIffUnwritten`: a callback that is right otherwise fails exactly if a message that
  is due does not get out.
- `Dispatcher.ChunksNeverLost`: a next step fails exactly if it is one of three that the code does not
  guard. The polling thread calls the socket of a send completion although the lookup found none, or
  although the socket it found has been destroyed since, no lock being held; or the pool has some
  chunks but not as many as a new receive queue takes. `DispatcherRuns` has a run for each.
- `OrderlyClose.SafeIffOrderly`: in a run without hardware faults the first two cannot follow, however
  the run goes on, exactly if each socket begins to close with none of its sends posted, unpolled,
  unhandled or about to be called. `close` itself posts one such send.
- `Dispatcher.ExitIff`: the exit test reads count, stop flag and dead list one after the other without
  the lock. When the polling thread has ended, the destructor's assertions hold exactly if no queue
  pair was registered since that test read the count; `DispatcherRuns.EarlyExit` is a run in which one was.
- `EventLoop.ExecutedIffFree`: a callback queued while a thread holds the lock is executed exactly if
  that thread is let out of its critical section, which without pollers always happens;
  `EventFairness.PollersCanStarve` is a schedule with pollers on which it does not.
- `AckRing.RingExactIff`: the 128-slot ring is truthful in every run exactly if at most 128
  requests can be outstanding or there is one replica.
- `Chain.RequestFitsIff`: a relayed request can be filled exactly if it needs at most 128 chunks,
  since a request holds its chunks until all of them are filled.
- `HistogramAxis.AgreeIffSafe`: buckets and published ranges agree on every 64-bit value exactly
  on the axes that `Safe` describes; on others subtraction or increment overflows.
- `HistogramCells.VisitsExactIff`: the traversal visits the right cells exactly if there are at most
  2^31 of them, as its index has 32 bits.
- `HistogramAxis.PublishedTileIff`: the published ranges tile the 64-bit values exactly if there is one
  bucket, or the minimum is not the least value and the last inner bucket ends inside them.
- `TxPool.ServedIffUncut`: a request is filled exactly if the number of its chunks fits 32 bits and the
  sum it is computed from fits 64.
- `TxPool.WellFilledIff`: a cluster gets all its chunks, each with its buffer inside, exactly if it
  is smaller than 4 GiB.
- `FileEvents.CallbackInstalled`: registering the mask a descriptor already has keeps the old callback.
- `FileEvents.GrowthEnds`: the table's growth loop ends exactly if the table is not empty.
- `Timers.ReturnsIffDelayed`: a call returns, whatever the timers and callbacks, exactly if every
  callback that creates timers gives them a positive delay.
- `JsonText.NameReadIffPlain`, `JsonFormatter.OutputReadIffPlain`: a name, and a whole output, is
  read back exactly if object names need no escaping.

## Model

| member | source | states |
|---|---|---|
| Sockets.ConnectedSocket.HandleConnectionEstablished | src/core/RDMAConnectedSocketImpl.cc:162-187 | the new socket state and the first message, or a failure, raised as a fault or only returned, as the caller asks |
| Sockets.ConnectedSocket.HandleConnection | src/core/RDMAConnectedSocketImpl.cc:189-243 | client activation and acknowledgement, server activation and reply, duplicate and acknowledgement branches, faults |
| Sockets.ConnectedSocket.DoActivate | src/core/RDMAConnectedSocketImpl.cc:111-126 | activation succeeds only from INIT and leaves the queue pair in RTS with the peer's number |
| Sockets.ConnectedSocket.ModifyQpToRtr | src/core/Infiniband.cc:222-257 | RTR is entered only from INIT |
| Sockets.ConnectedSocket.ModifyQpToRts | src/core/Infiniband.cc:188-220 | RTS is entered only from RTR |
| Sockets.ConnectedSocket.ReadData | src/core/RDMAConnectedSocketImpl.cc:245-281 | the read shortcut connects an active server; a close message is an error only on a connected socket |
| Sockets.ConnectedSocket.RaiseFault | src/core/RDMAConnectedSocketImpl.cc:568-573 | a fault sets the error and marks the socket connected |
| Sockets.ConnectedSocket.DoClose | src/core/RDMAConnectedSocketImpl.cc:562-566 | closing sets the error and deactivates |
| Links.ClientStep | src/core/RDMAConnectedSocketImpl.cc:162-281 | what a connecting socket guarantees whatever its peer writes is kept by every callback, and no assertion fails |
| Links.ServerStep | src/core/RDMAConnectedSocketImpl.cc:189-281 | the same for an accepting socket whose caller never repeats a first message |
| Links.ReadEffect | src/core/RDMAConnectedSocketImpl.cc:245-298 | a read connects an accepting socket that has replied and disarms its handshake callbacks; it brings an error exactly for a close message on a connected, active socket; nothing else changes |
| Links.FlagsIff | src/core/RDMAConnectedSocketImpl.cc:162-298 | for every callback, exactly when a socket is in error and when it is connected afterwards |
| Links.WritesExactly | src/core/RDMAConnectedSocketImpl.cc:162-243 | for every callback, exactly what is written: the opening message, the answer with the number just read, or nothing |
| Links.NumbersExactly | src/core/RDMAConnectedSocketImpl.cc:111-243 | queue pair, activity, numbers and the recorded messages change exactly when a message is answered, a message is read, or the socket is closed |
| Links.ArmedExactly | src/core/RDMAConnectedSocketImpl.cc:162-273 | exactly which callbacks are armed after every callback |
| DirectHandshake.HandshakeAgreement | src/core/RDMAConnectedSocketImpl.cc:162-273 | in every state of every run a connected client has a ready server and each names the other, a connected server is ready for that client, at most one reply is sent, and no callback fails |
| DirectHandshake.AgreementExact | src/core/RDMAConnectedSocketImpl.cc:111-126 | when the client is connected without error the server is ready for it, and active if and only if it has not been closed since |
| DirectHandshake.EveryRunExact | src/core/RDMAConnectedSocketImpl.cc:162-273 | every run has callbacks that explain it, and for them the exact agreement holds in each of its states |
| DirectHandshake.NumberMustBeReal | src/core/RDMAConnectedSocketImpl.cc:175-240 | no assertion fails in any run if and only if the server's number is not 0 |
| DirectHandshake.HandshakeCompletes | src/core/RDMAConnectedSocketImpl.cc:162-243 | some run connects both ends without error |
| DirectHandshake.ConnectedByRead | src/core/RDMAConnectedSocketImpl.cc:267-273 | some run connects the server by a read, and the acknowledgement in transit is never read |
| Multicast.MulticastDaemon.ProcessClientReadable | src/multicast/multicast.cc:32-127 | the first message opens a group and dials its members, the second must carry the group's number; other states fail the assertion |
| Multicast.MulticastDaemon.ProcessServerReadable | src/multicast/multicast.cc:161-207 | a receiver's message is recorded and acknowledged, and the sender answered when it was the last |
| Multicast.MulticastDaemon.ProcessServerWriteable | src/multicast/multicast.cc:312-326 | a member's connection coming up sends the sender's opening message if there is one |
| Multicast.MulticastDaemon.CheckAndSendHandshakeToClient | src/multicast/multicast.cc:209-271 | the switch is programmed with addresses and numbers and the sender answered exactly when both receivers are acknowledged; a failed write fails the assertion |
| Multicast.MulticastDaemon.SendHandshakeToServer | src/multicast/multicast.cc:273-308 | the message relayed to a receiver, the state assertion before it and the one after a failed write |
| Multicast.MulticastDaemon.GetMcIndex | src/multicast/multicast.h:187-194 | the linear search finds the member's place |
| Multicast.FailsIffUnwritten | src/multicast/multicast.cc:253-306 | a callback that succeeds when its messages get out fails if and only if one that is due does not |
| Multicast.OpensIff | src/multicast/multicast.cc:48-60 | a connection without a group gets one if and only if the next number is not taken |
| Multicast.MemberUpEffect | src/multicast/multicast.cc:312-326 | a member whose connection comes up is sent the opening message, or waits in CONNECTED if there is none; nothing else changes |
| MulticastHandshake.MulticastAgreement | src/multicast/multicast.cc:209-271 | in every run, with any number of sessions, a sender connected without error has the group number as peer, both receivers are ready with the sender's number, and the switch already holds exactly that group's entry, with its addresses |
| MulticastHandshake.MulticastAgreementExact | src/multicast/multicast.cc:209-271 | the same, and each receiver is active if and only if it has not been closed since it became ready |
| MulticastHandshake.EveryRunExact | src/multicast/multicast.cc:209-271 | every run has actions that explain it, and for them the exact agreement holds for every session and receiver in each of its states |
| MulticastHandshake.MulticastNeverFails | src/multicast/multicast.cc:113-127 | against peers that follow the handshake no assertion in the daemon or in a socket fails, whatever happens next |
| MulticastHandshake.AckTakenIff | src/multicast/multicast.cc:113-127 | in every run any second message of a sender is taken if and only if the sender has been answered, has not acknowledged, and the message names the group |
| MulticastHandshake.ReplyTakenIff | src/multicast/multicast.cc:161-207 | in every run any message of a receiver is taken, and recorded, if and only if the receiver has not been acknowledged; it is acknowledged if and only if the opening message has been sent |
| MulticastHandshake.DaemonDiscipline | src/multicast/multicast.cc:191-239 | no member is left in CONNECTED between steps, each group's switch entry is written once, and a receiver is sent 0 first and its own number second |
| MulticastCompletes.MulticastCanComplete | src/multicast/multicast.cc:32-326 | from any reachable state a session that has not begun can be brought to a sender connected without error, whatever the others have done |
| MulticastCompletes.ZeroGroupMisleads | src/multicast/multicast.cc:13-60 | from first number 0 some run connects a sender without error to peer number 0 while the daemon has it in group 1 |
| MulticastCompletes.WrappedMisleads | src/multicast/multicast.cc:48-60 | with more sessions than numbers left some run connects the sender that gets the wrapped number, without error, to peer number 0 |
| MulticastCompletes.PromiseIffAboveZero | src/multicast/multicast.cc:13-127 | the agreement holds for every session in every state of every run if and only if numbers start above 0 and those of all sessions stay below 2^32 |
| Metadata.MessageRoundTrip | src/core/Infiniband.cc:401-421 | the parser inverts the variable-width and the padded printer on all field values, whatever follows the terminator in the buffer |
| Metadata.MessageFits | src/core/Infiniband.h:34 | every message with its terminator fits the buffer, and a padded one fills it |
| Metadata.MessageText | src/core/Infiniband.cc:419-421 | which field stands where in a message, in which width, and how they are separated |
| Metadata.ReceiveRefuses | src/core/Infiniband.cc:387-397 | no bytes are a disconnection, and any number but 93 is a bad length |
| Metadata.ScanPrinted | src/multicast/multicast.cc:245-284 | any list of fields printed either way is scanned back |
| Metadata.GidRoundTrip | src/core/Infiniband.cc:360-374 | the gid codec returns every 16-byte value through 32 digits |
| Metadata.GidDigits | src/core/Infiniband.cc:372-374 | the two digits of byte i stand at place 2i, high one first |
| Metadata.GidToWireBuffer | src/multicast/multicast.h:24-26 | the loop over four groups writes the 32 digits and one terminator |
| Metadata.WireToGidLoop | src/multicast/multicast.h:12-22 | the loop reads the four groups back |
| Metadata.PrintInjective | src/core/Infiniband.cc:419-421 | equal texts carry equal metadata |
| DispatcherObjects.RdmaDispatcher.RegisterQp | src/core/RDMAStack.cc:366-371 | registration, or a failed assertion if the number is taken |
| QpRegistry.RegisterFinds | src/core/RDMAStack.cc:366-378 | the registered number leads to its socket and queue pair, and every other lookup is as before |
| DispatcherObjects.RdmaDispatcher.GetConnLockless | src/core/RDMAStack.cc:373-378 | the live socket of a number, none for unknown or dying queue pairs |
| DispatcherObjects.RdmaDispatcher.GetQpLockless | src/core/RDMAStack.cc:380-390 | registered queue pairs first, then the dead ones in order |
| QpRegistry.LookupExact | src/core/RDMAStack.cc:373-390 | a lookup finds a queue pair if and only if one of that number exists and is not swapped out for deletion |
| DispatcherObjects.RdmaDispatcher.EnqueueDeadQp | src/core/RDMAStack.cc:397-412 | a registered queue pair moves to the dead list, an unknown number changes nothing |
| DispatcherObjects.RdmaDispatcher.ScheduleQpDestroy | src/core/RDMAStack.cc:414-437 | dying with the socket cleared, or dead at once when the error transition fails |
| QpRegistry.ScheduleEffect | src/core/RDMAStack.cc:414-437 | the queue pair is dying with its entry kept, or on the dead list with its entry gone exactly if the error transition fails; no other one is touched |
| DispatcherObjects.RdmaDispatcher.HandleTxEvent | src/core/RDMAStack.cc:439-530 | a batch enqueues the queue pairs of its beacons in order, and stops at an ordinary completion whose lookup finds no socket or whose socket is gone when it is called |
| DispatcherObjects.TurnIsTwoSteps | src/core/RDMAStack.cc:446-525 | a turn of that loop is the step for a beacon, or for an ordinary completion the lookup step followed, after whatever the other threads did, by the call step |
| DispatcherObjects.RdmaDispatcher.IdleCleanup | src/core/RDMAStack.cc:284-310 | the idle branch swaps the dead list out and deletes all of it; the loop ends exactly if the count it then reads is 0 and the two later reads see the stop flag and an empty dead list |
| DispatcherObjects.DeleteAllEffect | src/core/RDMAStack.cc:304-308 | exactly the swapped-out queue pairs are deleted, each once |
| DispatcherObjects.DeleteAllInv | src/core/RDMAStack.cc:304-308 | deleting the batch keeps the books of queue pairs |
| DispatcherObjects.BeaconsEnqueueOnce | src/core/RDMAStack.cc:446-450 | whatever a batch holds, the dead list stays free of repeats and grows by what leaves the registered ones |
| DispatcherObjects.RxPath.HandleRxEvent | src/core/RDMAStack.cc:564-639 | gathering completions per socket and passing them at the end equals passing each at once |
| RxDelivery.LiveDelivered | src/core/RDMAStack.cc:585-593 | a message for a live socket goes to the end of that socket's list and to no other, its chunk leaves the receive queue, and a spare one from the pool is posted behind |
| RxDelivery.DeadRecalled | src/core/RDMAStack.cc:580-585 | a message without a live socket goes back to the pool, and no socket notices |
| RxDelivery.BatchDelivered | src/core/RDMAStack.cc:564-639 | after a batch each socket's list has grown by exactly its own completions, in order |
| RxDelivery.DataInOrder | src/core/RDMAConnectedSocketImpl.cc:283-351 | in every run what an open socket has unread is what it had and what arrived for it since, in order, less the bytes read from the front |
| DispatcherObjects.RxPath.RemoveRqWr | src/core/Infiniband.h:520-527 | the chunk is searched and erased, or the assertion fails |
| DispatcherObjects.RxPath.RecallChunkToPool | src/core/Infiniband.h:564-570 | a posted chunk leaves its queue and returns to the pool |
| DispatcherObjects.RxPath.PostChunkToRq | src/core/Infiniband.cc:1104-1145 | a chunk from the pool is posted and owned by the queue pair, or nothing happens if the pool is empty |
| DispatcherObjects.RxPath.PostChunksToRq | src/core/Infiniband.cc:1104-1153 | as many chunks of the pool as asked for, or all it has, are posted in order, and the count assertion fails exactly if the pool has some and too few |
| DispatcherObjects.RxPath.PassWc | src/core/RDMAConnectedSocketImpl.cc:96-103 | completions are appended in order |
| DispatcherObjects.RxPath.BufferPrefetch | src/core/RDMAConnectedSocketImpl.cc:283-309 | the fetched completions become buffers or go back, one by one |
| DispatcherObjects.RxPath.Drain | src/core/RDMAConnectedSocketImpl.cc:311-322 | every fetched chunk goes back and the list is empty |
| DispatcherObjects.RxPath.ReadBuffersLoop | src/core/RDMAConnectedSocketImpl.cc:324-351 | the bytes read are the lesser of asked and available; emptied buffers go back, the rest stays in order |
| DispatcherObjects.RxPath.DestroyQueuePair | src/core/Infiniband.cc:1193-1205 | every chunk left in the receive queue is released once |
| DispatcherObjects.PrefetchAllSound | src/core/RDMAConnectedSocketImpl.cc:283-309 | the prefetch loop never fails an assertion and keeps every chunk in exactly one place |
| DispatcherObjects.PrefetchAllEffect | src/core/RDMAConnectedSocketImpl.cc:283-309 | data messages are kept in arrival order behind those already there |
| RxMemory.ReadAccounting | src/core/RDMAConnectedSocketImpl.cc:324-351 | bytes taken plus bytes left are the bytes there were, and the chunks left are a suffix of those before |
| RxMemory.DestroySound | src/core/Infiniband.cc:1193-1205 | deleting a queue pair keeps every chunk in exactly one place |
| Dispatcher.ChunksNeverLost | src/core/RDMAStack.cc:564-639 | in every state of every run each chunk is in exactly one place, its queue pair field says whether it is posted, and a next step fails if and only if it is one of the three unguarded events |
| Dispatcher.CreateFills | src/core/Infiniband.cc:347-357 | a new queue pair is registered with all the receives it asked for, taken from the pool, or with an empty pool not at all |
| DispatcherRuns.PoolShortCrashes | src/core/Infiniband.cc:1114-1144 | some run comes to a new queue pair that asks for more chunks than the pool has |
| DispatcherRuns.LateSendCrashes | src/core/RDMAStack.cc:519-525 | some run handles a send completion whose socket has begun to close, and calls nothing |
| DispatcherRuns.DestroyedInCallCrashes | src/core/RDMAStack.cc:519-525 | some run looks a socket up and calls it after its destructor has ended |
| OrderlyClose.OrderlyNeverFails | src/core/RDMAStack.cc:414-525 | in every run in which each socket closes, or is declared dead, with none of its send completions outstanding, no socket that is not there is called |
| OrderlyClose.CloseSafeIff | src/core/RDMAConnectedSocketImpl.cc:78-93 | after any such run, however it goes on, a close is safe if and only if none of the socket's send completions is outstanding or about to be called |
| OrderlyClose.SafeIffOrderly | src/core/RDMAStack.cc:414-525 | a run without hardware faults is safe in each of its states if and only if each of its closes is of that kind |
| Dispatcher.QueuePairsAccounted | src/core/RDMAStack.cc:366-437 | each queue pair is registered, dead or deleted, exclusively and once; the count is right; lookups find only live sockets |
| Dispatcher.ExitIff | src/core/RDMAStack.cc:32-39 | when the polling thread has ended, the destructor's assertions hold if and only if no queue pair was registered since the exit test read the count |
| DispatcherRuns.EarlyExit | src/core/RDMAStack.cc:284-310 | some run ends the polling thread with a queue pair left, registered between the first two reads of the exit test |
| Dispatcher.DeletedOnlyWhenIdle | src/core/RDMAStack.cc:284-310 | a queue pair is deleted only in an iteration whose two polls were empty |
| OrderlyClose.IdleDeletesAll | src/core/RDMAStack.cc:296-308 | left alone in its idle branch the polling thread deletes exactly the dead queue pairs, in order |
| Dispatcher.LastWqeEffect | src/core/RDMAStack.cc:139-172 | the hardware's last word on a queue pair moves it to the dead list exactly if it has a live socket |
| Dispatcher.BeaconKillsItsOwn | src/core/RDMAStack.cc:446-450 | a beacon moves its own, dying, queue pair and no other |
| EventLoop.NoLostWakeup | src/network/Event.cc:294-308 | if the loop is blocked while a callback is queued, the pipe is readable or some thread is between its push and its write |
| EventLoop.CounterIsLength | src/network/Event.cc:413-422 | whenever the lock is free the counter is the queue's length, and the tail is looked at only if there is one |
| EventLoop.RepeatsCollapse | src/network/Event.cc:413-418 | in every run the queue never holds a callback twice in a row |
| EventLoop.SleepsIffNothingToDo | src/network/Event.cc:353-362 | the loop goes to sleep if and only if there are no pollers and, the lock being free, nothing is queued |
| EventLoop.WakesIffFirst | src/network/Event.cc:410-424 | a dispatch goes on to write if and only if it found the queue empty, comes from another thread and there are no pollers |
| EventLoop.ReadsInBlocks | src/network/Event.cc:58-68 | the pipe is read in blocks of 256 bytes until a read finds nothing |
| EventLoop.EveryDispatchAnswered | src/network/Event.cc:413-426 | every dispatch, also a collapsed one, has its callback executed after it or still waiting in order |
| EventLoop.OneIterationExecutes | src/network/Event.cc:390-403 | what is due before the loop's second look at the counter is executed when the loop starts over |
| EventLoop.EventuallyExecuted | src/network/Event.cc:353-403 | a pushed callback is executed after finitely many steps of any schedule that goes on until then, without a timeout; with pollers, once it is counted |
| EventLoop.EveryDispatchExecuted | src/network/Event.cc:353-426 | after any run, under any such schedule, every dispatch made, also a collapsed one, is followed by an execution of its callback; with pollers, if the dispatching thread leaves its critical section |
| EventLoop.ExecutedIffFree | src/network/Event.cc:380-426 | a callback queued while a thread holds the lock is executed if and only if the lock comes free, and without pollers it does |
| EventLoop.ScheduleExists | src/network/Event.cc:353-426 | such schedules exist from every state of every run |
| EventFairness.FairlyExecuted | src/network/Event.cc:353-426 | on every fair schedule, with further dispatches, time-outs and changes of pollers at any time, every dispatch made, also a collapsed one, is followed by an execution of its callback |
| EventFairness.FairScheduleExists | src/network/Event.cc:353-426 | every run goes on in a fair way |
| EventFairness.PollersCanStarve | src/network/Event.cc:353-403 | with pollers some schedule goes on for ever beside a thread suspended in its critical section, and the callback is never executed |
| EventLoop.NeverStuck | src/network/Event.cc:353-403 | while a pushed callback is not executed some thread can take a step on its own |
| EventLoop.CriticalSection | src/network/Event.cc:413-422 | the steps under the lock amount to one enqueue with tail collapse |
| EventLoop.ExternalEvents.Dispatch | src/network/Event.cc:413-423 | the queue and the number on which the wake-up is decided |
| EventLoop.ExternalEvents.TakeAll | src/network/Event.cc:390-395 | the loop takes the whole queue and leaves it empty |
| EventLoop.ExternalEvents.DrainPipe | src/network/Event.cc:58-68 | the notify handler reads until the pipe is empty |
| Timers.TimerCenter.CreateTimeEvent | src/network/Event.cc:263-277 | a new id, entered in the ordered list behind equal expiries and in the index |
| Timers.CreateAdds | src/network/Event.cc:263-277 | the pending timers are those there were and one more, with the next id, expiring after its delay and carrying its callback |
| Timers.TimerCenter.DeleteTimeEvent | src/network/Event.cc:279-292 | the timer leaves both, unknown ids change nothing |
| Timers.DeleteRemoves | src/network/Event.cc:279-292 | the pending timers are those with another id |
| Timers.DeletedNeverFires | src/network/Event.cc:279-332 | a timer removed while pending is not fired in any run afterwards |
| Timers.TimerCenter.ProcessTimeEvents | src/network/Event.cc:310-332 | the loop equals its specification for any behaviour of the callbacks |
| Timers.TimersAccounted | src/network/Event.cc:263-332 | in every run list and index are in bijection by id, the list is in order, and each id is pending, fired once or deleted, exclusively |
| Timers.ProcessFires | src/network/Event.cc:310-332 | one call fires in order of expiry, ties in order of creation, only what expired at its sampled time, and leaves none of that |
| Timers.ExpiredAreServed | src/network/Event.cc:310-332 | what was pending and expired is fired or deleted when the call returns, and nothing fires twice or after deletion |
| Timers.TimerServed | src/network/Event.cc:263-332 | a timer created in any run, whatever happens in between, is not fired by a call before its delay has passed, is fired or deleted when a call after that returns, and is fired with its callback |
| Timers.ProcessReturns | src/network/Event.cc:315-329 | a call returns after at most the timers expired at its start if no callback creates an expired one |
| Timers.ZeroDelayNeverReturns | src/network/Event.cc:315-329 | a callback that re-creates its timer with no delay keeps the call going |
| Timers.ReturnsIffDelayed | src/network/Event.cc:310-332 | a call returns, for all timers and callbacks that keep to a delay of d, if and only if d is positive |
| Timers.NoBoundWithoutDelay | src/network/Event.cc:310-332 | without a positive delay no number of callbacks suffices for some call |
| FileEvents.FileEventCenter.CreateFileEvent | src/network/Event.cc:189-231 | table, masks, callbacks and driver after a registration, or the abort |
| FileEvents.FileEventCenter.DeleteFileEvent | src/network/Event.cc:233-261 | the same for a removal |
| FileEvents.FileEventCenter.Grow | src/network/Event.cc:192-204 | the table covers the descriptor and keeps its entries |
| FileEvents.MirrorInEveryRun | src/network/Event.cc:189-261 | in every run with either driver no driver call fails, the driver watches exactly the registered masks, and a bit is set exactly when its callback is there |
| FileEvents.AddWatches | src/network/EventEpoll.cc:48-69 | adding succeeds when the driver is told the mask it has, and changes that descriptor only |
| FileEvents.DelWatches | src/network/EventEpoll.cc:71-98 | the same for deleting |
| FileEvents.DriversAgree | src/network/EventSelect.cc:37-54 | epoll and select cannot be told apart by the same operations |
| FileEvents.CallbackInstalled | src/network/Event.cc:206-229 | the new callback is installed if and only if the mask differs from the registered one or it was there already |
| FileEvents.CreateEffect | src/network/Event.cc:206-229 | a registration sets the named handlers of its descriptor, unless that mask is registered already, and leaves all others and all other entries |
| FileEvents.DeleteEffect | src/network/Event.cc:233-261 | a removal takes away the named handlers of its descriptor and leaves all others and all other entries |
| FileEvents.HandlersInEveryRun | src/network/Event.cc:189-261 | after any operations a descriptor has exactly the handlers that its own operations leave it |
| FileEvents.GrownBound | src/network/Event.cc:192-195 | growth stays within four times what is needed, so 32 bits suffice below 2^29 |
| FileEvents.GrowthEnds | src/network/Event.cc:193-194 | the growth loop ends if and only if the table is not empty |
| AckRing.RequestAckCounter.IncreaseSlot | src/test/unicast_client.cc:64-75 | the slot is counted up, and reset with a report at the number of replicas |
| AckRing.UnicastClient.SendSmall | src/test/unicast_client.cc:171-206 | bytes reserved and consecutive ids for every replica, or the abort exactly if the replicas' next ids differ |
| AckRing.UnicastClient.SendBig | src/test/unicast_client.cc:240-276 | the same request by request; the check before each request fails exactly if the ids differ at the start and there is a request to send |
| AckRing.UnicastClient.OnSendCompletion | src/test/unicast_client.cc:279-292 | the assertion, the ring and the bytes in flight after a completion |
| AckRing.WaitsAboveThreshold | src/test/unicast_client.cc:171-175 | the sender waits exactly while more than the threshold is in flight |
| AckRing.ReserveFills | src/test/unicast_client.cc:188-190 | a reservation takes as many requests as fit, and no fewer |
| AckRing.AcksAreExact | src/test/unicast_client.cc:57-79 | with a window of at most 128, or one replica, requests are reported once each, in id order, exactly when all replicas have completed them; bytes in flight are those of unreported requests; no assertion fails |
| AckRing.RingTooSmall | src/test/unicast_client.cc:64-75 | otherwise some run reports a request that a replica has not completed |
| AckRing.RingExactIff | src/test/unicast_client.cc:57-79 | reports are true in every run if and only if the window fits or there is one replica |
| Chain.ChainSafety | src/test/cr_daemon.cc:134-213 | released <= acknowledged <= received by the tail <= forwarded <= received by the mid <= sent <= reserved; bytes in flight are exact and within the window; no assertion fails |
| Chain.DrainedMeansDone | src/test/cr_daemon.cc:406-491 | when nothing is in transit or waiting, every request sent has been released |
| Chain.Head.Reserve | src/test/cr_daemon.cc:190-197 | the window is filled up as far as whole requests go |
| Chain.WaitsAboveHalf | src/test/cr_daemon.cc:190-197 | the head waits exactly while more than half the window is in flight |
| Chain.ReserveFills | src/test/cr_daemon.cc:190-197 | a reservation takes as many requests as fit, and no fewer |
| Chain.Head.InflightRelease | src/test/cr_daemon.cc:134-138 | one request less in flight, or a failed assertion |
| Chain.Head.OnRead | src/test/cr_daemon.cc:406-420 | one release for every 64 bytes, the remainder is kept; the assertion fails exactly if there are more of them than requests in flight |
| Chain.Relay.OnRead | src/test/cr_daemon.cc:442-455 | one send for every whole request while the client is ready, no byte lost |
| Chain.ChunkWindow | src/test/cr_daemon.cc:141-165 | the chunk counter counts held and posted chunks, at most 128, each event moves exactly its own, and the completion assertion holds |
| Chain.RequestFitsIff | src/test/cr_daemon.cc:141-165 | a request can get all its chunks if and only if it needs at most 128 |
| TxPool.Cluster.constructor | src/core/Infiniband.cc:703-724 | the loop over 32-bit sizes and offsets, for clusters of any size; below 4 GiB one free, empty chunk for every buffer |
| TxPool.Cluster.TakeBackChunks | src/core/Infiniband.cc:726-732 | chunks come back empty, in order |
| TxPool.Cluster.GetChunks | src/core/Infiniband.cc:734-751 | the last free chunks are handed out, or the abort |
| TxPool.LastInFirstOut | src/core/Infiniband.cc:726-751 | the chunks that come back last are handed out first |
| TxPool.Cluster.GetBuffers | src/core/Infiniband.cc:753-773 | the number of chunks for a number of bytes, rounded up, with the sum in 64 and the result in 32 bits |
| TxPool.Cluster.ZeroFillChunk | src/core/Infiniband.cc:670-675 | a chunk takes what fits |
| TxPool.Cluster.FillRequest | src/test/cr_daemon.cc:141-165 | the fill loop and its two assertions |
| TxPool.PoolPartition | src/core/Infiniband.cc:703-773 | in every run free and outstanding chunks partition the cluster and free ones are empty |
| TxPool.RequestServed | src/core/Infiniband.cc:753-773 | a request gets ceil(n / buffer) distinct chunks, all but the last are filled, the offsets sum to n, and no assertion fails |
| TxPool.ServedIffUncut | src/core/Infiniband.cc:753-773 | a request that the pool serves passes the fill loop's assertions if and only if the number of its chunks is not cut |
| TxPool.RequestReturned | src/core/Infiniband.cc:726-732 | returning them restores the free chunks |
| TxPool.AddressRoundTrip | src/core/Infiniband.h:257-261 | an address leads to chunk i if and only if it lies in that chunk's buffer |
| TxPool.WellFilledIff | src/core/Infiniband.cc:703-724 | all chunks are made with their buffers inside the cluster if and only if it is below 4 GiB |
| TxPool.CountAloneMisleads | src/core/Infiniband.cc:703-724 | a cluster of 8 GiB for which the wrapped loop makes the right number of chunks, not all inside it |
| AvgCounter.ConsistentRead | src/common/perf_counters.h:166-176 | a returned pair is the total and the number of exactly the updates completed at one instant, at which none was in progress |
| AvgCounter.ReturnsWhenQuiet | src/common/perf_counters.h:166-176 | the comparison succeeds if and only if no update was in progress or begun during the three reads |
| AvgCounter.StepWords | src/common/perf_counters.cc:112-148 | every single access keeps the three words equal to the history modulo 2^64 |
| AvgCounter.TotalSinceSet | src/common/perf_counters.cc:112-148 | the total is what the last set wrote and what was added since |
| AvgCounter.AvgData.Update | src/common/perf_counters.cc:112-148 | one update of the three words |
| AvgCounter.AvgData.ReadAvg | src/common/perf_counters.h:166-176 | the pair read when no writer is about |
| HistogramAxis.GetBucketForAxis | src/common/perf_histogram.cc:30-52 | the bucket of a value, with the search loop of the log2 scale |
| HistogramAxis.GetAxisBucketRanges | src/common/perf_histogram.cc:54-79 | the published ranges, also for one bucket, with bounds wrapped to 64 bits |
| HistogramAxis.RangesUnwrapped | src/common/perf_histogram.cc:54-79 | where no bucket ends beyond 64 bits no bound wraps |
| HistogramAxis.RangesTile | src/common/perf_histogram.cc:54-79 | the ranges are non-empty and tile the 64-bit line |
| HistogramAxis.PublishedTileIff | src/common/perf_histogram.cc:54-79 | the wrapped ranges are non-empty and without gap from the least to the greatest 64-bit value if and only if there is one bucket, or the minimum is above the least value and the last inner bucket ends inside |
| HistogramAxis.RangeWidths | src/common/perf_histogram.cc:19-79 | the first inner range is one quantum from the minimum on; the others are as wide on the linear scale, and on the log2 scale the second is as wide and each further one twice the one before |
| HistogramAxis.RangeUnique | src/common/perf_histogram.cc:54-79 | no value is in two ranges |
| HistogramAxis.BucketInItsRange | src/common/perf_histogram.cc:30-52 | without overflow the bucket of a value is the one whose range contains it |
| HistogramAxis.AgreeIffSafe | src/common/perf_histogram.cc:19-79 | buckets and ranges agree on every 64-bit value if and only if the axis is safe |
| HistogramCells.IndexBijection | src/common/perf_histogram.h:153-165 | the flattened index is a bijection from bucket tuples onto 0 .. size - 1, for any number of axes |
| HistogramCells.VisitsEveryCellOnce | src/common/perf_histogram.h:170-184 | every cell is visited once, in increasing index order, when the traversal is at the tuple of that index |
| HistogramCells.VisitsExactIff | src/common/perf_histogram.h:170-184 | with the 32-bit index the right cells are visited if and only if there are at most 2^31 |
| HistogramCells.CellsSum | src/common/perf_histogram.h:88-100 | after any run the cells sum to the increments since the last reset |
| HistogramCells.CellsCount | src/common/perf_histogram.h:95-114 | each cell counts the increments of its own tuple |
| HistogramCells.Histogram.Inc | src/common/perf_histogram.h:97-100 | the cell of the values' buckets, each of which contains its value, is counted up, for all values on safe axes and all that do not overflow on others |
| HistogramCells.Histogram.ResetAll | src/common/perf_histogram.h:88-93 | all cells are 0 |
| HistogramCells.Histogram.GetRawSize | src/common/perf_histogram.h:125-131 | the product of the bucket counts, wrapped to 64 bits |
| HistogramCells.Histogram.VisitValues | src/common/perf_histogram.h:171-184 | the recursive visit passes the cells in the specified order, with a 32-bit index |
| JsonText.EscapedLength | src/common/escape.cc:166-196 | the length is exactly that of the escaped text plus one |
| JsonText.EscapeInto | src/common/escape.cc:198-238 | the buffer holds the escaped text and a terminator |
| JsonText.EscapeRoundTrip | src/common/escape.cc:240-271 | unescaping an escaped text returns it, whatever follows |
| JsonText.EscapeShape | src/common/escape.cc:198-238 | which characters are escaped, in two characters or six |
| JsonText.RenderRoundTrip | src/common/formatter.cc:150-229 | compact and pretty text of a tree parse to that tree |
| JsonText.OneMoreMember | src/common/formatter.cc:150-183 | comma, line, four spaces for each open section, name and colon of a member in both layouts |
| JsonText.SectionText | src/common/formatter.cc:185-229 | brackets of a section, the closing one on a line of its own in the pretty layout |
| JsonText.RenderReadIffPlain | src/common/formatter.cc:150-229 | a text, compact or pretty, parses to its tree if and only if all object names in it need no escaping |
| JsonText.NameReadIffPlain | src/common/formatter.cc:167-183 | a member's name is read back if and only if it needs no escaping |
| JsonFormatter.OutputReadIffPlain | src/common/formatter.cc:150-272 | for every balanced sequence of calls, with strings dumped or streamed, no assertion fails and the output parses to the tree dumped if and only if object names need no escaping |
| JsonFormatter.CallAgrees | src/common/formatter.cc:185-272 | every single call keeps the text written equal to the text of the tree built so far |
| JsonFormatter.FormatKept | src/common/formatter.cc:274-279 | a formatted text is kept whole below 1024 characters, and its first 1023 otherwise |
| JsonFormatter.Formatter.PrintComma | src/common/formatter.cc:150-163 | the separator and indentation of a member |
| JsonFormatter.Formatter.PrintNameOnly | src/common/formatter.cc:167-183 | separator, name and colon, and the size of the open section |
| JsonFormatter.Formatter.FinishPendingString | src/common/formatter.cc:231-237 | a deferred string is written once, in its place |
| JsonFormatter.Formatter.OpenNew | src/common/formatter.cc:185-204 | a section is opened |
| JsonFormatter.Formatter.CloseLast | src/common/formatter.cc:214-229 | a section is closed, or the assertion fails |
| JsonFormatter.Formatter.Perform | src/common/formatter.cc:185-272 | each of the calls modelled equals its specification |
| JsonFormatter.Formatter.Flush | src/common/formatter.cc:134-140 | what is written out, with the deferred string |

## Left out

- Verbs, epoll, sockets, Python and memory pools are environment steps or the small contracts listed above.
- The read loops of the daemon's callbacks (src/multicast/multicast.cc:38-45, 167-174): one whole message is delivered per callback.
- Shared receive queues, rdma_cm mode and the failure path of posting receives (src/core/Infiniband.cc:1155-1166).
- `Buffer`, `BufferList`, the send path of a socket and the post backlog: they keep no invariant worth stating.
- XML and table formatters, unquoted formats, floating-point values and reuse of a formatter after `reset`.
- The computation of the wait timeout, clocks, loggers, configuration and thread affinity.
- Payload bytes: lengths and positions only, since the readers copy nothing.
- DirectHandshake.HandshakeAgreement: says "active or in error" of the server; `AgreementExact` has the exact form, which needs the callbacks of the run.
- MulticastHandshake.MulticastAgreement: the same for receivers, with `MulticastAgreementExact`; no number is given out twice during the run, and the entry of group 2 is exactly absent.
- Metadata.ScanPrinted: the scanner has no white space, sign or `0x` prefix, which printed texts do not contain.
- Dispatcher.ChunksNeverLost: a batch of receive completions is one step, as the dispatcher's lock is held, and so is the dead list's test with its swap, as other threads only add to that list; completions with errors end the run, and the return of transmit chunks is left to `TxPool`.
- Data races inside one unlocked read of a map or a list: every such read is one step.
- A socket whose queue pair could not be created: nothing is registered for it, and it is not followed further.
- OrderlyClose.SafeIffOrderly: a failed error transition and a queue pair declared dead by the hardware are in `OrderlyNeverFails` only; after them a queue pair can be deleted, with its completions, before they are polled.
- EventLoop.EventuallyExecuted: for schedules without a further dispatch, a time-out or a change of pollers before the execution; it needs no fairness, and `EventFairness.FairlyExecuted` has all fair schedules.
- EventLoop.EveryDispatchExecuted: the same.
- Timers.TimerCenter.ProcessTimeEvents: the number of callbacks a call makes is bounded by the script given; a longer call is a call that has not returned.
- AvgCounter.ConsistentRead: resets are left out, and fewer than 2^64 updates may start between the reader's first and last access.
- HistogramAxis.RangesTile: for axes whose bounds do not overflow; `PublishedTileIff` has all axes with at most 64 buckets on the log2 scale, beyond which a shift is undefined.
- JsonText.RenderRoundTrip: the parser reads whole numbers only, and no surrogate escapes.
- JsonFormatter.Formatter.Perform: floating-point and unquoted format calls are not among its calls.
