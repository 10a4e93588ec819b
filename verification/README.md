# tokioop: a verified model of the event loop core

tokioop is an asyncio event loop on a single-threaded Tokio runtime. This project models the parts of it
whose correctness spans whole runs and proves what they promise:

- **Stream transport** (`StreamState`, `StreamScript`, `StreamTransport`, `WriteBuffer`, `ReadSide`): pause/resume
  with the replay queue, the write queue, half-close, close, abort and `connection_lost`, with a protocol that may call
  back into the transport from every callback, to any depth. `StreamRuns` holds runs in which a promise fails.
- **Drain-mode reading, end to end** (`DrainMachine`, `Quantum`): kernel buffer, watcher tasks at the granularity of
  single reads, readiness flags with ticks, the shared completion queue, and the transport.
- **Callback-mode watchers** (`Reactor`): level-triggered readiness emulated on edge-triggered flags, the rendezvous
  between watcher and batch, and the registry under callbacks that re-register and cancel.
- **Watcher registry and handles** (`Watchers`, `FdRegistry`).
- **Scheduler** (`Scheduler`, `Timers`, `Parking`): the batch, the timer heap, and the park protocol against foreign
  threads whose pushes and notifications are separate steps.
- **Datagram send queue** (`Datagram`, `DatagramTransport`, and runs in `DatagramRuns`).
- **The pieces together** (`ReadLink`, `WriterLink`): the transport's own code running inside the drain-mode machine,
  and its writer inside the callback-mode machine.

## How it is modelled

Objects whose methods update fields are classes; a group of fields is kept as one record-valued field so that a
method's effect can be stated as a relation between two records. Protocol behaviour is a `script`: a callback
performs the commands at its head until `Return` or `Raise`, and nested callbacks consume the same script, so every
finite protocol behaviour is some script. Socket answers come from a second list. Concurrent parts are machines:
a state, a set of actions with `Enabled` and `Apply`, and `Exec` over any sequence of actions; the results quantify
over every sequence.

The pieces meet at three places. The read-side relations `ReadLater`, `Delivered` and `Started` are what
`SocketTransport.Handle` is proved to satisfy on every event, and they are the transport steps of `DrainMachine`;
`ReadLink.Drive` runs the transport inside that machine. The registry functions of `Watchers` are what `LoopRegistry`'s
methods compute, and they are the request steps of `Reactor`. `WriterLink` ties the transport's writer to the registry
entry of its descriptor, so that a writer firing is a completion whose slot still serves the descriptor.

Where it is known what the callbacks of an operation do, the operation's effect is stated exactly, as a function of
state, script and socket answers (`StreamScript`); where it is not, it is stated by the invariant and the relation that
any activity satisfies (`StreamState`).

A buffer given to `write`, `writelines` or `sendto` is a sequence of elements of one or more bytes: `len` and slices of
a memoryview count elements, the socket counts bytes. Such buffers are one-dimensional and contiguous, and the caller does
not change one while it is queued; a `bytearray` cleared in the queue would be an empty chunk of the kind described below.

Environment assumptions: a direction that turns from not ready to ready queues an edge for every registration on it;
a driver step turns a queued edge into a set flag and a higher tick; any other event of the registration raises the
tick alone; clearing with a guard does nothing once the tick
has moved; `poll(2)` with timeout 0 reports the current level, or ready on error; no bytes arrive after end of
stream; `add_reader` and `add_writer` succeed when a transport calls them (their OS errors are modelled in `FdRegistry`;
in `writelines`, one would leave queued data without a writer). Edges may also be queued at any other time. Tokio's tick is unbounded here.

Where the code and its own prose disagree, the code is followed: completions of a detached drain slot still deliver
(`src/event_loop.rs:94-98`, against `src/state.rs:119-120`), and the loop yields on every spin
(`src/event_loop.rs:296-301`, against `ARCHITECTURE.md:49-53`).

## What turned out not to hold as promised

Each of these is kept as the code has it, with the exact condition proved.

- Drain-mode parking is called stall-free by construction. A read error other than WouldBlock also ends the drain,
  with data possibly left: `DrainMachine.ErrorStallsIff` says exactly when the task then stalls, and
  `DrainMachine.ErrorStallWitness` gives a run. A task whose latest drain ended in an empty read never stalls
  (`DrainMachine.NeverStalls`), whatever failed before.
- `connection_lost` is meant to come once. On the deferred close path it may call `writelines`, and the flush in there
  ends in the reporting branch exactly when it leaves a live, closing transport with an empty deque
  (`SocketTransport.AfterResume`). In terms of the call: the second report comes exactly when the socket takes as many
  bytes as queue and list have elements (for single-byte items: all of them, at once) and the last chunk is not empty
  (`SocketTransport.WriteAll`, `StreamScript.SecondReportIff`).
  `StreamRuns.LostTwice` is the run; without `writelines` inside `connection_lost` there is none (`SocketTransport.Run`).
- `_call_connection_lost` is entered a second time exactly when the report was queued from inside a flush's
  `resume_writing` or from inside `connection_lost`, or when the loss is reported twice (`SocketTransport.Run`;
  `StreamRuns.EnteredTwice` is a run). The protocol reference is gone by then, so nothing reaches the protocol.
- A send never removes an empty chunk from the end of the write deque (`WriteBuffer.DropKeepsTail`). After a `writelines`
  whose list ends in an empty chunk, and until more is accepted, a half-closed stream does not issue SHUT_WR and a closing
  one does not report its loss, whatever the socket does (`StreamState.RunLaterTrans` carries this over whole runs);
  without it both come as soon as everything is sent. `SocketTransport.Run` states the equivalence,
  `StreamRuns.HollowListHolds` the run.
- What `write` and `writelines` accept is not always sent or queued: the unsent rest of a buffer is counted in elements.
  `write` keeps account of a send exactly when the items are single bytes, or all or nothing was sent
  (`WriteBuffer.WriteSkewsIff`; over whole runs `StreamState.ConservedIff` and `SocketTransport.Run`, run:
  `StreamRuns.WriteOneView`). A flush keeps account exactly when the elements it takes off are single bytes
  (`WriteBuffer.SkewsIff`), and if the socket takes more bytes than the deque has elements, `popleft` raises and the
  transport is torn down, even with everything sent (`SocketTransport.AfterSend`, run: `StreamRuns.WriteViewInList`).
- The assertion at the head of `_write_sendmsg` fails exactly when a registered writer fires on a transport whose queue
  was cleared by `abort()` after the teardown and not refilled (`SocketTransport.Handle`, run: `StreamRuns.AssertionFails`).
- A datagram leaves the queue unsent and unreported exactly when a writer fires on a torn-down transport with a non-empty
  queue (`SendQueue.Handle`, run: `DatagramRuns.DatagramVanishes`).
- The datagram transport's reported buffer size is off by what forced closes dropped, and by what was never added because
  `len` of a queued view counted wider items; it is exact when these cancel (`Datagram.SizeExactIff`). Without dropped
  datagrams it is exact iff every queued view had single-byte items (`Datagram.ShortIff`, run:
  `DatagramRuns.WideViewSkewsSize`); with such views only, iff no forced close dropped one (run:
  `DatagramRuns.AbortKeepsSize`).
- The timer order is total on deadlines that are numbers. With NaN deadlines it is total exactly when no NaN sits, by
  sequence number, between two timers whose deadlines run the other way (`Timers.OrderedIff`, `Timers.NaNWitness`).

## Model

| member | source | states |
|---|---|---|
| `StreamTransport.SocketTransport.Run` | python/tokioop/transports.py:132-595 | for every sequence of loop callbacks and user calls, every protocol and every socket: accepted = sent ++ queued iff no send took off more than it sent, which needs items wider than a byte; writer registered iff data queued, on a torn-down transport up to a cleared queue; with nothing left to send, SHUT_WR has been issued, and a closing transport has its report queued, iff the last list did not end in an empty chunk; nothing sent after SHUT_WR; the loss reported once unless a flush inside connection_lost reports, queued at most once, entered twice iff queued from inside a flush or a report or reported twice; a transport that wants to read is watched; items read reach the protocol in order until closing and never after |
| `StreamTransport.SocketTransport.Handle` | python/tokioop/transports.py:132-595 | one loop callback keeps the between-callbacks invariant and the run relation; each user call has its effect; an item is dropped, stashed or handed over; the read side is a step of the drain-mode machine; a writer firing, also on a torn-down transport, ends in the assertion iff the queue was cleared after the teardown |
| `StreamTransport.SocketTransport.RunProtocol` | python/tokioop/transports.py:323-332 | any re-entrant protocol behaviour keeps the invariant and the relation every transport method relies on; the reply is the last command the callback took; a callback that does nothing changes nothing |
| `StreamTransport.SocketTransport.Perform` | python/tokioop/transports.py:116-161 | each public call has its effect and keeps invariant and relation, also when made from inside a callback; nothing but pause_reading pauses |
| `StreamTransport.SocketTransport.Pause` | python/tokioop/transports.py:132-143 | a transport that is reading is paused: flag-only in drain mode, and the reader dropped in callback mode |
| `StreamTransport.SocketTransport.Resume` | python/tokioop/transports.py:145-174 | a paused, open transport stays paused only if a callback paused it again, and closes only if a callback could close it or an end of stream or error was replayed; with callbacks that do nothing every stashed item reaches the protocol in order and the reader is live; a live drain watcher is not replaced |
| `StreamTransport.SocketTransport.FlushReplay` | python/tokioop/transports.py:163-174 | replayed items are handed over in order until re-paused, closed or empty, under nested pause and resume, and all of them if the callbacks do nothing |
| `StreamTransport.SocketTransport.StartReader` | python/tokioop/transports.py:275-277 | the start-up registration registers unless paused or closing |
| `StreamTransport.SocketTransport.DrainStream` | python/tokioop/transports.py:312-321 | an item is dropped when closing, stashed when paused, handed over otherwise |
| `StreamTransport.SocketTransport.DeliverItem` | python/tokioop/transports.py:323-343 | the item is the next one in the hand-over order; data and end of stream are told to the protocol; a read error or a raising data_received closes, end of stream closes unless eof_received keeps it open, which removes the reader |
| `StreamTransport.SocketTransport.OnEof` | python/tokioop/transports.py:422-440 | eof_received is called; keep_open removes the reader, anything else closes |
| `StreamTransport.SocketTransport.OnData` | python/tokioop/transports.py:323-332 | data_received is called; an exception from it closes the transport |
| `StreamTransport.SocketTransport.CloseNow` | python/tokioop/transports.py:191-199 | computes `Closed`, whose meaning `ClosedLater` and `CloseIsCall` state |
| `StreamScript.CloseIsCall` | python/tokioop/transports.py:191-199 | close on an open transport: reading ends, and the report is queued at once iff nothing has to be flushed |
| `StreamScript.AbortIsCall` | python/tokioop/transports.py:224-234 | abort: nothing stays queued, reading has ended, and on a live transport the report is queued, once |
| `StreamTransport.SocketTransport.ForceClose` | python/tokioop/transports.py:224-234 | buffer dropped, writer and reader removed, the loss queued once; on a torn-down transport it raises half-way |
| `StreamTransport.SocketTransport.FatalError` | python/tokioop/transports.py:208-222 | leaves the transport closing with the loss queued or reported |
| `StreamTransport.SocketTransport.CallConnectionLost` | python/tokioop/transports.py:236-248 | the protocol is told, with full re-entrancy, and the transport is torn down |
| `StreamTransport.SocketTransport.WriteData` | python/tokioop/transports.py:442-481 | bytes given to an open transport are accepted in order; invariant and relation kept through pause_writing |
| `StreamTransport.SocketTransport.SendNow` | python/tokioop/transports.py:461-480 | the slice left after the bytes the socket took, counted in elements, is queued with a writer; a failing send loses the data and tears down |
| `StreamScript.WrittenLater` | python/tokioop/transports.py:461-480 | that keeps invariant and relation, and something is queued iff elements are left |
| `StreamTransport.SocketTransport.WriteSendmsg` | python/tokioop/transports.py:486-512 | the bytes the socket took are sent, a block changes nothing, a failure tears down; with a silent resume_writing the loss is reported iff the transport is closing and the socket takes as many bytes as the queue has elements and the last chunk is not empty; the assertion holds iff the queue is not empty |
| `StreamTransport.SocketTransport.AfterSend` | python/tokioop/transports.py:490-512 | with enough elements queued: after the send and any resume_writing re-entry, an empty queue has no writer and a closing transport with an empty queue has reported its loss; otherwise the transport is torn down |
| `StreamTransport.SocketTransport.AfterResume` | python/tokioop/transports.py:503-512 | the loss is reported iff the queue is empty and the transport live and closing; otherwise the writer goes with the queue and SHUT_WR follows a half-close |
| `StreamTransport.SocketTransport.AdjustLeftoverBuffer` | python/tokioop/transports.py:514-523 | the in-place loop computes `DropItems` if the queue has that many elements, and raises on an emptied deque otherwise |
| `WriteBuffer.DropItemsFlat` | python/tokioop/transports.py:514-523 | exactly the first n elements leave the deque, the rest keeps its order |
| `WriteBuffer.FullSendEmptiesIff` | python/tokioop/transports.py:514-523 | taking every element off empties the deque iff its last chunk is not empty |
| `WriteBuffer.SendEmptiesIff` | python/tokioop/transports.py:483-523 | one sendmsg empties the deque iff it takes as many bytes as there are elements and the last chunk is not empty |
| `WriteBuffer.NarrowSendsAllIff` | python/tokioop/transports.py:483-523 | on single-byte items: iff everything fits SC_IOV_MAX and the socket and the last chunk is not empty |
| `WriteBuffer.TallyStep` | python/tokioop/transports.py:514-523 | elements taken off and bytes sent stay the same bytes, unless fewer bytes were sent than the elements hold |
| `WriteBuffer.SkewsIff` | python/tokioop/transports.py:514-523 | a flush loses bytes iff an element it takes off is wider than a byte |
| `WriteBuffer.WriteSkewsIff` | python/tokioop/transports.py:472-475 | write loses bytes iff the items are wider than a byte and some but not all bytes were sent |
| `WriteBuffer.DropKeepsTail` | python/tokioop/transports.py:514-523 | no send removes or creates an empty chunk at the end |
| `WriteBuffer.NothingLeftIff` | python/tokioop/transports.py:514-523 | a deque without bytes is empty iff its last chunk is not empty |
| `WriteBuffer.OfferedIsPrefix` | python/tokioop/transports.py:483-484 | what sendmsg is offered is a prefix of the queued stream |
| `StreamTransport.SocketTransport.WriteAll` | python/tokioop/transports.py:563-582 | the lines are accepted in order; writer registered iff something is left, also after re-entrant writes; what is left goes through the flow-control callback; with silent callbacks it reports the loss iff closing and the socket takes as many bytes as queue and list have elements and the list does not end in an empty chunk |
| `StreamTransport.SocketTransport.HalfClose` | python/tokioop/transports.py:556-561 | an open stream is half-closed, with SHUT_WR at once iff nothing is queued, and nothing else changes |
| `StreamScript.EofAnnounced` | python/tokioop/transports.py:556-561 | after write_eof on an open transport with nothing left to send and no empty last chunk, SHUT_WR has been issued |
| `StreamTransport.SocketTransport.TakeConnectionLost` | python/tokioop/transports.py:236-248 | running the queued report leaves the transport torn down and settled |
| `StreamState.ClosedLater` | python/tokioop/transports.py:191-199 | close() keeps the transport invariant and relation in every state, mid-callback ones included |
| `StreamState.ForceClosedLater` | python/tokioop/transports.py:224-234 | so does a forced close, and it leaves no buffered data and a report owed or made |
| `StreamState.FlushLater` | python/tokioop/transports.py:503-512 | send, resume_writing and tail together keep the relation although the middle states do not have the writer condition |
| `StreamState.LinesLater` | python/tokioop/transports.py:577-582 | queueing, flushing and registering the writer together keep the relation although the middle state does not |
| `StreamState.LeaveLostValid` | python/tokioop/transports.py:236-248 | the reporting counters stay consistent over a re-entrant connection_lost |
| `StreamState.RunLaterTrans` | python/tokioop/transports.py:312-343 | the run relation composes: order and conservation of items, silence after closing, no bytes after SHUT_WR |
| `StreamRuns.LostTwice` | python/tokioop/transports.py:505-510 | for every chunk and every list that fits the socket and does not end in an empty chunk: a run with two connection_lost calls |
| `StreamRuns.EnteredTwice` | python/tokioop/transports.py:503-510 | a run in which the loss is both queued and reported directly, and reaches the protocol once |
| `StreamRuns.HollowListHolds` | python/tokioop/transports.py:556-582 | for every chunk, protocol, socket and continuation: after a list ending in an empty chunk, then write_eof or close, no SHUT_WR and short of a forced close no report until more is accepted, which after write_eof is never |
| `StreamRuns.AssertionFails` | python/tokioop/transports.py:486-489 | a run in which a writer outlives the teardown, abort clears its queue, and its firing hits the assertion |
| `StreamRuns.WriteOneView` | python/tokioop/transports.py:461-480 | for every view, item size and number of bytes taken: after write nothing is lost iff the items are single bytes or all or nothing was taken |
| `StreamRuns.WriteViewInList` | python/tokioop/transports.py:486-523 | for every view sent completely by writelines: the transport is torn down iff it has an item wider than a byte |
| `StreamRuns.PausedItemsArrive` | python/tokioop/transports.py:145-174 | for every list of data items delivered while paused: after resume the protocol has received all of them in order, and the reader is live |
| `StreamRuns.EofFollowsData` | python/tokioop/transports.py:556-561 | for every view sent completely: write_eof issues SHUT_WR at once |
| `StreamState.ConservedIff` | python/tokioop/transports.py:461-523 | accepted = sent ++ queued iff nothing is skewed, and nothing is with single-byte items |
| `StreamState.FlushOverrunLater` | python/tokioop/transports.py:490-502 | running past the end of the deque keeps invariant and relation and tears down |
| `StreamScript.SecondReportIff` | python/tokioop/transports.py:505-510 | a writelines inside connection_lost makes a second report iff the socket takes as many bytes as queue and list have elements, for single-byte items all of them at once, and the last chunk is not empty |
| `StreamState.SettledMeans` | python/tokioop/transports.py:486-582 | what the between-callbacks invariant says of writer, SHUT_WR, report and reader |
| `DrainMachine.StreamConserved` | src/fd_unix.rs:510-632 | over every run: handed over ++ replay ++ queued ++ kernel = arrived until the transport closes; handed over is always a prefix of arrived |
| `DrainMachine.EofAfterEveryByte` | src/fd_unix.rs:557-568 | end of stream is handed over only after every byte that ever arrives, and no byte follows it |
| `DrainMachine.NeverStalls` | src/fd_unix.rs:480-504 | a live parked task on a readable descriptor, its latest drain ended by an empty read, has its flag set or an edge queued |
| `DrainMachine.NothingStranded` | src/fd_unix.rs:460-504 | a transport that wants to read has a live task, which has read on three steps later, with data or the end of the stream |
| `DrainMachine.ErrorStallsIff` | src/fd_unix.rs:585-622 | after a read error the task stalls iff data is readable, no edge is queued and the flag is clear or about to be cleared |
| `DrainMachine.ErrorStallWitness` | src/fd_unix.rs:585-622 | a run that stalls |
| `DrainMachine.QuantumBounds` | src/fd_unix.rs:288-290 | on every run a quantum reads at most 4 chunks and 262144 bytes, and only the item limit ends it |
| `DrainMachine.CallsKeepTheWatcher` | python/tokioop/transports.py:153-159 | transport calls never replace a live drain watcher; only keeping an ended stream open removes one |
| `DrainMachine.StepKeeps` | src/fd_unix.rs:460-632 | every step of kernel, driver, task, batch and transport keeps flow, registration and readiness invariants |
| `DrainMachine.RunKeeps` | src/fd_unix.rs:460-632 | so does every run |
| `DrainMachine.DeliveryKeepsOrder` | src/event_loop.rs:86-137 | delivering the head of the queue keeps the order of everything read |
| `DrainMachine.RecvKeeps` | src/fd_unix.rs:556-596 | one read moves bytes from kernel to queue and keeps the quantum bound |
| `DrainMachine.ReadPushes` | src/fd_unix.rs:557-584 | one read pushes a chunk of what was there, or the end of the stream, or nothing |
| `DrainMachine.ErrorsArePushed` | src/fd_unix.rs:585-593 | over every run each failed read pushes one error item |
| `DrainMachine.WakeupsBounded` | src/fd_unix.rs:488-505 | a drained flag is cleared: over every run a task is woken at most once per event delivered to its registration |
| `DrainMachine.DetachedTaskStops` | src/fd_unix.rs:492-503 | a removed or replaced task starts no other quantum and ends at its next await |
| `DrainMachine.DeliveryWitness` | src/fd_unix.rs:557-584 | a run in which data and end of stream reach the protocol |
| `ReadLink.HandleIsStep` | python/tokioop/transports.py:312-343 | whatever the transport does on an event is an enabled step of the machine and keeps its invariant |
| `ReadLink.Link.Follow` | python/tokioop/transports.py:132-343 | the transport's own code takes the step, the machine follows |
| `ReadLink.Drive` | python/tokioop/transports.py:132-343 | the transport's own code, any protocol, any interleaving of kernel, driver, tasks and batch: a run of the machine, so bytes are conserved in order up to the protocol and end of stream comes after the last |
| `Quantum.TcpQuantum` | src/fd_unix.rs:556-596 | pushes the bytes the socket gave, one item per non-empty answer at its position, an end of stream or an error only for that answer and only as the last item; at most 4 chunks and 262144 bytes; not drained means four full reads |
| `Quantum.UdpQuantum` | src/fd_unix.rs:525-555 | at most 16 datagrams, the leading answers in order, plus at most one error |
| `Quantum.ClampChunk` | src/event_loop.rs:883 | read size between 4096 and 65536, unchanged inside that range |
| `Quantum.ByteLimitIsSlack` | src/fd_unix.rs:557 | with that read size the byte limit never stops a quantum before the item limit |
| `Reactor.NeverStalls` | src/fd_unix.rs:99-180 | a parked watcher on a ready direction has its flag set or an edge queued, across primed, held-guard and try_io paths |
| `Reactor.ReadyFires` | src/fd_unix.rs:105-153 | level triggering: a live watcher of a ready direction queues its callback within two steps |
| `Reactor.FiringCause` | src/fd_unix.rs:105-180 | a completion is queued only after a positive or failed poll, or by a wake-up whose tick is higher than any guard before |
| `Reactor.SpuriousFiringsBounded` | src/fd_unix.rs:105-180 | over every run the completions queued for a task number at most its positive polls and the events delivered to its registration |
| `Reactor.QuietAfterCallback` | src/fd_unix.rs:146-179 | after a callback that leaves the descriptor not ready the task parks and queues nothing; its flag stays set iff an event came after the guard |
| `Reactor.DetachedTaskEnds` | src/fd_unix.rs:105-180 | the task of a detached registration ends at its next wake-up |
| `Reactor.CallbackReturns` | src/event_loop.rs:250-270 | a callback that returns frees the batch and wakes its own task only |
| `Reactor.CallbackWitness` | src/fd_unix.rs:99-118 | a run in which a registration on a ready direction is called back |
| `Reactor.RendezvousIsOneToOne` | src/fd_unix.rs:119-144 | a live waiting task is owed exactly one of queued completion, running callback, stored permit; otherwise none |
| `Reactor.OnlyLiveCallbacksRun` | src/event_loop.rs:250-265 | a completion invokes a callback only if its registration still serves the descriptor |
| `Reactor.DeadNeverCalled` | src/fd.rs:45-55 | after remove, replace, cancel or close, a callback is never invoked again, whatever is queued |
| `Reactor.StepKeeps` | src/fd_unix.rs:99-180 | every step keeps readiness, rendezvous and registry invariants |
| `Reactor.RequestKeeps` | src/fd_unix.rs:242-271 | registry requests issued at any point, from callbacks included, keep them |
| `WriterLink.FiringIsLive` | src/event_loop.rs:250-265 | a completion of the writer calls the transport back iff its slot still serves the descriptor, and then a writer is registered |
| `WriterLink.AskAllAgrees` | python/tokioop/transports.py:570-582 | any number of add_writer and remove_writer requests leaves the registry entry as the transport has it |
| `WriterLink.Link.Callback` | python/tokioop/transports.py:442-582 | the registry, given the requests the transport logged, ends with an entry iff the transport has a writer |
| `WriterLink.Link.Complete` | python/tokioop/transports.py:486-489 | stale completions leave the transport alone; a live one finds an empty queue iff it was cleared after the teardown |
| `WriterLink.Link.Drive` | python/tokioop/transports.py:442-582 | under any interleaving with other descriptors, calls from their callbacks included, the registry entry is occupied iff the transport has something queued, on a torn-down transport up to a cleared queue |
| `Watchers.HandleIdentity` | src/handles.rs:88-94 | over every request sequence a handle is uncancelled iff the registry entry of its direction is its own slot |
| `Watchers.Accounting` | src/fd.rs:35-101 | watcher count = occupied directions, no empty record, polling = membership |
| `Watchers.CancelTouchesOwnSlot` | python/tokioop/loop.py:254-256 | cancel and the sock_* done-callbacks never detach another registration |
| `Watchers.AcceptDoneSparesOthers` | python/tokioop/loop.py:519-532 | all done-callbacks of a repeatedly re-registered accept leave other registrations alone |
| `Watchers.AcceptDoneRemovesAll` | python/tokioop/loop.py:519-532 | and leave none of its own registrations |
| `Watchers.AddKeeps` | src/fd_unix.rs:242-271 | registering or replacing keeps the registry sound |
| `Watchers.DetachKeeps` | src/fd.rs:35-61 | so does detaching |
| `Watchers.CancelIsDetach` | src/handles.rs:88-94 | flipping the flag before detaching makes no difference |
| `Watchers.CloseKeeps` | src/fd.rs:64-80 | so does closing |
| `Watchers.AddTakesOver` | src/fd_unix.rs:242-271 | registering takes over the direction with a new uncancelled handle and cancels whoever served it |
| `Watchers.RemovalTakesEffect` | src/fd.rs:35-61 | removing or cancelling frees the direction and cancels its handle |
| `Watchers.DrainStaysForever` | src/event_loop.rs:94-98 | whatever is requested a registration keeps its drain callback, so what a detached watcher read is still delivered |
| `Watchers.ClosedForGood` | src/fd.rs:64-80 | a closed registry is empty, every handle cancelled, and no request changes it |
| `FdRegistry.LoopRegistry.AddWatcher` | src/fd_unix.rs:189-279 | new slot and handle, previous one killed; closed loop, negative fd and OS errors change nothing |
| `FdRegistry.LoopRegistry.DetachWatcher` | src/fd.rs:35-61 | removes the entry, kills the slot, reports whether one was there |
| `FdRegistry.LoopRegistry.CancelHandle` | src/handles.rs:88-94 | true iff not yet cancelled; no other slot changes |
| `FdRegistry.LoopRegistry.AbortAll` | src/fd.rs:64-80 | kills exactly the registered slots and empties the registry |
| `FdRegistry.LoopRegistry.IsPolling` | src/fd.rs:83-101 | true iff the direction is occupied |
| `Parking.NoLostWakeup` | src/event_loop.rs:277-323 | while parked, every queued entry belongs to a call that has yet to notify, and no stop() of the run has finished |
| `Parking.NotificationEndsPark` | src/event_loop.rs:697-720 | that notification wakes the loop and the next snapshot covers everything queued |
| `Parking.EarlyStopIsDiscarded` | src/event_loop.rs:431 | a stop() before run_forever is discarded |
| `Parking.IdleLoopParks` | src/event_loop.rs:277-323 | an iteration that finds nothing queued, no stop, no due timer and no stored wake-up ends parked; a due timer or a wake-up keeps the loop awake |
| `Parking.WorkKeepsAwake` | src/event_loop.rs:292-303 | whatever is queued when the loop looks keeps it from parking |
| `Parking.StopEndsIff` | src/event_loop.rs:281-283 | the run ends exactly at the look at the stop flag that finds it set |
| `Parking.EntriesConserved` | src/event_loop.rs:209-270 | over every interleaving entries and completions are taken in push order, none dropped or repeated |
| `Parking.StepKeeps` | src/event_loop.rs:277-323 | every interleaving step keeps the park invariant |
| `Scheduler.EventLoop.RunReady` | src/event_loop.rs:209-227 | handles exactly the snapshot, in push order, whatever is scheduled, cancelled or stopped meanwhile |
| `Scheduler.EventLoop.Perform` | src/event_loop.rs:673-692 | call_soon pushes one entry and cancels none; entries and timers are cancelled and the loop is stopped only by the request to do so |
| `Scheduler.EventLoop.RunEntry` | src/event_loop.rs:217-226 | runs the head unless cancelled, and then its callback is invoked |
| `Scheduler.EventLoop.RunTimer` | src/event_loop.rs:231-247 | a popped timer takes its turn, and its callback is invoked unless cancelled |
| `Scheduler.EventLoop.RunTimers` | src/event_loop.rs:229-247 | nothing early, nothing due left; if callbacks add only later deadlines, the due timers each once in heap order |
| `Scheduler.EventLoop.PopDue` | src/event_loop.rs:231-239 | each pop is the least timer present, and due |
| `Scheduler.EventLoop.RunIo` | src/event_loop.rs:250-270 | every queued completion is handled once, in order, each with an invocation |
| `Scheduler.EventLoop.RunBatch` | src/event_loop.rs:209-271 | one iteration: snapshot handled, completions emptied |
| `Scheduler.EventLoop.RunMain` | src/event_loop.rs:277-303 | over whole runs what ran is exactly the survivors of the popped prefix, all of it if nobody cancels an entry, and only requests of the script cancel; every completion queued before a batch is handled once, in order; every batch but the last left the stop flag clear, and a run cut short ended with the batch that found it set |
| `Scheduler.SurvivorsMembers` | src/event_loop.rs:220-226 | skipped are exactly those cancelled before their turn |
| `Scheduler.SurvivorsOrdered` | src/event_loop.rs:216-226 | execution follows push order, nothing twice |
| `Timers.TotalOrder` | src/state.rs:56-65 | strict total order by deadline then sequence number on deadlines that are numbers |
| `Timers.TransitiveIff` | src/state.rs:56-65 | over all triples with distinct sequence numbers: any two timers are ordered one way, and the order composes iff no rotation is a NaN cycle |
| `Timers.OrderedIff` | src/state.rs:37-65 | the heap order is a strict total order on a set of timers iff no NaN sits between two deadlines that run the other way |
| `Timers.CycleHasNoLeast` | src/state.rs:56-65 | three timers of a NaN cycle have no least one |
| `Timers.NaNWitness` | src/state.rs:56-65 | there are such timers |
| `Timers.LeastExists` | src/state.rs:37-65 | a non-empty heap has a least timer |
| `Timers.NeverOversleeps` | src/state.rs:271-280 | zero wait iff something is due; a sleep ends at the earliest deadline; infinite or huge deadlines panic |
| `Timers.SleepsForeverIff` | src/state.rs:271-280 | the loop may sleep without a deadline iff there is no timer |
| `DatagramTransport.SendQueue.Run` | python/tokioop/transports.py:665-733 | datagrams leave in acceptance order, each once; each one the socket refused is told to error_received, once; a fatal send error closes; size = queue plus what forced closes dropped less what wider items kept from being added; queued data has a writer; a closing live transport has its report queued or a writer; the loss is reported at most once; nothing vanishes before the teardown |
| `DatagramTransport.SendQueue.Send` | python/tokioop/transports.py:665-705 | refused exactly for a foreign address, a lost connected transport or a torn-down one; accepted in order otherwise, whatever the item size |
| `DatagramTransport.SendQueue.SendDirect` | python/tokioop/transports.py:693-700 | an OSError of the immediate attempt is told to error_received, any other exception tears down |
| `DatagramTransport.SendQueue.Tell` | python/tokioop/transports.py:718-727 | so is one of a queued attempt |
| `DatagramTransport.SendQueue.SendQueued` | python/tokioop/transports.py:707-727 | the loop computes `Drained` |
| `DatagramTransport.SendQueue.SendtoReady` | python/tokioop/transports.py:707-733 | live: the queue is attempted from its head, a refusal is told to the protocol and any other error tears down; otherwise re-entrant callbacks, then the writer is dropped and the loss reported; torn down: a datagram vanishes unreported iff one is queued |
| `DatagramTransport.SendQueue.Handle` | python/tokioop/transports.py:665-733 | over all events: a datagram vanishes unreported iff a registered writer fires on a torn-down transport with a non-empty queue |
| `DatagramTransport.SendQueue.TakeConnectionLost` | python/tokioop/transports.py:236-248 | a queued report tears the transport down, or finds it torn down already |
| `Datagram.DrainedKeeps` | python/tokioop/transports.py:707-727 | everything leaving was sent, except the last on an error; stops at the first block or error; with the consequence of that drawn, everything is in order |
| `Datagram.DrainedAnswers` | python/tokioop/transports.py:707-727 | the k-th datagram that leaves met the fate its answer of the socket says |
| `Datagram.DrainedCount` | python/tokioop/transports.py:707-727 | the drain ends with the first answer that is not Ok, or with the queue |
| `Datagram.SizeExactIff` | python/tokioop/transports.py:703-711 | reported size = queue size iff what forced closes dropped equals what was never added; without dropped datagrams iff nothing was too little, with single-byte items iff none was dropped |
| `Datagram.ShortIff` | python/tokioop/transports.py:703-711 | a queued view makes the size fall short iff it has an item wider than a byte |
| `DatagramRuns.AbortKeepsSize` | python/tokioop/transports.py:224-234 | a run in which abort leaves the size of two dropped datagrams |
| `DatagramRuns.WideViewSkewsSize` | python/tokioop/transports.py:703-711 | for every view queued and then sent: the size of the empty queue is its elements less its bytes, zero iff its items are single bytes |
| `DatagramRuns.DatagramVanishes` | python/tokioop/transports.py:707-727 | a run in which a datagram queued by connection_lost is popped and lost |
| `Datagram.PoppedKeeps` | python/tokioop/transports.py:707-727 | popping on a torn-down transport keeps order and size accounts, and loses a datagram iff one is queued |
| `Datagram.ForceClosedKeeps` | python/tokioop/transports.py:224-234 | dropped datagrams are accounted for, in order |

## Left out

- `_write_send`, the fallback without sendmsg, which drops the popped chunk when the socket blocks.
- The callback-mode read paths (`_read_ready__get_buffer`, `_read_ready__data_received`) and switching the protocol kind while paused; the read mode is fixed per transport.
- Datagram reading and its replay queue, which repeat the stream path with unguarded error delivery.
- SystemExit and KeyboardInterrupt raised by callbacks, which leave replay and write paths half-done.
- `sendfile` and its empty-waiter, SSL, `start_tls`, servers, name resolution, executors, signals, asyncgen hooks, the exception handler and metrics other than the watcher count.
- `_FlowControlMixin` watermarks: every point where a flow-control callback may run is treated as one where it does.
- File descriptor duplication, address parsing, reference counting and the GIL; Tokio, SegQueue and BinaryHeap are environment steps or abstract containers, and wrap-around of Tokio's readiness tick is not modelled.
- `sock_recv`, `sock_sendall` and the other sock_* loops beyond their done-callbacks.
- Scheduler.EventLoop.RunTimers: a script is finite, so a callback that schedules past deadlines forever, which keeps the phase from ending, is not modelled.
