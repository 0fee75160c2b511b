# Muduo Reactor core in Dafny

This project models the Reactor at the heart of the Muduo_Lib network library.
Three classes make up the Reactor:

- A `Channel` holds one file descriptor. It also holds the events the
  program is interested in on that descriptor, the events epoll last reported
  for it, a registration tag and its callbacks.
- The epoll backend `EPollPoller` keeps a registry that maps each descriptor
  to its Channel. It keeps the kernel's epoll interest list in step with that
  registry through `epoll_ctl`, and it turns each `epoll_wait` answer into a
  list of active Channels.
- An `EventLoop` belongs to one thread. Each pass of its loop polls the
  backend, dispatches the active Channels, and then runs the functors that
  other code queued for it. An eventfd-backed wakeup Channel lets other
  threads interrupt the blocking poll.

The model is written in the same form as the source:

- `Channel`, `EPollPoller` and `EventLoop` are classes whose methods update
  their fields.
- The decisions that `updateChannel` and `removeChannel` take are pure
  functions (`UpdatePlan`, `RemovePlan`, `Perform`).
- The kernel's interest list is a map. `epoll_ctl` is a pure function on it
  (`EpollCtl`).
- Each `epoll_wait` answer is supplied as a parameter (`Round`), as is the
  thread a caller runs on.

The main results are:

- The backend's bookkeeping invariant `EPollPoller.Consistent` holds across
  every `updateChannel` and `removeChannel` call, over any sequence of calls.
  The invariant says that a Channel is in the registry iff its tag is not
  kNew. It is in the kernel, with its current mask, iff its tag is kAdded.
  As a consequence, no operation is ever refused for EEXIST or ENOENT: the
  bookkeeping never issues a conflicting operation.
- `poll` waits with the loop's 10000 ms timeout, fills the active list in the order of the buffer, sets each
  Channel's `revents`, doubles the buffer exactly when it was full, and logs
  every epoll_wait error except EINTR.
- `queueInLoop`, `runInLoop`, `quit` and `doPendingFunctors` do the
  following:
  - They wake the loop exactly in the cases the source does.
  - They run the pending batch in FIFO order after one swap.
  - Functors queued during a drain wait for the next pass.
- `loop()` equals a pure step function iterated over the supplied epoll
  answers. It stops only on `quit`.

Files:

| file | what it holds |
|---|---|
| `interest.dfy` | the interest masks and their mutators |
| `registration.dfy` | the tag state machine and its invariant |
| `kernel.dfy` | the epoll interest list, `epoll_ctl` and `epoll_wait` |
| `functors.dfy` | pending functors as data |
| `epoll_poller.dfy` | the backend class |
| `channel.dfy` | the Channel class |
| `event_loop.dfy` | the loop class and the one-loop-per-thread slot |

## Model

| member | source | states |
|---|---|---|
| WithRead | SRC/Channel.h:43 | enabling reading sets both read bits (EPOLLIN, EPOLLPRI) and keeps every other bit |
| WithoutRead | SRC/Channel.h:44 | disabling reading clears both read bits and keeps every other bit |
| WithWrite | SRC/Channel.h:45 | enabling writing sets the write bit (EPOLLOUT) and keeps every other bit |
| WithoutWrite | SRC/Channel.h:46 | disabling writing clears the write bit and keeps every other bit |
| EnableReadingKeepsWriting | SRC/Channel.h:43-52 | after enableReading, isReading holds and isWriting is as before |
| DisableReadingKeepsWriting | SRC/Channel.h:44-52 | after disableReading, isReading fails and isWriting is as before |
| EnableWritingKeepsReading | SRC/Channel.h:45-52 | after enableWriting, isWriting holds and isReading is as before |
| DisableWritingKeepsReading | SRC/Channel.h:46-52 | after disableWriting, isWriting fails and isReading is as before |
| MutatorsKeepInterestOnly | SRC/Channel.h:43-47 | no mutator sets a bit outside kReadEvent and kWriteEvent |
| EnableIdempotent | SRC/Channel.h:43-45 | enabling an interest twice equals enabling it once |
| DisableReadingUndoesEnable | SRC/Channel.h:43-44 | disableReading after enableReading leaves the mask with reading off, whatever it was |
| DisableWritingUndoesEnable | SRC/Channel.h:45-46 | disableWriting after enableWriting leaves the mask with writing off, whatever it was |
| NoneIffNeither | SRC/Channel.h:50-52 | on a mask built by the mutators, isNoneEvent iff neither isReading nor isWriting |
| ReadFromNone | SRC/Channel.h:43 | enableReading on an empty mask yields exactly kReadEvent |
| PerformKeepsCoherent | SRC/EPollPoller.cc:64-110 | one updateChannel/removeChannel keeps a descriptor coherent (registered iff tag != kNew, in the kernel iff tag == kAdded), and its operation is never refused for EEXIST or ENOENT (the bookkeeping never issues a conflicting operation) |
| CoherentAcrossCalls | SRC/EPollPoller.cc:64-110 | over any sequence of updateChannel/removeChannel calls a coherent descriptor stays coherent, and no epoll_ctl is ever refused for EEXIST or ENOENT (the bookkeeping never issues a conflicting operation), so none is reported or fatal for that reason |
| UpdatePlan | SRC/EPollPoller.cc:64-94 | updateChannel always issues one epoll_ctl and never erases; it inserts into the registry iff the tag is kNew; it issues ADD iff the tag is kNew or kDeleted; from a valid tag it ends at kAdded iff the operation is not DEL |
| RemovePlan | SRC/EPollPoller.cc:97-110 | removeChannel always erases and ends at kNew; it issues an epoll_ctl iff the tag is kAdded, and then it is DEL |
| UpdateTransitions | SRC/EPollPoller.cc:71-93 | kNew and kDeleted go to kAdded with ADD (only kNew enters the registry); kAdded with no interest goes to kDeleted with DEL; kAdded with interest stays kAdded with MOD |
| RemoveTwiceIsNoOp | SRC/EPollPoller.cc:97-110 | removeChannel always ends at kNew outside the registry and the kernel; it issues DEL iff the tag was kAdded; a second call issues nothing and changes nothing |
| EpollCtl | SRC/EPollPoller.cc:135 | epoll_ctl: ADD fails with EEXIST on a registered descriptor, MOD and DEL fail with ENOENT on an unregistered one; on success only that descriptor's entry changes |
| Received | SRC/EPollPoller.cc:34-35 | epoll_wait copies the longest prefix of the ready records that fits in the `events_.size()` slots; a failure copies none |
| CtlFailures | SRC/EPollPoller.cc:135-144 | a refused DEL only logs; a refused ADD or MOD logs and ends the process; the interest list is unchanged on a refusal; an accepted operation logs nothing |
| Ctl | SRC/EPollPoller.cc:123-145 | epoll_ctl on the class state leaves the registry, the Channel set and the buffer alone, adds at most one log record, and only a refused ADD or MOD can end the process |
| AfterUpdate | SRC/EPollPoller.cc:64-94 | the registry gains the Channel iff its tag was kNew and is otherwise unchanged; the log gains at most one record |
| AfterRemove | SRC/EPollPoller.cc:97-110 | the descriptor leaves the registry and the Channel leaves the poller; when the tag was not kAdded, the interest list, the log and the exit flag are unchanged |
| CtlView | SRC/EPollPoller.cc:123-145 | for a Channel owning its descriptor, the kernel holds it after epoll_ctl exactly as the operation and its acceptance say; the log and the exit flag change exactly on a refusal |
| CtlTouchesOnly | SRC/EPollPoller.cc:123-145 | epoll_ctl changes only the Channel's own descriptor entry, and when accepted leaves the Channel's current mask there |
| AfterUpdateIsPerform | SRC/EPollPoller.cc:64-94 | the class-level updateChannel moves the Channel's registry, kernel and tag exactly as the per-descriptor state machine does, and logs or exits exactly when it says the kernel refused |
| AfterRemoveIsPerform | SRC/EPollPoller.cc:97-110 | the same for removeChannel |
| AfterUpdateTouchesOnly | SRC/EPollPoller.cc:64-94 | updateChannel changes only the Channel's own descriptor; it adds the Channel to the poller iff the tag was kNew; an accepted ADD/MOD leaves the current mask in the kernel |
| AfterRemoveTouchesOnly | SRC/EPollPoller.cc:97-110 | removeChannel changes only the Channel's own descriptor, erases it from the registry and drops the Channel |
| NextSize | SRC/EPollPoller.cc:39-46 | the buffer doubles exactly when the number of received records equals its size, and otherwise keeps its size |
| EPollPoller.constructor | SRC/EPollPoller.cc:14-18 | an empty registry and interest list, and a buffer of kInitEventListSize = 16 slots (SRC/EPollPoller.h:28) |
| EPollPoller.Update | SRC/EPollPoller.cc:123-145 | the new state is epoll_ctl's result with the Channel's current mask and pointer, with DEL failures logged and ADD/MOD failures fatal |
| EPollPoller.InterestChangeKeepsConsistent | SRC/Channel.h:43-47 | changing a Channel's mask breaks the invariant only in that Channel's kernel mask |
| EPollPoller.UpdateChannel | SRC/EPollPoller.cc:64-94 | the state and the tag become AfterUpdate/UpdatePlan of the old ones; from a consistent poller and an admitted Channel, the poller is consistent again with nothing logged |
| EPollPoller.UpdateKeepsConsistent | SRC/EPollPoller.cc:64-94 | updateChannel restores the whole invariant, including the Channel's stale kernel mask |
| EPollPoller.DistinctFds | SRC/Poller.h:34-35 | no two Channels of a consistent poller share a descriptor |
| EPollPoller.RemoveChannel | SRC/EPollPoller.cc:97-110 | the state becomes AfterRemove of the old one and the tag kNew; from a consistent poller, the poller stays consistent, and the Channel and its descriptor leave the registry and the kernel |
| EPollPoller.RemoveKeepsConsistent | SRC/EPollPoller.cc:97-110 | removeChannel keeps the invariant |
| EPollPoller.OwnedWhenAdmitted | SRC/Poller.h:34-35 | an admitted Channel owns its descriptor's registry and kernel entries and is coherent |
| EPollPoller.FillActiveChannels | SRC/EPollPoller.cc:112-120 | appends the Channel of each of the first numEvents records in buffer order, and sets each one's revents to the reported events |
| EPollPoller.Wait | SRC/EPollPoller.cc:34-36 | the call's timeout is recorded in `waits`; epoll_wait writes the received records to the front of the buffer and returns their number; a failure returns -1 with the errno and leaves the buffer alone |
| EPollPoller.Poll | SRC/EPollPoller.cc:29-61 | waits once with the given timeout (recorded in `waits`) and returns the clock reading; only the received records' Channels may have their revents changed; the active list gains the ready Channels in order with their revents set; the buffer size becomes NextSize; only non-EINTR errors are logged; registry, interest list and invariant are unchanged |
| EPollPoller.MasksKeepConsistent | SRC/EPollPoller.cc:112-120 | setting revents does not disturb the invariant |
| Channel.constructor | SRC/Channel.h:22 | a new Channel has its loop and descriptor, no interest, tag kNew (SRC/EPollPoller.cc:9) and empty callbacks |
| Channel.SetReadCallback | SRC/Channel.h:29 | sets the read callback and nothing else |
| Channel.SetWriteCallback | SRC/Channel.h:30 | sets the write callback and nothing else |
| Channel.SetCloseCallback | SRC/Channel.h:31 | sets the close callback and nothing else |
| Channel.SetErrorCallback | SRC/Channel.h:32 | sets the error callback and nothing else |
| Channel.SetRevents | SRC/Channel.h:40 | sets revents and nothing else |
| Channel.IsNoneEvent | SRC/Channel.h:50 | true iff the mask is kNoneEvent, and then the Channel is neither reading nor writing |
| Channel.IsWriting | SRC/Channel.h:51 | true iff the write bit is set, and then the mask is not empty |
| Channel.IsReading | SRC/Channel.h:52 | true iff one of the read bits is set |
| Channel.SetIndex | SRC/Channel.h:55 | sets the tag and nothing else |
| Channel.Update | SRC/Channel.h:62 | hands the Channel to its loop's updateChannel, with that call's whole contract: the backend changes as updateChannel says, and its buffer and record of epoll_wait calls stay as they were |
| Channel.Remove | SRC/Channel.h:59 | hands the Channel to its loop's removeChannel, with that call's whole contract: the backend changes as removeChannel says, and its buffer and record of epoll_wait calls stay as they were |
| Channel.EnableReading | SRC/Channel.h:43 | the mask gains the read bits, then updateChannel runs; a consistent poller stays consistent; no epoll_wait is issued (the backend's buffer and wait record are outside the frame) |
| Channel.DisableReading | SRC/Channel.h:44 | the mask loses the read bits, then updateChannel runs; a consistent poller stays consistent; no epoll_wait is issued (the backend's buffer and wait record are outside the frame) |
| Channel.EnableWriting | SRC/Channel.h:45 | the mask gains the write bit, then updateChannel runs; a consistent poller stays consistent; no epoll_wait is issued (the backend's buffer and wait record are outside the frame) |
| Channel.DisableWriting | SRC/Channel.h:46 | the mask loses the write bit, then updateChannel runs; a consistent poller stays consistent; no epoll_wait is issued (the backend's buffer and wait record are outside the frame) |
| Channel.DisableAll | SRC/Channel.h:47 | the mask becomes empty (isNoneEvent, neither reading nor writing), then updateChannel runs; a consistent poller stays consistent; no epoll_wait is issued (the backend's buffer and wait record are outside the frame) |
| SpawnedSnoc | SRC/EventLoop.cc:187-190 | the functors queued by one more functor come after those queued by the batch before it |
| SpawnedMembers | SRC/EventLoop.cc:177-193 | a functor is pending after a drain iff some drained functor queued it |
| RanAllSnoc | SRC/EventLoop.cc:187-190 | running one more functor appends exactly its Ran record |
| AnyQuitsSnoc | SRC/EventLoop.cc:187-190 | the quit flag after one more functor is set iff it was set before or that functor quits |
| CycleView | SRC/EventLoop.cc:73-91 | one pass only extends the trace, the log and the record of poll timeouts; the trace grows by one record per received epoll record plus one per pending functor; the buffer never shrinks and quit is never cleared |
| Cycles | SRC/EventLoop.cc:73-91 | the passes only extend the trace and the poll record and never shrink the buffer; a loop that has quit is left unchanged |
| CyclesStep | SRC/EventLoop.cc:73-91 | a pass that does not see the quit flag continues the loop from that pass's result |
| CyclesStopOnlyOnQuit | SRC/EventLoop.cc:73-91 | the loop runs at most one pass per epoll answer, and stops before the answers run out only because quit is set; a loop that has not quit sets quit only by running at least one pass |
| CyclesPollEveryPass | SRC/EventLoop.cc:77 | every pass polls exactly once, with the timeout kPollTimeMs = 10000 (SRC/EventLoop.cc:18) |
| BufferDoublesFrom | SRC/EPollPoller.cc:43-46 | across any number of passes the buffer size is its start size times a power of two |
| CyclesExtend | SRC/EventLoop.cc:73-91 | the trace and the log only grow, and the loop logs nothing but epoll_wait errors other than EINTR |
| DrainedSpawnsRunNextPass | SRC/EventLoop.cc:177-193 | over two passes, the first runs exactly the functors pending at its start, and the second runs exactly the functors they queued, after its own dispatches |
| QuitInDrainStopsLoop | SRC/EventLoop.cc:73-91 | a pending functor that calls quit ends the loop after the pass that runs it, whatever epoll answers remain |
| ThreadSlot.constructor | SRC/EventLoop.cc:15 | a thread's slot starts empty |
| EventLoop.constructor | SRC/EventLoop.cc:31-39 | flags false, pending list empty, a fresh empty consistent backend with 16 slots, and a new wakeup Channel on the eventfd with tag kNew and no interest |
| EventLoop.UpdateChannel | SRC/EventLoop.cc:162-165 | forwards to the backend with its whole contract |
| EventLoop.RemoveChannel | SRC/EventLoop.cc:167-170 | forwards to the backend with its whole contract |
| EventLoop.Wakeup | SRC/EventLoop.cc:151-159 | one more write to the eventfd |
| EventLoop.IsInLoopThread | SRC/EventLoop.h:44 | the comparison `threadId_ == CurrentThread::tid()` with the caller's thread as a parameter; Quit, QueueInLoop and RunInLoop state their wake rules in terms of it |
| EventLoop.Quit | SRC/EventLoop.cc:104-111 | sets quit, and wakes the loop iff the caller is not the loop thread |
| EventLoop.QueueInLoop | SRC/EventLoop.cc:125-138 | appends the functor at the end of the pending list, and wakes the loop iff the caller is not the loop thread or the loop is draining |
| EventLoop.Invoke | SRC/EventLoop.cc:113-118 | a functor on the loop thread is recorded as run, appends its spawns in order (waking iff the loop is draining), and sets quit iff it quits |
| EventLoop.RunInLoop | SRC/EventLoop.cc:113-123 | on the loop thread the functor runs at once; from another thread it is queued and the loop is woken, and nothing else changes |
| EventLoop.DoPendingFunctors | SRC/EventLoop.cc:177-193 | the batch taken in one swap runs in FIFO order; what it queues stays pending for the next pass, with one wakeup each; quit is set iff some functor quits; the draining flag is false afterwards |
| EventLoop.DispatchActive | SRC/EventLoop.cc:78-83 | each active Channel, in order, handles the events it was given at the poll's return time |
| EventLoop.PollActive | SRC/EventLoop.cc:75-77 | the active list is cleared and refilled with the received records' Channels in order, each with its revents set, by one poll whose recorded timeout is kPollTimeMs = 10000 (SRC/EventLoop.cc:18); only those Channels' revents may change; the loop stays valid |
| EventLoop.PollAndDispatch | SRC/EventLoop.cc:75-83 | the trace gains exactly the dispatches of the received records; pollReturnTime is the poll's clock reading |
| EventLoop.FlagsKeepValid | SRC/EventLoop.cc:31-56 | the loop's invariant does not depend on its flags or its pending list |
| EventLoop.KeepsValid | SRC/EventLoop.cc:31-56 | the loop's invariant survives any step that keeps the backend consistent and the wakeup Channel registered for reading |
| EventLoop.Cycle | SRC/EventLoop.cc:75-90 | one pass changes the loop's view exactly as CycleView says, keeps the wakeup Channel registered, and leaves pollReturnTime at that pass's clock reading |
| EventLoop.RunCycles | SRC/EventLoop.cc:73-91 | the while loop equals Cycles over the epoll answers, with CycleCount passes, at most one per answer; after at least one pass, pollReturnTime is the last pass's clock reading |
| EventLoop.Loop | SRC/EventLoop.cc:66-94 | quit is reset, then the passes run as Cycles says; looping is false exactly when the loop has returned on quit; after at least one pass, pollReturnTime is the last pass's clock reading |
| EventLoop.Destroy | SRC/EventLoop.cc:58-64 | the wakeup Channel ends with no interest and tag kNew, and is off the backend with nothing logged; exactly the wakeup descriptor leaves the registry and the interest list, exactly the wakeup Channel leaves the backend, and the buffer and the record of epoll_wait calls are outside the frame; the thread's slot is cleared |
| CreateEventLoop | SRC/EventLoop.cc:31-56 | a second loop on a thread is fatal; otherwise the loop takes the slot and its wakeup Channel is the backend's only Channel, registered for reading with the wakeup handler; the backend has 16 slots, an empty error log and no epoll_wait call yet |

## Left out

- Logger: LOG_INFO and LOG_DEBUG are not modelled. LOG_ERROR and LOG_FATAL are records in the backend's `errorLog`.
- LOG_FATAL is the `exited` flag, or a null result in `CreateEventLoop`. Steps after it are still modelled, but they describe a process that no longer runs.
- Timestamp is kept opaque. Each poll's clock reading is a parameter.
- System calls are parameters or abstract:
  - epoll_wait's answer is a parameter.
  - epoll_ctl is a pure function on the interest list.
  - epoll_create1, eventfd and close are left out, along with their failure paths (SRC/EPollPoller.cc:16-20, SRC/EventLoop.cc:21-29, 62).
- EventLoop.Wakeup: the 8-byte write is counted, but its short-write check is left out because the write is abstract.
- `handleRead` (SRC/EventLoop.cc:140-148) is left out for the same reason: it only reads the eventfd and logs a short read.
- Channel.cc is not part of this model. From it, the model keeps only these facts:
  - `update()` and `remove()` forward to the loop.
  - A new Channel starts at kNew with no interest.
  - The mask constants take the values from sys/epoll.h.
- `handleEvent`, `handleEventWithGuard` and `tie` (SRC/Channel.h:26, 35, 63) are not modelled. Dispatch appears as a `Dispatched` record with the Channel's descriptor and revents.
- `hasChannel` (SRC/EventLoop.cc:172-175, SRC/Poller.h:28) is left out: its body is not part of this model.
- Functors are data. A functor has an identity and queues other functors on its own loop from the loop thread. It may also call `quit`. Any other effect of user code is not modelled.
- Threads are left out:
  - A thread is an integer parameter.
  - `t_loopInThisThread` is an explicit `ThreadSlot`.
  - The mutex makes the append in `queueInLoop` and the swap in `doPendingFunctors` atomic.
  - Interleavings of the loop thread with callers on other threads are not modelled, and neither are the atomic flags' memory ordering.
- EventLoop.Loop: it runs only as many passes as epoll answers are supplied. If the answers run out before `quit`, the method returns with `looping` still true, whereas the source would keep polling.
- EpollCtl: only the EEXIST and ENOENT refusals are modelled. EBADF, EPERM, ENOMEM and ENOSPC are not, because they depend on the descriptor's kind and on kernel limits. So the claim that no epoll_ctl is refused covers only these two errors; CtlFailures still states how any refusal is handled.
- EventLoop.DispatchActive: a dispatch is only a trace record, so a Channel's callback cannot call `quit`, `queueInLoop` or the interest mutators. In the source a functor that a callback queues runs in the same pass's drain, because the swap (SRC/EventLoop.cc:184) comes after the dispatch loop. A `quit` during dispatch ends the loop after that pass's drain. The model captures neither.
- EventLoop.PollActive: the timeout is recorded, not acted on. Whether epoll_wait returned by timeout, by an event or by an error is decided by the supplied answer.
- EPollPoller.Poll and EventLoop.Loop require each epoll_wait answer to be drawn from the current interest list: known descriptors, the registered pointers, no duplicates. This is a property of the kernel, not a demand the source makes of its callers.
- EPollPoller.UpdateChannel and EPollPoller.RemoveChannel prove the invariant only for a Channel the poller admits: one of its own Channels, or a new Channel on a descriptor that none of them uses. For other calls, only the state transition is stated.
- Integer widths:
  - Masks are 32-bit vectors.
  - Tags, descriptors and errno values are unbounded integers.
  - Buffer sizes are unbounded, so the doubling in `poll` never overflows.
- `currentActiveChannel_`, `ownerLoop()` and the getters `fd()`, `events()` and `index()` are not separate members. The first is never used, and the model reads the fields directly.
