# Verification of mudong-ev

A Dafny model of the parts of mudong-ev whose correctness depends on every
interleaving of threads or on every partial result of a system call, and proofs
about that model:

* the connection: output path, half-close, forced close, notifications
  (`Connection`, `ConnectionRuns`, `ConnectionLedger`, `ConnectionHalfClose`,
  `ConnectionProgress`, `ConnectionFaults`, `TcpConnection`), its channel and
  poller (`Interest`, `Reactor`) and the server's set of live connections (`TcpServer`);
* the cross-thread task queue and wakeup of an event loop (`EventLoop`,
  `EventLoopClass`);
* the bounded blocking thread pool (`ThreadPool`, `ThreadPoolRuns`,
  `ThreadPoolClass`);
* the timer queue (`Timers`, `TimerRuns`, `TimerFaults`, `TimerQueue`);
* the buffer and its integer codec (`Codec`, `BufferModel`, `Buffer`).

`dafny verify dfyconfig.toml` checks everything.

## How it is built

Each component has a value model: a state, one function per operation of the
source, the failed assertions of the source as an explicit `Fault`, and a step
relation in which the kernel, the callers and the other threads choose freely.
Invariants and run theorems are proved there. Beside it stands a class in the
shape of the source, with its fields, loops and in-place updates; each method is
proved against the function of the value model that it performs, or, for the two
concurrent components and for whole dispatches, proved to move only along runs of
the protocol.

Histories kept by the model (bytes sent, tasks queued, timers fired) are tied to
the run itself: to the calls made in it and to the results its system calls
reported.

System calls are parameters: `write`, `readv`, `epoll_wait`, the clock and the
timerfd report what the caller of the model says, within what the kernel can
report. User callbacks are further steps, allowed wherever the source runs user
code. In `EventLoopClass` and `ThreadPoolClass` the code of one thread updates the
fields itself, and the other threads act between any two of its atomic steps
according to an arbitrary plan of protocol steps.

## Where the code does not keep a promise

These follow from the code as it is. Each item names a run that exhibits it and
the if-and-only-if that says when it happens.

* All workers and some client of the pool can be asleep together
  (`BothSidesAsleepReachable`), exactly when there are more clients than places in
  the queue (`BothSidesAsleepIff`). It is not a deadlock (`NotStuck`,
  `MaximalRunDelivers`).
* Tasks that call `runTask` of their own pool can bring it to a halt
  (`SelfDeadlockReachable`), whatever its size (`SelfDeadlockIff`). It is the only
  deadlock: a pool that cannot go on has done all its work, or every worker still
  there waits in `runTask` (`NotStuck`, `SelfDeadlockIsStuck`,
  `MaximalRunDelivers`), and without such tasks there is none (`NoSelfDeadlock`).
* A client blocked in `runTask` when `stop()` returns is never released
  (`StrandedReachable`, `StrandedProducer`). `stop()` can leave a caller blocked for
  ever exactly when the callers inside `runTask` and the queue exceed the capacity by
  more than the takes that are already certain (`StopStrandsIff`), and
  `StrandedCount` says how many.
* `shutdown()` from another thread can issue SHUT_WR before a message queued
  earlier, which is then lost, and issue it twice (`ForeignShutdownWitness`). It
  issues SHUT_WR once in every run exactly when its exchange finds no accepted byte
  on this side of the kernel, neither in the output buffer, nor in either task
  vector, nor with a thread inside `send()`, or when the close callback is about to
  run (`ForeignShutdownOnceIff`). It never issues more than two, and `shutdown()` on
  the loop thread never more than one (`ShutdownBound`).
* On either thread `shutdown()` can leave accepted messages behind its SHUT_WR,
  exactly in these situations (`HalfCloseCleanIff`): called on the loop thread with
  an empty output buffer, when any message bytes are still on their way; otherwise,
  unless the close callback is about to run, when a thread is inside `send()` with a
  message, or `pendingTasks_` holds one and the output buffer can drain before it is
  swapped out. With all sends on the loop thread it is always clean
  (`CleanHalfClose`).
* The separate load and exchange in `forceClose`/`shutdown` let an exchange land
  after the close, after which a second `forceClose` fails
  (`StaleExchangeBreaksClose`). The same goes for `shutdown` after the close,
  `startRead` after the close or before `connectEstablished`, `forceClose` or
  `shutdown` before `connectEstablished`, and a report of EPOLLHUP without EPOLLIN
  but with EPOLLPRI: a step leads to a failed assertion exactly when it is one of
  these (`ConnectionFaults.FaultIff`).
* A task queued by the loop thread before `loop()` is not woken
  (`EarlyPushLosesWakeup`). That happens exactly when nothing returns the first
  poll and no other thread queues a task or quits (`NoLostWakeup`).
* A `quit()` before `loop()` is forgotten (`EarlyQuitForgotten`): `quit_` is set
  exactly when a `quit()` came after `loop()` began (`QuitHeldIff`). The assertions
  of `quit()`, `runTask` and `stop()` against a second call fail exactly after the
  first (`QuitFailsIff`, `CallFailsIff`).
* `cancelTimer` on a timer that is not in the set leads to a failed assertion or the
  use of a freed timer, and no other call does (`TimerFaults.FaultIff`); a callback
  that cancels its own timer is the nearest case (`SelfCancelTouchesFreed`).

## Model

| member | source | states |
|---|---|---|
| Codec.DecodeEncode | src/Buffer.hpp:162-240 | every signed 8/16/32/64-bit value survives append and peek |
| Codec.EncodeDecode | src/Buffer.hpp:211-240 | every byte pattern is the encoding of the value peek returns |
| Codec.NetworkOrder | src/Buffer.hpp:162-181 | byte i of an unsigned value is its digit of weight 256^(w-1-i) |
| Codec.EncodeOrder | src/Buffer.hpp:162-181 | appendIntN and prependIntN write two's complement, most significant byte first: byte i is the digit of weight 256^(w-1-i) of x modulo 256^w |
| Codec.DecodeOrder | src/Buffer.hpp:211-240 | peekIntN returns the one value of that width whose big-endian bytes these are |
| BufferModel.CompactRoom | src/Buffer.hpp:280-286 | the assertion in makeSpace's compacting branch cannot fail |
| BufferModel.EnsureWritableSpec | src/Buffer.hpp:142-148 | making space keeps the content, provides the room, and a growth is below readable + 2*len + 8 |
| BufferModel.AppendSpec | src/Buffer.hpp:132-137 | append adds exactly the data behind the content, across compaction and growth |
| BufferModel.RetrieveSpec | src/Buffer.hpp:77-84 | retrieve drops exactly the first len bytes and moves nothing; an emptied buffer has all of its room back |
| BufferModel.PrependSpec | src/Buffer.hpp:263-269 | prepend puts exactly the data in front of the content |
| BufferModel.ReadFdSpec | src/Buffer.cc:15-38 | readFd appends exactly the bytes read, nothing on error, at most 131071 when the extra buffer is used |
| BufferModel.RunRefinesQueue | src/Buffer.hpp:77-148 | over any run of operations the readable region is the content of a plain byte queue fed the same operations |
| BufferModel.SpaceBound | src/Buffer.hpp:280-294 | storage stays within the initial size or 8 + 2*M when content plus demand stays within M, however long the run |
| BufferModel.PrependRoom | src/Buffer.hpp:17-25 | without prepends at least eight bytes of headroom remain over any run |
| BufferModel.IntRoundTrip | src/Buffer.hpp:162-209 | a list of integers appended behind any content and read after any further traffic comes back unchanged, and what follows stays |
| BufferModel.PrependRoundTrip | src/Buffer.hpp:242-269 | a prepended integer is read back first and the content behind it is intact |
| BufferClass.Buffer.constructor | src/Buffer.hpp:20-28 | an empty buffer with the prepend gap in front |
| BufferClass.Buffer.Retrieve | src/Buffer.hpp:77-84 | the in-place retrieve is the modelled one and drops the first len bytes |
| BufferClass.Buffer.RetrieveAll | src/Buffer.hpp:105-109 | both indices go back to the prepend gap, storage untouched |
| BufferClass.Buffer.RetrieveAsString | src/Buffer.hpp:114-120 | the string returned followed by what remains is the old content |
| BufferClass.Buffer.MakeSpace | src/Buffer.hpp:280-294 | resize or in-place slide, content unchanged |
| BufferClass.Buffer.SlideDown | src/Buffer.hpp:286-289 | the overlapping front-to-back copy moves the readable bytes to the gap and changes nothing else |
| BufferClass.Buffer.EnsureWritableBytes | src/Buffer.hpp:142-148 | afterwards at least len bytes are writable, content unchanged |
| BufferClass.Buffer.Append | src/Buffer.hpp:132-137 | content is the old content followed by the data |
| BufferClass.Buffer.Prepend | src/Buffer.hpp:263-269 | content is the data followed by the old content |
| BufferClass.Buffer.ReadFd | src/Buffer.cc:15-38 | the result is the byte count or -1 and the content grows by exactly those bytes |
| BufferClass.Buffer.AppendInt | src/Buffer.hpp:162-181 | the big-endian bytes of the value are appended |
| BufferClass.Buffer.PeekInt | src/Buffer.hpp:211-240 | the value whose big-endian bytes are at the front, nothing changed |
| BufferClass.Buffer.ReadInt | src/Buffer.hpp:183-209 | the value whose big-endian bytes were at the front, and they are removed |
| BufferClass.Buffer.PrependInt | src/Buffer.hpp:242-260 | the big-endian bytes of the value are put in front |
| Interest.UpdateExact | src/EPollPoller.cc:44-72 | an update trips no assertion and no epoll_ctl is refused exactly when interest is withdrawn only from a pooled channel, and the table keeps agreeing |
| Interest.TableAgrees | src/EPollPoller.cc:44-72 | over any legal run on any number of channels the kernel's table is exactly the pooled channels with their interest |
| Interest.DispatchOrder | src/Channel.cc:109-125 | each callback runs for exactly the events named, none twice, in the order close, error, read, write |
| Interest.DispatchReadsAfterCloseIff | src/Channel.cc:109-120 | one dispatch closes and then reads exactly for HUP without IN together with PRI or RDHUP |
| Reactor.Channel.Change | src/Channel.cc:73-103 | the five interest changes, pushed to the poller, keep the table in agreement |
| Reactor.EPollPoller.UpdateChannel | src/EPollPoller.cc:44-61 | the ADD/MOD/DEL choice is accepted by the kernel and pooling follows it |
| Reactor.EPollPoller.Poll | src/EPollPoller.cc:20-42 | active channels are the reported ones in order with their events, others untouched, and the event array ends larger than the report |
| Connection.SendInLoopInv | src/TcpConnection.cc:242-291 | for every outcome of write the assertion holds and conservation, write interest and books are kept |
| Connection.HandleWriteInv | src/TcpConnection.cc:203-225 | for every outcome of write a drain step keeps the invariant |
| Connection.ShutdownInLoopInv | src/TcpConnection.cc:296-303 | SHUT_WR is issued exactly when the connection is alive with an empty output buffer, and its books balance |
| Connection.HandleCloseInv | src/TcpConnection.cc:226-232 | closing ends in kDisconnected with the channel deregistered and the close callback run for the first time, and sends or drops nothing |
| Connection.DispatchInv | src/Channel.cc:109-125 | no handler's assertion fails in the callbacks of a dispatch, with user code in between |
| Connection.TaskInv | src/TcpConnection.cc:292-309 | queued sends, shutdowns and forced closes keep the invariant whenever they run |
| Connection.ReadToggle | src/TcpConnection.cc:161-174 | stopRead and startRead change EPOLLIN only and undo each other |
| ConnectionFaults.FaultIff | src/TcpConnection.cc:75-309 | a step fails an assertion, or lets a permitted step fail one later, exactly when the source's callers or the kernel were not allowed to take it |
| Connection.SafeStep | src/TcpConnection.cc:75-309 | every permitted step passes its assertions and keeps the invariant |
| ConnectionLedger.SendInLoopExact | src/TcpConnection.cc:255-290 | behind buffered output the message is kept whole; otherwise the kernel gets exactly the bytes write reported, the rest is kept, a message refused with EPIPE or ECONNRESET is dropped and one refused otherwise is kept |
| ConnectionLedger.HandleWriteExact | src/TcpConnection.cc:203-225 | the kernel gets exactly the reported number of bytes from the front of the buffer, and only those leave it |
| ConnectionLedger.HandleReadExact | src/TcpConnection.cc:186-202 | an error changes nothing, end of stream closes, data is appended and nothing else |
| ConnectionLedger.StepState | src/TcpConnection.cc:141-309 | exactly which steps change the state, and to what |
| ConnectionLedger.StepReading | src/TcpConnection.cc:161-174 | while the connection lives only startRead and stopRead change whether it is watched for input |
| ConnectionLedger.OutputConservation | src/TcpConnection.cc:203-225 | over any run the kernel has exactly what the write calls reported taking; followed by the buffer that is the non-faulted messages in order; every byte accepted by send is accounted for; input is exactly what readv delivered; EPOLLOUT interest holds exactly when the buffer is non-empty |
| ConnectionLedger.MessagesConserved | src/TcpConnection.cc:110-140 | over any run each accepted message, from whichever thread, was processed once, or is on its way, or was given up after the close, and there are no others |
| ConnectionRuns.DisconnectedIsAbsorbing | src/TcpConnection.cc:226-232 | after the close nothing is written, no SHUT_WR is issued and the state does not change |
| ConnectionRuns.CloseExactlyOnce | src/TcpConnection.cc:153-159 | the close callback has run once if disconnected and not at all otherwise |
| ConnectionRuns.StaleExchangeBreaksClose | src/TcpConnection.cc:153-159 | an exchange landing after the close makes the next forced close fail |
| ConnectionRuns.CleanHalfClose | src/TcpConnection.cc:141-152 | with loop-thread callers SHUT_WR is issued at most once, after every accepted non-faulted byte, and nothing is written later |
| ConnectionHalfClose.ForeignShutdownOnceIff | src/TcpConnection.cc:141-152 | after the exchange of shutdown() on another thread every run has at most one SHUT_WR exactly when no accepted byte is buffered, queued or with a thread inside send(), or the close callback is next |
| ConnectionHalfClose.ShutdownBound | src/TcpConnection.cc:296-303 | whatever other threads send, shutdown() on the loop thread leads to at most one SHUT_WR and on another thread to at most two |
| ConnectionHalfClose.HalfCloseCleanIff | src/TcpConnection.cc:141-152 | after shutdown() on either thread every SHUT_WR of every run finds all accepted bytes sent or faulted exactly when the call does not find bytes that the SHUT_WR can overtake, told by the loop's phase, the two task vectors, the buffer and the calls in progress |
| ConnectionHalfClose.ForeignShutdownWitness | src/TcpConnection.cc:141-152 | a run in which a foreign shutdown loses an accepted message and issues SHUT_WR twice, for any two messages |
| ConnectionRuns.NotificationsAreExact | src/TcpConnection.cc:266-290 | high-water notifications equal upward crossings of the mark; write-complete notifications equal drains plus complete direct writes |
| ConnectionRuns.StepNotes | src/TcpConnection.cc:280-287 | step by step, and a high-water notification carries the length reached |
| ConnectionProgress.ForceCloseCloses | src/TcpConnection.cc:153-159 | forceClose on the loop thread on a live connection has closed it, once, by the time the tasks queued before it and one more have run, whatever happens in between |
| ConnectionProgress.ForeignForceCloseCloses | src/EventLoop.cc:100-109 | the same from its push on, for forceClose on another thread |
| ConnectionProgress.ForceCloseTakesEffect | src/TcpConnection.cc:304-309 | a forced close at place i of the queue has closed the connection, once, by the time i + 1 tasks have run, whatever happens in between |
| ConnectionProgress.ShutdownStartsHalfClose | src/TcpConnection.cc:141-152 | after shutdown of a connected connection output is buffered, or SHUT_WR is issued, or the request is on its way to the loop |
| ConnectionProgress.HalfCloseHappens | src/TcpConnection.cc:203-225 | a half-close under way is never forgotten: in every later state the connection is closed, or has output left, or has the request on its way, or has had its SHUT_WR |
| ConnectionProgress.WriteCompleteMeansSent | src/TcpConnection.cc:266-272 | a step that queues a write-complete notification ends with every non-faulted byte processed so far in the kernel |
| TcpConnectionClass.TcpConnection.constructor | src/TcpConnection.cc:37-52 | a connecting connection with empty buffers and no interest |
| TcpConnectionClass.TcpConnection.ConnectEstablished | src/TcpConnection.cc:75-80 | the modelled transition, read interest registered |
| TcpConnectionClass.TcpConnection.Send | src/TcpConnection.cc:111-126 | refused unless connected, else written in the loop or queued |
| TcpConnectionClass.TcpConnection.SendInLoop | src/TcpConnection.cc:242-291 | the modelled disposal of a message on the real buffer, channel and poller |
| TcpConnectionClass.TcpConnection.Shutdown | src/TcpConnection.cc:141-152 | the modelled half-close request |
| TcpConnectionClass.TcpConnection.ForceClose | src/TcpConnection.cc:153-159 | the modelled exchange and push of a forced-close request |
| TcpConnectionClass.TcpConnection.HandleRead | src/TcpConnection.cc:186-202 | data is appended to the input buffer, end of stream closes, an error changes nothing |
| TcpConnectionClass.TcpConnection.HandleWrite | src/TcpConnection.cc:203-225 | the modelled drain on the real buffer, channel and poller |
| TcpConnectionClass.TcpConnection.HandleClose | src/TcpConnection.cc:226-232 | state, deregistration and close callback as modelled |
| TcpConnectionClass.TcpConnection.RunQueuedTask | src/TcpConnection.cc:292-309 | the oldest queued task has its modelled effect |
| TcpConnectionClass.TcpConnection.HandleEvents | src/Channel.cc:109-125 | a whole dispatch, with any sends, shutdown, forced close and reading done by the message callback inside it, is a safe run that begins with the report and runs every callback asked for, so no assertion in it fails |
| TcpConnectionClass.TcpConnection.MessageCallback | src/TcpConnection.cc:199-201 | every permitted call of the script is made, in order, as a safe run that leaves the dispatch in progress alone |
| TcpServer.CloseCallbackMeansClosed | src/TcpConnection.cc:226-232 | a step runs the close callback exactly when it leaves the live states |
| TcpServer.LiveSetIsExact | src/TcpServerSingle.cc:32-53 | over any interleaving of any number of connections the set is exactly the live ones, each closed at most once, the connection callback ran once up and, when closed, once down, and the FATAL is unreachable |
| TcpServer.TcpServerSingle.OnNewConnection | src/TcpServerSingle.cc:32-44 | the new connection joins the set established and is announced |
| TcpServer.TcpServerSingle.OnCloseConnection | src/TcpServerSingle.cc:46-53 | the erase removes exactly the closing connection, never reports FATAL, and the connection is announced down |
| EventLoopProtocol.NoLostWakeup | src/EventLoop.cc:100-119 | a blocked loop has queued tasks and neither an unread wakeup nor a thread about to write one exactly when the loop thread queued before loop() and nothing has happened since; with quit set it always has one |
| EventLoopProtocol.EarlyPushLosesWakeup | src/EventLoop.cc:100-109 | a task queued by the loop thread before loop() leaves it blocked without a wakeup |
| EventLoopProtocol.EarlyQuitForgotten | src/EventLoop.cc:62-84 | a quit before loop() clears the flag is lost |
| EventLoopProtocol.QuitHeldIff | src/EventLoop.cc:62-84 | once loop() has begun, the flag is set exactly when some quit came after that |
| EventLoopProtocol.QuitFailsIff | src/EventLoop.cc:78-84 | the assertion of quit() fails exactly when an earlier quit() has not been cleared by loop() |
| EventLoopProtocol.AtMostOneMoreIteration | src/EventLoop.cc:62-84 | after quit the loop never enters epoll_wait again |
| EventLoopProtocol.ExactlyOnceFifo | src/EventLoop.cc:100-119 | every call of queueInLoop queues one task; started, batch and pending make up the tasks queued, in order; the tasks of each thread, the loop thread included, start in the order of its calls |
| EventLoopProtocol.BoundedWork | src/EventLoop.cc:62-76 | between outside events every run is finite, also when tasks queue tasks |
| EventLoopProtocol.MaximalRunExecutesAll | src/EventLoop.cc:62-76 | a run that cannot go on by itself has left after quit, or is blocked having started one task per call, unless it is one of those in which a wakeup is lost |
| EventLoopClass.EventLoop.QueueInLoop | src/EventLoop.cc:100-109 | the task is pushed behind all tasks queued before, and the push and the conditional wakeup are steps of the protocol, with any interference in between |
| EventLoopClass.EventLoop.DoPendingTasks | src/EventLoop.cc:170-182 | exactly the tasks present at the swap are executed, in order, whatever they queue |
| EventLoopClass.EventLoop.HandleRead | src/EventLoop.cc:185-191 | the wakeup counter is consumed |
| EventLoopClass.EventLoop.RunLoop | src/EventLoop.cc:62-76 | epoll_wait returns once per report until quit is set; leaves only with quit set, and otherwise blocks without a lost wakeup |
| EventLoopClass.EventLoop.ClientPush | src/EventLoop.cc:100-109 | another thread's task goes to the end of pendingTasks_ |
| ThreadPoolProtocol.OrderBoundAndStop | src/ThreadPool.cc:25-65 | tasks taken followed by the queue are the tasks pushed, the bound holds, each taken task is executed once, no worker sleeps after stop's notify_all |
| ThreadPoolRuns.CallsConserved | src/ThreadPool.cc:25-53 | every task runTask was called with is inside runTask, in the queue, being executed or executed, and there is no other; without threads exactly the tasks given were executed, in order |
| ThreadPoolProtocol.SleepersAreCovered | src/ThreadPool.cc:82-95 | an unnotified sleeping worker implies enough notified workers, an unnotified sleeping producer enough notified producers |
| ThreadPoolRuns.BothSidesAsleepIff | src/ThreadPool.cc:25-53 | some run has all workers and some client asleep exactly when there are more clients than places in the queue |
| ThreadPoolRuns.BothSidesAsleepReachable | src/ThreadPool.cc:71-95 | such a run, for every capacity, number of threads and larger number of clients |
| ThreadPoolProtocol.NotStuck | src/ThreadPool.cc:71-95 | unless everything is delivered, or stop has returned, or every worker left waits in runTask itself, some thread can step |
| ThreadPoolProtocol.SelfDeadlockIsStuck | src/ThreadPool.cc:40-53 | when every worker left waits in runTask itself nobody can step |
| ThreadPoolProtocol.NoSelfDeadlock | src/ThreadPool.cc:40-53 | that state is never reached when no task calls runTask of its own pool |
| ThreadPoolRuns.SelfDeadlockIff | src/ThreadPool.cc:40-53 | with such tasks it is reachable exactly when the pool has threads and clients, for every capacity |
| ThreadPoolProtocol.CallFailsIff | src/ThreadPool.cc:25-65 | the assertions of runTask and stop fail exactly after a stop |
| ThreadPoolProtocol.BoundedWork | src/ThreadPool.cc:71-95 | no livelock: internal steps are bounded per call and per spurious wakeup under every schedule |
| ThreadPoolProtocol.MaximalRunDelivers | src/ThreadPool.cc:25-65 | every schedule ends with all tasks executed and no caller blocked, or with stop returned, or with every worker left waiting in runTask itself |
| ThreadPoolProtocol.WithoutThreads | src/ThreadPool.cc:25-30 | a pool without threads queues nothing and blocks nobody |
| ThreadPoolProtocol.StrandedProducer | src/ThreadPool.cc:55-65 | a client asleep when stop returns stays asleep |
| ThreadPoolRuns.StrandedCount | src/ThreadPool.cc:55-65 | however a stopped pool winds down, the clients left asleep are the callers and queued tasks beyond the capacity and the last takes, and the takes lie between those certain at stop and one per worker past its test |
| ThreadPoolRuns.StopStrandsIff | src/ThreadPool.cc:55-65 | some schedule after stop clears running leaves a client asleep for ever exactly when callers and queue exceed the capacity and the certain takes |
| ThreadPoolRuns.IdleClientsStayFree | src/ThreadPool.cc:55-65 | with no client inside runTask when running is cleared, none is ever blocked |
| ThreadPoolRuns.SleepersStayAsleep | src/ThreadPool.cc:71-95 | with no worker past its test of running when it is cleared, a client asleep then is asleep for good |
| ThreadPoolRuns.StrandedReachableIff | src/ThreadPool.cc:55-65 | some run ends with stop returned and a client asleep exactly when the pool has threads and clients |
| ThreadPoolClass.ThreadPool.Take | src/ThreadPool.cc:82-95 | with the mutex free and a task queued returns the front task; an empty task only when stopped with an empty queue; otherwise it stops only asleep or before a locked mutex with nobody else moving |
| ThreadPoolClass.ThreadPool.Pop | src/ThreadPool.cc:88-94 | front, pop, notify_one and unlock make up one take of the protocol |
| ThreadPoolClass.ThreadPool.Push | src/ThreadPool.cc:46-52 | push, notify_one and unlock make up one push of the protocol |
| ThreadPoolClass.ThreadPool.RunTask | src/ThreadPool.cc:40-53 | with the mutex free and room the task is appended; after waiting it is pushed last; otherwise it stops only asleep or before a locked mutex; without threads it is executed in place |
| ThreadPoolClass.ThreadPool.RunInThread | src/ThreadPool.cc:71-80 | takes and executes until running is cleared, stopping otherwise only where it is asleep or before a locked mutex with nobody else moving; the tasks it executes may call runTask |
| ThreadPoolClass.ThreadPool.Execute | src/ThreadPool.cc:71-80 | a task with any calls of runTask inside it moves along the protocol and ends executed, unless it waits for ever |
| ThreadPoolClass.ThreadPool.Stop | src/ThreadPool.cc:55-65 | clears running, notifies every sleeper under the mutex and joins the threads one by one; returns only when every worker has exited, and otherwise waits only for the mutex or for a worker |
| Timers.DurationIsExact | src/TimerQueue.cc:29-40 | the timespec is normalised, never zero, and denotes the later of the requested time and one millisecond from now |
| Timers.InsertSpec | src/TimerQueue.cc:85-98 | insertion keeps the set ordered and tells whether the new entry is first |
| Timers.ExpiredSpec | src/TimerQueue.cc:136-145 | the prefix taken is exactly the entries with when <= now |
| Timers.SafeCancelInv | src/TimerQueue.cc:100-108 | cancelling a timer in the set removes that timer from the set and from memory and nothing else, keeping ownership and order |
| Timers.AddIsExact | src/TimerQueue.cc:85-98 | the new timer has the time and interval asked for and is in the set, or queued for it; the others are unchanged |
| Timers.StartPassMoves | src/TimerQueue.cc:110-116 | the expiration is consumed and exactly the due entries leave the set |
| Timers.FinishTimerInv | src/TimerQueue.cc:119-128 | a repeating timer is back in the set one interval later, any other is gone from memory, nothing else changes, and keys, ownership and schedule are kept |
| TimerFaults.FaultIff | src/TimerQueue.cc:85-145 | a call fails, or lets a permitted step fail an assertion or use a freed timer later, exactly when it cancels a timer that is not in the set |
| TimerRuns.WakeupIsDue | src/TimerQueue.cc:54-64 | outside a pass every timer's wakeup has fired or is due by the later of its time and one millisecond after arming |
| TimerRuns.OwnershipIsExact | src/TimerQueue.cc:85-145 | every live timer is in exactly one of the set, the batch and the queued adds, under its current key |
| TimerRuns.FixedRate | src/Timer.hpp:32-43 | a record numbered k closes k consecutive runs of one timer numbered 1 to k, the last for first + (k-1)*interval and not early, so k <= (now-first)/interval + 1 |
| TimerRuns.LiveTimerRuns | src/TimerQueue.cc:119-128 | a live timer started n times has its runs 1 to n at the end of its log, and its key is first plus one interval per finished run |
| TimerRuns.PassFiresExactlyTheDue | src/TimerQueue.cc:110-128 | one pass runs exactly the timers due at its start, once each, in order, recorded at the time of its start, whatever callbacks do |
| TimerRuns.CancelledNeverRuns | src/TimerQueue.cc:100-108 | after a cancel no run of that timer is recorded until its address is used again |
| TimerRuns.OneShotRunsOnce | src/TimerQueue.cc:119-128 | a timer without interval never runs again once its callback has returned |
| TimerRuns.TimersAreAsAsked | src/TimerQueue.cc:85-98 | every live timer has the first time and interval of the last addTimer at its address |
| TimerRuns.SelfCancelTouchesFreed | src/TimerQueue.cc:100-128 | a callback cancelling its own timer leads to a use after free |
| TimerQueueClass.TimerQueue.InsertTimerInLoop | src/TimerQueue.cc:88-95 | insert into the ordered set, arming the kernel timer exactly when first |
| TimerQueueClass.TimerQueue.AddTimerNow | src/TimerQueue.cc:85-98 | the timer asked for is owned by the set, the others are unchanged, and the invariant is kept |
| TimerQueueClass.TimerQueue.CancelTimerNow | src/TimerQueue.cc:100-108 | that timer's entry leaves the set and that timer is freed, and nothing else |
| TimerQueueClass.TimerQueue.GetExpired | src/TimerQueue.cc:136-145 | splits the set at the due prefix |
| TimerQueueClass.TimerQueue.HandleRead | src/TimerQueue.cc:110-133 | the pass is a safe run, the callbacks run are those due at its start in order, each with everything it does, and the kernel timer is re-armed for the first remaining entry |

## Left out

- Logger, InetAddress, Acceptor, Connector, TcpClient, TcpServer start-up, EventLoopThread and CountDownLatch: thin wrappers over socket calls and start-up handshakes; an accepted connection is a step of `TcpServer`.
- findCRLF, findEOL, swap and the string_view overloads of Buffer: single library calls.
- Timer objects: modelled as heap entries by identity rather than as a class, so that freeing and dangling references are visible; field-level aliasing of a Timer is not.
- shared_ptr and weak_ptr lifetimes, Channel::tie and the destructor assertions: lifetimes are taken as given.
- TcpServerSingle: connections are named by identity; their objects are modelled in `TcpConnectionClass`, one at a time, and in `TcpServer` their loop phases are not tied to each other, which allows more runs than one loop has.
- stopRead and startRead on another thread: steps of the loop thread at the time their task runs.
- send(Buffer&): the same as send of the buffer's content followed by retrieveAll.
- Execution of tasks left in the queue after stop or quit: the source does not promise it.
- Failures of epoll_ctl, timerfd_settime and the eventfd write, counter overflow of the eventfd, and the difference between the system clock and the monotonic clock of the timerfd: assumed away, as the source does.
- Weak memory: the atomics and the mutex are sequentially consistent.
- EventLoopClass.EventLoop.RunLoop: makes one iteration per entry of reports, any prefix of the unbounded loop.
- ThreadPoolClass.ThreadPool.Take: reports Blocked when the plan of the other threads ends while it is asleep or waits for the mutex.
