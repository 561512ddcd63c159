# Verified models of miniduo

miniduo is a Reactor-style C++ network library: event loops with task queues, two pollers,
a timer queue, TCP connections handed from an acceptor loop to I/O loops, and a small HTTP
server on top. This project models its stateful core in Dafny and proves what the asserts,
the comments and the design of that core promise, over every input and every run.

| file | module | what it is about |
|---|---|---|
| `options.dfy` | `Options` | a value that may be missing |
| `pollers.dfy` | `Pollers` | `EPollPoller` and `PollPoller` refine one table from descriptor to channel and interest |
| `connection.dfy` | `Connections` | one `TcpConnection`: state, interest, output, half-close |
| `connoutput.dfy` | `ConnOutput` | a connection's output in the real buffer, as written |
| `lifecycle.dfy` | `Lifecycle` | connections across event loops, with their wakeups, as a step relation |
| `lifecycle_safety.dfy` | `LifecycleSafety` | safety of every run of that relation |
| `lifecycle_progress.dfy` | `LifecycleProgress` | every life can be completed, on any loops and without poll timeouts, and its descriptor used again |
| `lifecycle_laws.dfy` | `LifecycleLaws` | the effect of every step of those runs, task by task |
| `lifecycle_closing.dfy` | `LifecycleClosing` | what lies between closeInNextLoop and the close |
| `eventloop.dfy` | `EventLoops` | task queue, eventfd wakeup and blocking poll |
| `timers.dfy` | `Timers` | ordered timer set, one-shot timerfd, repetition, cancellation during a batch |
| `buffer.dfy` | `Buffers` | the growing and compacting byte buffer |
| `httprequest.dfy` | `HttpRequests` | the incremental request decoder |
| `httpinput.dfy` | `HttpInput` | requests that arrive in the real buffer, as written |
| `httperrors.dfy` | `HttpErrors` | header lines that make the decoder throw, bodies it does not see |
| `httpverdicts.dfy` | `HttpVerdicts` | what the decoder makes of each line, said on the text |
| `httpserver.dfy` | `HttpServers` | one connection of the HTTP server, from request to chunked file and close |
| `httpsession.dfy` | `HttpSessions` | the effect of every step of an HTTP session |
| `httpdelivery.dfy` | `HttpDelivery` | every answer can be delivered, or cut short by a failing sendfile |
| `httpoverlap.dfy` | `HttpOverlap` | when the bytes of two responses overlap |
| `httpoutput.dfy` | `HttpOutput` | a session's output in the real buffer, as written |

Objects that the source updates in place are classes whose methods are proved against
functions on a plain value (`View()`); the theorems are about those functions and about all
runs of them. Code that several threads execute is a step relation, one small step at a time,
so that every interleaving is a run. A failed assert sets `aborted` (or gives `None`), an
exception that leaves the decoder is the verdict `Thrown`; results of system calls and the
user's callbacks are arbitrary. `log_fatal` does not stop the program, so a failing
`epoll_ctl` is counted in `faults` and the poller goes on.

## Where the code departs from its intent

The literal code is modelled. Where a promise is false of it, a lemma shows the failing run or
input and another says exactly when the promise does hold.

- Buffer compaction copies from the start of the vector instead of the first readable byte
  (miniduo/buffer.cpp:145). `Buffers.AppendAsWrittenIff` and `Buffers.ReadAsWrittenIff`:
  appending and reading keep every content exactly when the compacting branch is not taken.
  `Buffers.AppendRetrieveAppend` is a family of runs from a new buffer that lose their content,
  and `Buffers.CompactionZeroes` says what is there instead after any run. With the copy started
  at the reader index the buffer refines a byte sequence without condition
  (`Buffers.BufferRefinesBytes`). Modules `Connections` and `HttpServers` are about such a
  sequence; what the compaction does to them is stated apart:
  - Input: `HttpInput.LongRequestsIff`: for every canonical request with distinct names, all ways
    of cutting it into reads give what one call gives exactly when it is at most 1024 bytes long;
    every longer one has a cut on which it is corrupted (`HttpInput.LongRequestIsCorrupted`).
  - Output: `ConnOutput.ConservedIff`: the bytes sent and waiting are those accepted exactly as
    long as no append has compacted; `ConnOutput.OutputIsLost` is a family of runs in which one
    does. One good HTTP response never compacts (`HttpOutput.GoodOutputIsExact`).
- A shutdown during a write never half-closes: `shutdownInLoop` acts only in `kConnected`, and
  the second call from `handleWrite` finds `kDisconnecting` (miniduo/conn.cpp:235-238, 264).
  `Connections.HalfCloseAfterDrainIsLost` is a run; `Connections.HalfCloseNowOrNever` says that
  the half-close happens exactly if the channel is not writing when `shutdown` runs.
- A quit from inside the loop writes no wakeup, although a task is followed by a poll before
  the flag is tested (miniduo/EventLoop.cpp:97-100, 130-132). `EventLoops.LostStop` is a run;
  `EventLoops.NoLostWakeupIff`: some continuation sleeps on the stop request exactly if the
  caller is a task, the eventfd counter is zero and no thread still owes a write.
- A bare LF is rejected or accepted depending on how much has arrived
  (miniduo/http/httpmsg.cpp:44-49). `HttpRequests.DirtyCut` gives the failing cut of every such
  stream; `HttpRequests.ChunksDoNotMatterIff`: over a buffer that keeps its bytes the cuts do not
  matter exactly when no line taken by the decoder holds a bare LF. In the real buffer there is
  the compaction as a second cause: `HttpInput.IntendedCutsIff` gives the same condition with
  compaction from the reader index, `HttpInput.ShortCutsIff` as written for streams of at most
  1024 bytes, and `HttpInput.BufferFeedIsFeed` as written for every run without compaction.
- A header line that ends at its colon, and a length that `stoi` refuses, throw
  (miniduo/http/httpmsg.cpp:120-124). `HttpErrors.EmptyValueThrows` is such a request;
  `HttpErrors.HeadersThrowIff`: the decoder throws exactly when the first line is a good request
  line (`HttpErrors.RequestLineTakenIff`) and a header line is of one of these two kinds;
  `HttpErrors.StoiIff` says what `stoi` accepts.
- Only the spelling `Content-length` is recognised (miniduo/http/httpmsg.cpp:109, 123), whereas
  section 5.1 of RFC 9110 makes field names case-insensitive. `HttpErrors.UsualSpellingIsNotSeen`
  is a request whose body is overlooked; `HttpErrors.BodyIsReadIff`: a body is read exactly when
  that spelling is among the fields, and otherwise left to be taken for the next request.
- A bad request is not marked complete, so bytes that follow it are answered again while the
  first answer is still going out (miniduo/http/httpserver.cpp:60-70, 137).
  `HttpOverlap.BadRequestsOverlap` is a run; `HttpOverlap.NextOverlapIff`: bytes that arrive
  lead to an overlap exactly when the decoder's verdict on them has a response sent, and
  `HttpOverlap.NoOverlapIff` says the same of whole runs by the number of responses.
- A failing `sendfile` is taken for the end of the file (miniduo/http/httpserver.cpp:119).
  `HttpDelivery.AnswerCanBeTruncated` gives a run for every file that is longer than its first
  piece; `HttpServers.FailedSendfileTruncates`: the response is over with bytes missing exactly
  when `sendfile` fails before the end of the file.

## Model

| member | source | states |
|---|---|---|
| `LifecycleSafety.LifecycleIsSafe` | miniduo/conn.cpp:89-303 | over every interleaving of the loops, other threads and user callbacks, with descriptor reuse: no assert fails; each connection passes established, handleClose, removeConnectionInLoop, connectDestroyed at most once each and in that order; it is listed until unlisted and its descriptor open until destroyed; no epoll_ctl fails; the kernel watches only live connections of the loop and only live ones can still be read; output is conserved and half-closed at most once, with everything written |
| `LifecycleSafety.RunKeeps` | miniduo/EventLoop.cpp:91-108 | the invariant over connections, pollers, descriptors and the places and numbers of waiting steps holds after every run |
| `LifecycleSafety.StepKeeps` | miniduo/EventLoop.cpp:91-108 | every enabled step of any loop or thread keeps that invariant, hence aborts nothing |
| `LifecycleSafety.EstablishKeeps` | miniduo/conn.cpp:158-165 | connectEstablished runs on the connection's loop in kConnecting, its descriptor is not registered yet, and the invariant is kept |
| `LifecycleSafety.HandleCloseKeeps` | miniduo/conn.cpp:197-208 | handleClose of a live connection passes its assert, takes the descriptor out of the kernel set and leaves one pending close callback |
| `LifecycleSafety.CloseCallbackKeeps` | miniduo/conn.cpp:112-115 | removeConnection hands the one close on to the acceptor loop, at once or through its queue |
| `LifecycleSafety.RemoveKeeps` | miniduo/conn.cpp:117-125 | removeConnectionInLoop runs on the acceptor loop and finds the name in the list |
| `LifecycleSafety.DestroyKeeps` | miniduo/conn.cpp:167-177 | connectDestroyed finds a disconnected connection whose channel is registered with no events, so removeChannel passes its asserts |
| `LifecycleSafety.AcceptKeeps` | miniduo/conn.cpp:36-110 | newConnection on a descriptor no open connection has, on any I/O loop, keeps the invariant |
| `LifecycleSafety.ChangeKeeps` | miniduo/conn.cpp:214-326 | sends, shutdowns and writes of a connection in any state keep the invariant and change its interest only through a registered channel |
| `LifecycleSafety.CallKeeps` | miniduo/conn.cpp:256-312 | every public call, from the connection's loop, another loop or another thread, keeps the invariant |
| `LifecycleLaws.ExecIs` | miniduo/conn.cpp:89-326 | in every reachable state, every step of a loop has exactly the effect of the tables: what it does to its connection, which steps it puts at the head of the agenda, which task it queues and where, the list, and the eventfd |
| `LifecycleLaws.EofIsHandled` | miniduo/conn.cpp:187-208 | in every reachable state a read of 0 adds HandledClose, leaves the connection disconnected and its descriptor outside the kernel's set, and puts the user's callback and exactly one close callback next |
| `LifecycleLaws.DataIsHandedOn` | miniduo/conn.cpp:184-194 | a read of bytes runs the message callback next and changes nothing else; a failing one changes nothing |
| `LifecycleLaws.KernelIsInterest` | miniduo/poller.cpp:188-211 | in every reachable state the kernel watches a registered connection's descriptor exactly while it wants something, with exactly that interest |
| `LifecycleLaws.CallIs` | miniduo/conn.cpp:256-312 | in every reachable state send and shutdown act at once on the connection's own loop; every other call queues exactly its task there, closeInNextLoop one that queues the close |
| `LifecycleLaws.AcceptIs` | miniduo/conn.cpp:89-110 | an accepted connection is listed, and established next on the acceptor's own loop or queued for that on another |
| `LifecycleLaws.OthersAre` | miniduo/EventLoop.cpp:184-211 | a user's task is queued with a wakeup write owed; that write adds one to the counter; releasing a destroyed connection frees its descriptor |
| `LifecycleLaws.PhasesAre` | miniduo/EventLoop.cpp:97-106 | in every reachable state a poll dispatches exactly what it reports, and the queue becomes the next batch in order |
| `LifecycleLaws.HandlersAppend` | miniduo/EventLoop.cpp:101-106 | the active channels are handled one after the other, in order |
| `LifecycleLaws.HandlersOfOne` | miniduo/channel.cpp:69-79 | one active channel runs its read handler if it is readable, then its write handler if it is writable, and nothing else |
| `LifecycleClosing.CloseComesAfterAPoll` | miniduo/conn.cpp:279-289 | after closeInNextLoop in a reachable state, every run in which nobody else closes the connection and which closes it has three steps of its loop before that: it takes the queue with everything queued before the call, it polls with all of that batch done, and it takes its queue again with the connection still open |
| `LifecycleSafety.PollKeeps` | miniduo/poller.cpp:162-177 | every set of reported events finds its channels registered, and the handlers it queues concern live connections |
| `LifecycleSafety.HandlersOnce` | miniduo/channel.cpp:50-80 | one poll queues at most one read handler per connection |
| `LifecycleSafety.WatchedIsLive` | miniduo/poller.cpp:188-211 | a descriptor in the kernel set belongs to an open, live connection of this loop |
| `LifecycleSafety.ReleaseKeeps` | miniduo/conn.cpp:153-156 | closing the descriptor of a destroyed connection leaves no registration behind |
| `LifecycleSafety.SwapKeeps` | miniduo/EventLoop.cpp:193-202 | taking the queue as the next batch keeps every pending step and its place |
| `LifecycleProgress.LivesCanBeCompleted` | miniduo/conn.cpp:89-303 | from every reachable state some continuation in which no poll times out takes all connections there are, on whatever loops, through all four milestones: no hand-off gets stuck and no wakeup is missing |
| `LifecycleProgress.NoTaskIsSleptOn` | miniduo/EventLoop.cpp:97-108 | in every reachable state of the lifecycle, a loop about to poll with something queued has a readable eventfd or is still owed a write |
| `LifecycleProgress.WakeStep` | miniduo/EventLoop.cpp:184-220 | every step of every loop and thread keeps that |
| `LifecycleProgress.Advances` | miniduo/conn.cpp:112-208 | a connection that is not destroyed can pass its next milestone, whatever else waits in the loops |
| `LifecycleProgress.WorkDown` | miniduo/EventLoop.cpp:193-202 | a loop can do any part of its agenda with all it causes, without losing what is queued |
| `LifecycleProgress.DescriptorIsReused` | miniduo/conn.cpp:89-177 | for any number of loops some run without poll timeouts takes a connection on any loop through its whole life, frees it, and accepts the same descriptor for any other loop |
| `Pollers.PollersAgree` | miniduo/poller.cpp:66-241 | over every sequence of calls both pollers pass their asserts exactly when the calls are legal on the table; then the entries poll looks at and the kernel's interest set both equal the non-empty part of the table, the index map and the vector are in bijection, and no epoll_ctl failed |
| `Pollers.EPollStepRefines` | miniduo/poller.cpp:179-241 | one epoll call passes its asserts exactly when legal, changes the table as specified, and every ADD meets an absent and every MOD or DEL a present descriptor |
| `Pollers.PollStepRefines` | miniduo/poller.cpp:66-118 | the same for the poll poller |
| `Pollers.PollRemoveRefines` | miniduo/poller.cpp:96-118 | the swap with the last entry re-points exactly the index of the descriptor that moved, also a negated one |
| `Pollers.EPollWatches` | miniduo/poller.cpp:188-241 | the kernel's interest set is the non-empty part of the table |
| `Pollers.PollWatchesTable` | miniduo/poller.cpp:78-94 | the entries poll(2) does not skip are the non-empty part of the table |
| `Pollers.EPollRunRefines` | miniduo/poller.cpp:179-241 | refinement of the table over whole runs, epoll |
| `Pollers.PollRunRefines` | miniduo/poller.cpp:66-118 | refinement of the table over whole runs, poll |
| `Pollers.ScanIsExact` | miniduo/poller.cpp:45-64 | a scan holds exactly the active entries, each once |
| `Pollers.PollPoller.FillActiveChannels` | miniduo/poller.cpp:45-64 | with its early exit it returns the first numEvents active channels, hence all of them when numEvents is the true count |
| `Pollers.PollPoller.AddChannel` | miniduo/poller.cpp:66-76 | in-place add does the modelled step, or refuses and changes nothing where the assert fails |
| `Pollers.PollPoller.UpdateChannel` | miniduo/poller.cpp:78-94 | in-place update does the modelled step, or refuses and changes nothing |
| `Pollers.PollPoller.RemoveChannel` | miniduo/poller.cpp:96-118 | in-place swap-remove does the modelled step, or refuses and changes nothing |
| `Pollers.EPollPoller.AddChannel` | miniduo/poller.cpp:179-186 | in-place add does the modelled step, or refuses where the assert fails |
| `Pollers.EPollPoller.UpdateChannel` | miniduo/poller.cpp:188-211 | the NEW/ADDED/DELETED machine does the modelled step |
| `Pollers.EPollPoller.RemoveChannel` | miniduo/poller.cpp:215-227 | in-place removal does the modelled step, or refuses and changes nothing |
| `Pollers.EPollPoller.Ctl` | miniduo/poller.cpp:230-241 | epoll_ctl: an ADD of a present or a MOD or DEL of an absent descriptor fails and is only counted |
| `Connections.OutputIsConserved` | miniduo/conn.cpp:214-326 | over an output buffer that keeps its bytes, in every run: written bytes followed by waiting bytes are all accepted bytes in order; a waiting byte of a live connection implies write interest; shutdownWrite happens at most once, with every accepted byte written and none after it |
| `ConnOutput.ConservedIff` | miniduo/conn.cpp:214-326 | in the buffer as written, over every run of a new connection: without a compaction the buffer and the socket hold exactly that; with messages free of NUL, sent and waiting bytes are the accepted ones exactly when no append has compacted |
| `ConnOutput.OutputIsLost` | miniduo/buffer.cpp:141-153 | for every message partly written and every next one that overflows by no more than that, the run compacts |
| `ConnOutput.OutStep` | miniduo/conn.cpp:214-326 | every step keeps lengths, and exactness until a compaction; after one a NUL stays among the bytes |
| `Connections.HalfCloseNowOrNever` | miniduo/conn.cpp:256-270 | after shutdown of a connected connection, over every continuation, the number of half-closes is one if the channel was not writing at that moment and zero otherwise |
| `Connections.HalfCloseAfterDrainIsLost` | miniduo/conn.cpp:224-238 | a run in which a shutdown during a write is followed by a full drain and no half-close |
| `Connections.HalfCloseSettled` | miniduo/conn.cpp:262-270 | once disconnecting or disconnected, no run adds a half-close |
| `Connections.WriteSettlesInterest` | miniduo/conn.cpp:214-254 | a write with interest on keeps the interest while bytes are left and ends it, in every state, when none are; the bytes written move from the output; without interest or on failure nothing changes |
| `Connections.DrainsAreFewerThanSends` | miniduo/conn.cpp:227-234 | over every run of a new connection the output is drained, and so the write-complete callback queued, at most once per accepted message |
| `Connections.AcceptedIsSent` | miniduo/conn.cpp:318-326 | over every run what is accepted is exactly what was sent while connected |
| `Connections.StatesAreOrdered` | miniduo/conn.cpp:158-270 | which steps lead to which state, and what a message and a close do to interest and output |
| `Connections.ConnStepKeeps` | miniduo/conn.cpp:158-326 | every step keeps the connection's invariant |
| `Connections.TcpConnection.constructor` | miniduo/conn.cpp:128-151 | a new connection is connecting, wants no events and satisfies the invariant |
| `Connections.TcpConnection.ConnectEstablished` | miniduo/conn.cpp:158-165 | connected, with read interest, rest unchanged |
| `Connections.TcpConnection.SendInLoop` | miniduo/conn.cpp:318-326 | accepted only when connected; then appended, with write interest on |
| `Connections.TcpConnection.ShutdownInLoop` | miniduo/conn.cpp:262-270 | acts only when connected; half-closes only when not writing |
| `Connections.TcpConnection.HandleWrite` | miniduo/conn.cpp:214-254 | writes a prefix of the output; queues the write-complete callback exactly when that empties it |
| `Connections.TcpConnection.HandleClose` | miniduo/conn.cpp:197-208 | disconnected, with no interest left |
| `Connections.TcpConnection.EnableReading` | miniduo/channel.cpp:23-31 | sets or clears the read bit only |
| `Connections.TcpConnection.EnableWriting` | miniduo/channel.cpp:33-41 | sets or clears the write bit only |
| `Connections.TcpConnection.DisableAll` | miniduo/channel.h:40 | no interest is left |
| `EventLoops.NoLostWakeupIff` | miniduo/EventLoop.cpp:91-133 | when user code on the loop thread quits its loop in any reachable state, every continuation sees the stop request, unless the caller is a task, the eventfd counter is zero and no thread owes a write: exactly then some continuation blocks in poll with the flag up and nothing to rouse it |
| `EventLoops.NoStopIsSleptOn` | miniduo/EventLoop.cpp:91-133 | in every reachable state a blocked loop has no task and no stop request, or its registered eventfd is readable, or a thread still owes its write, unless a task quit when nothing would rouse the loop |
| `EventLoops.StopStaysSeen` | miniduo/EventLoop.cpp:97-133 | once the stop flag is up and the loop roused, no continuation loses the request |
| `EventLoops.NoTaskIsSleptOn` | miniduo/EventLoop.cpp:184-220 | a queued task is never slept on, also on the first iteration and whatever tasks do |
| `EventLoops.LostStop` | miniduo/EventLoop.cpp:124-133 | a run to a blocked loop with the stop flag up and nothing to rouse it |
| `EventLoops.StopEnds` | miniduo/EventLoop.cpp:97-108 | once the stop flag is up, no continuation takes a further batch, except the one the loop was about to take |
| `EventLoops.LoopGoesRound` | miniduo/EventLoop.cpp:91-133 | the order of the loop's phases and what each step of the loop and of other threads changes |
| `EventLoops.RunNextIs` | miniduo/EventLoop.cpp:199-201 | the next task of the batch is run, and only the registering one registers the wakeup channel |
| `EventLoops.PushIs` | miniduo/EventLoop.cpp:184-191 | in every reachable state a task is queued last, remembered with the phase it came in and the task that queued it |
| `EventLoops.FirstPoll` | miniduo/EventLoop.cpp:52-72 | a run to the first poll, with the wakeup channel registered by a task of the first batch |
| `EventLoops.FifoExactlyOnce` | miniduo/EventLoop.cpp:184-202 | in every reachable state the tasks run are the first ones queued, in order, and the rest wait in order |
| `EventLoops.QueueCanDrain` | miniduo/EventLoop.cpp:91-220 | from every reachable state of a loop not asked to stop, some continuation in which no poll times out runs all that is queued |
| `EventLoops.ForwardOk` | miniduo/EventLoop.cpp:91-220 | while something is queued, a step that queues nothing and is no timeout is enabled and brings the next task closer |
| `EventLoops.BatchesAreSeparate` | miniduo/EventLoop.cpp:97-108 | a task queued while a batch runs starts only after a further poll-and-dispatch phase |
| `EventLoops.SendsGoOutBeforeClose` | miniduo/conn.cpp:279-289 | a task queued before closeInNextLoop runs before closeInLoop, with a full dispatch phase between |
| `EventLoops.StepKeeps` | miniduo/EventLoop.cpp:82-220 | every step of the loop or of another thread keeps registration, wakeup and history invariants |
| `EventLoops.HistoryStep` | miniduo/EventLoop.cpp:184-202 | every step keeps the order and the time stamps of tasks |
| `EventLoops.EventLoop.DoPendingTasks` | miniduo/EventLoop.cpp:193-202 | runs exactly the tasks queued on entry, in order; what they queue stays, in order, with one wakeup each; and that is a run of the state machine from the swap to the end of the batch |
| `EventLoops.EventLoop.RunInLoop` | miniduo/EventLoop.cpp:174-182 | runs at once on the loop thread, otherwise queues and wakes |
| `EventLoops.EventLoop.QueueInLoop` | miniduo/EventLoop.cpp:184-191 | appends the task and adds one wakeup: a push and a wakeup step |
| `EventLoops.EventLoop.QuitLoop` | miniduo/EventLoop.cpp:124-133 | raises the stop flag and wakes only when called from outside, as the steps of the state machine do |
| `EventLoops.EventLoop.HandleRead` | miniduo/EventLoop.cpp:213-220 | reading the eventfd resets its counter |
| `EventLoops.EventLoop.DoWakeup` | miniduo/EventLoop.cpp:204-211 | one write adds one to the counter |
| `EventLoops.EventLoop.constructor` | miniduo/EventLoop.cpp:52-72 | a new loop is stopped, has no thread, and holds the four registrations with one wakeup each: the start of the state machine |
| `EventLoops.EventLoop.StartLooping` | miniduo/EventLoop.cpp:91-95 | the caller becomes the loop thread and the flag is lowered, as the state machine does |
| `Timers.DeadlineIsKept` | miniduo/timer.cpp:34-202 | in every reachable state between handlings, a non-empty set has the timerfd armed or fired, no later than the larger of the earliest key and the arming time plus 100 microseconds; no insert ever met a duplicate |
| `Timers.BatchIsExact` | miniduo/timer.cpp:134-169 | a handling takes exactly the entries with key at most now, in order, and keeps the rest |
| `Timers.FiringIsSound` | miniduo/timer.cpp:134-190 | over every run no timer runs early and a one-shot timer runs at most once |
| `Timers.EveryDueTimerRuns` | miniduo/timer.cpp:134-151 | over every handling that begins in a reachable state, whatever its callbacks do: the timers run are exactly the due ones, in key order, each once |
| `Timers.BatchRuns` | miniduo/timer.cpp:142-147 | within a handling the batch stays what it is and its timers run in order |
| `Timers.RunOneIs` | miniduo/timer.cpp:142-147 | the next timer of the batch runs, under the key it waited with |
| `Timers.OneShotWaits` | miniduo/timer.cpp:106-190 | between handlings a one-shot timer that was added, not cancelled and has not run is in the set |
| `Timers.OneShotRuns` | miniduo/timer.cpp:134-190 | if it is due when a handling begins it has run exactly once when the handling ends |
| `Timers.AddPuts` | miniduo/timer.cpp:106-113 | adding puts one entry into the set under the time asked for and changes no other timer |
| `Timers.CancelTakes` | miniduo/timer.cpp:116-131 | cancelling takes the timer's entry out of the set or keeps a timer of the batch from repeating, and changes no other timer |
| `Timers.TimerfdIsSet` | miniduo/timer.cpp:34-51 | adding an earliest timer, and the end of a handling with a timer left, set the timerfd for the earliest key, or for 100 microseconds from now if that is later; otherwise it is left alone |
| `Timers.TimerfdIsKept` | miniduo/timer.cpp:116-140 | the timerfd fires at its deadline, is read once when a handling begins, and is left alone by everything else |
| `Timers.RepeatingStays` | miniduo/timer.cpp:171-190 | between handlings an uncancelled repeating timer is in the set exactly once |
| `Timers.CancelledRunsAtMostOnceMore` | miniduo/timer.cpp:116-151 | over every continuation a cancelled timer runs at most once more, and only if it still waits in the batch being handled |
| `Timers.CancelledForGood` | miniduo/timer.cpp:116-190 | firings plus what is left of a cancelled timer never increase over a run |
| `Timers.StepKeeps` | miniduo/timer.cpp:106-202 | every step, with adds and cancels from callbacks, keeps the invariant that each living timer has one entry under its current expiration |
| `Timers.RestartAllOk` | miniduo/timer.cpp:171-181 | reset gives the repeating timers of the batch their next expiration, frees the others and touches no other timer |
| `Timers.RestartOk` | miniduo/timer.h:33-41 | restarting one timer of the batch keeps its key equal to its expiration |
| `Timers.FreshOk` | miniduo/timer.cpp:192-202 | the assert of insert holds for every timer put back |
| `Timers.ExpiredIsExact` | miniduo/timer.cpp:154-169 | the sentry splits the set exactly at now |
| `Timers.InsertFirst` | miniduo/timer.cpp:192-202 | the new entry comes first exactly when it is less than the first one, ties going by address; the earliest key changes exactly when insert says so, and to the smaller of the two |
| `Timers.InsertOk` | miniduo/timer.cpp:199-200 | inserting keeps the order and adds exactly the entry |
| `Timers.EraseOk` | miniduo/timer.cpp:119-124 | erasing keeps the order and removes exactly the entry |
| `Timers.TimerQueue.InsertEntry` | miniduo/timer.cpp:192-202 | ordered insertion, and whether the earliest key changed |
| `Timers.TimerQueue.ArmTimerfd` | miniduo/timer.cpp:34-51 | a relative timeout of at least 100 microseconds |
| `Timers.TimerQueue.AddTimer` | miniduo/timer.cpp:106-113 | adds one entry, keeps the invariant, re-arms exactly when the earliest key changed |
| `Timers.TimerQueue.CancelTimer` | miniduo/timer.cpp:116-131 | removes the entry, or stops the repetition of a timer that is not in the set |
| `Timers.TimerQueue.GetExpired` | miniduo/timer.cpp:154-169 | splits the set into the due entries and the others |
| `Timers.TimerQueue.RestartEntry` | miniduo/timer.cpp:177-180 | one expired timer is put back or freed |
| `Timers.TimerQueue.Reset` | miniduo/timer.cpp:171-190 | puts the repeating ones back and arms the timerfd for the earliest timer |
| `Buffers.BufferRefinesBytes` | miniduo/buffer.cpp:41-153 | over every run of appends, reads and retrievals the readable bytes are those of a plain byte sequence and the indices stay in bounds: always with compaction from the reader index, as written while nothing compacts |
| `Buffers.AppendAsWrittenIff` | miniduo/buffer.cpp:78-153 | for given sizes the code as written keeps every content exactly when the compacting branch is not taken |
| `Buffers.OpRefines` | miniduo/buffer.cpp:41-131 | one operation does to the readable bytes what it does to a sequence |
| `Buffers.AppendExtends` | miniduo/buffer.cpp:78-83 | append keeps the bounds and extends the content by exactly the new bytes, with compaction from the reader index or without compaction |
| `Buffers.ReadFdExtends` | miniduo/buffer.cpp:111-131 | both readFd cases extend the content by exactly the bytes read, with compaction from the reader index or without compaction |
| `Buffers.ReadAsWrittenIff` | miniduo/buffer.cpp:111-153 | for given sizes readFd as written keeps every content exactly when its append does not compact |
| `Buffers.AppendShowsStart` | miniduo/buffer.cpp:141-153 | after a compaction as written the content is what stood at the start of the vector |
| `Buffers.CompactionZeroes` | miniduo/buffer.cpp:9-153 | after any run as written from a new buffer, an operation that compacts replaces the first eight readable bytes by zero bytes |
| `Buffers.AppendRetrieveAppend` | miniduo/buffer.cpp:41-153 | append, retrieve, append on a new buffer: the exact content a sequence would have, and the one the code leaves when the second append compacts |
| `Buffers.MakeSpaceOk` | miniduo/buffer.cpp:141-153 | enough room afterwards, indices in bounds, content kept unless the literal compaction is taken |
| `Buffers.FindCRLFIsFirst` | miniduo/buffer.h:51-54 | the first CR LF, and none exactly when there is none |
| `Buffers.Buffer.constructor` | miniduo/buffer.cpp:9-17 | a valid, empty buffer |
| `Buffers.Buffer.MakeRoom` | miniduo/buffer.cpp:141-153 | the in-place code does what the modelled compaction or growth does |
| `Buffers.Buffer.CopyIn` | miniduo/buffer.cpp:81 | the copy loop overlays the data and changes no other byte |
| `Buffers.Buffer.Resize` | miniduo/buffer.cpp:150 | growing keeps the old bytes and adds zero bytes |
| `Buffers.Buffer.AppendBytes` | miniduo/buffer.cpp:78-83 | the in-place append does the modelled one |
| `Buffers.Buffer.ReadFrom` | miniduo/buffer.cpp:111-131 | the in-place read does the modelled one and extends the content unless the literal compaction is taken |
| `Buffers.Buffer.RetrieveBytes` | miniduo/buffer.cpp:41-47 | drops exactly a prefix |
| `Buffers.Buffer.RetrieveAll` | miniduo/buffer.cpp:57-60 | nothing is left |
| `Buffers.Buffer.RetrieveAsString` | miniduo/buffer.cpp:62-66 | returns the whole content and empties the buffer |
| `Buffers.Buffer.Front` | miniduo/buffer.cpp:62-66 | a copy of the first bytes of the content |
| `Buffers.Buffer.ReadableBytes` | miniduo/buffer.cpp:25-27 | the length of the content |
| `Buffers.Buffer.WritableBytes` | miniduo/buffer.cpp:29-31 | the free space at the end |
| `Buffers.Buffer.SearchCRLF` | miniduo/buffer.h:51-54 | finds the first CR LF of the content |
| `HttpRequests.ChunksDoNotMatterIff` | miniduo/http/httpmsg.cpp:42-205 | over a buffer that keeps its bytes, for every stream and every resumable state: all ways of cutting it give the verdict, fields and unread rest of one call on the whole, if and only if no line taken holds a bare LF |
| `HttpInput.LongRequestsIff` | miniduo/buffer.cpp:111-153 | as written, for every canonical request with distinct NUL-free names: all ways of cutting it into reads of a new buffer give what one call gives, if and only if it is at most 1024 bytes long |
| `HttpInput.LongRequestIsCorrupted` | miniduo/buffer.cpp:141-153 | every longer one comes out differently on a given cut: a read overflows by one byte behind the request line and compacts |
| `HttpInput.BufferFeedIsFeed` | miniduo/buffer.cpp:111-131 | reading, decoding and retrieving in the buffer gives what decoding byte strings gives, with compaction from the reader index always and as written when no read compacts |
| `HttpInput.IntendedCutsIff` | miniduo/http/httpserver.cpp:134-141 | with compaction from the reader index, for every stream: all cuts that readv can deliver into a new buffer give what one call gives, if and only if no line taken holds a bare LF |
| `HttpInput.ShortCutsIff` | miniduo/http/httpserver.cpp:134-141 | as written the same for every stream of at most 1024 bytes |
| `HttpInput.ShortNeverCompacts` | miniduo/buffer.cpp:111-131 | no read compacts as long as what arrives fits behind the writer index |
| `HttpInput.NulStays` | miniduo/http/httpmsg.cpp:103-131 | a header section whose next line starts with a NUL comes to no request, to one with a NUL in a field name, or to one worth less than its bytes, whatever follows and however it compacts |
| `HttpInput.DecodeWorth` | miniduo/http/httpmsg.cpp:103-141 | the decoder never makes fields and content worth more than the bytes it takes |
| `HttpInput.PrintIsClean` | miniduo/http/httpmsg.cpp:42-53 | no line taken from a printed canonical request holds a bare LF |
| `HttpRequests.NoBareLfIsClean` | miniduo/http/httpmsg.cpp:42-53 | a stream whose every LF follows a CR meets that condition in every state |
| `HttpRequests.DecodeStable` | miniduo/http/httpmsg.cpp:155-205 | an open verdict on a part can be resumed, a final verdict stands whatever follows |
| `HttpRequests.FeedIsDecode` | miniduo/http/httpserver.cpp:134-141 | over a buffer that keeps its bytes, feeding chunk by chunk gives what one call gives, from any resumable state |
| `HttpRequests.DirtyCut` | miniduo/http/httpmsg.cpp:44-49 | for every stream with a bare LF in a taken line there is a cut that gives a bad-request verdict with more left unread |
| `HttpRequests.PrintedIsParsed` | miniduo/http/httpmsg.cpp:55-205 | every canonical request followed by any bytes decodes to exactly its fields and body and leaves exactly those bytes |
| `HttpRequests.FieldsParsed` | miniduo/http/httpmsg.cpp:103-131 | a printed header section of any length is read back field by field |
| `HttpRequests.RequestLineParsed` | miniduo/http/httpmsg.cpp:55-101 | a printed request line is read back: method, path, query, version |
| `HttpRequests.StoiDecimal` | miniduo/http/httpmsg.cpp:123-124 | stoi reads back every printed length below 2^31 |
| `HttpErrors.StoiIff` | miniduo/http/httpmsg.cpp:123-124 | stoi gives a value exactly when the text is white space, an optional sign and digits for that value, and it fits an int |
| `HttpErrors.HeadersThrowIff` | miniduo/http/httpmsg.cpp:55-131 | for any first line, any header lines, and the blank line with any bytes or an unfinished line after them: the decoder throws exactly when the first line is a good request line and some header line ends at its first colon or declares a length that is no int |
| `HttpErrors.RequestLineTakenIff` | miniduo/http/httpmsg.cpp:55-101 | a request line is taken exactly when it is a supported method, a target with a slash after its scheme, and a supported version, separated by white space and followed by anything |
| `HttpVerdicts.BadLineIsRejected` | miniduo/http/httpmsg.cpp:62-92 | every first line that is not a good request line, followed by any bytes, gives BAD_REQUEST with the decoder still expecting a request line and the line gone |
| `HttpVerdicts.GoodLineIsParsed` | miniduo/http/httpmsg.cpp:55-101 | every good request line gives its method, its path from the first slash behind an optional scheme and host up to the first question mark, its query and its version; without a query the old one stays |
| `HttpVerdicts.TargetSplits` | miniduo/http/httpmsg.cpp:67-88 | every target with a path has that form |
| `HttpVerdicts.HeaderLineIsParsed` | miniduo/http/httpmsg.cpp:118-130 | every header line that does not throw: without a colon it is skipped; otherwise the text before the first colon names the field, one character is dropped and the rest is its value, a length being the numeral it starts with |
| `HttpVerdicts.ThrowingLineEnds` | miniduo/http/httpmsg.cpp:118-126 | every header line that throws ends the decoding with the line gone |
| `HttpVerdicts.BlankLineEnds` | miniduo/http/httpmsg.cpp:108-117 | the blank line completes the request unless a positive length was declared |
| `HttpVerdicts.ContentIsTaken` | miniduo/http/httpmsg.cpp:133-141 | the content is taken when it is all there, and nothing before |
| `HttpVerdicts.OpenLineIs` | miniduo/http/httpmsg.cpp:42-53 | without a line end there is no verdict, except that a bare LF is a bad request |
| `HttpErrors.LineThrowsIff` | miniduo/http/httpmsg.cpp:118-126 | one header line throws exactly when it is of that kind and otherwise is read past |
| `HttpErrors.EmptyValueThrows` | miniduo/http/httpmsg.cpp:118-121 | a request with the header line `X:` throws |
| `HttpErrors.BodyIsReadIff` | miniduo/http/httpmsg.cpp:108-141 | the body of any printed request is read exactly when a field is spelt `Content-length`; otherwise the verdict is GET_REQUEST with no content and the body stays in front of what follows |
| `HttpErrors.UsualSpellingIsNotSeen` | miniduo/http/httpmsg.cpp:109-123 | a POST with `Content-Length: 1` is read without its body |
| `HttpRequests.LineTaken` | miniduo/http/httpmsg.cpp:143-198 | one turn of the loop takes the line and its CR LF and continues on the rest |
| `HttpRequests.HttpRequest.TryDecode` | miniduo/http/httpmsg.cpp:155-205 | the loop terminates with the verdict, fields and unread bytes of the decode function |
| `HttpRequests.HttpRequest.TakeRequestLine` | miniduo/http/httpmsg.cpp:55-101 | parses one request line, with every rejection and the fields it leaves behind |
| `HttpRequests.HttpRequest.TakeTarget` | miniduo/http/httpmsg.cpp:81-88 | splits the target at its first question mark |
| `HttpRequests.HttpRequest.TakeHeader` | miniduo/http/httpmsg.cpp:103-131 | parses one header line, with the exceptions of substr and stoi |
| `HttpRequests.HttpRequest.TakeContent` | miniduo/http/httpmsg.cpp:133-141 | takes the body when all of it is there and nothing otherwise |
| `HttpRequests.HttpRequest.ParseLineStatus` | miniduo/http/httpmsg.cpp:42-53 | OK exactly with a CR LF, bad exactly with a LF and no CR LF |
| `HttpRequests.HttpRequest.RetrieveLine` | miniduo/http/httpmsg.cpp:143-152 | takes the first line and its CR LF out of the buffer |
| `HttpRequests.HttpRequest.Clear` | miniduo/http/httpmsg.h:73-85 | back to the state before any byte |
| `HttpServers.ExactlyOneIsOutstanding` | miniduo/http/httpserver.cpp:55-132 | in every reachable state with a response under way on a connected connection, exactly one of write interest and one write-complete task is outstanding |
| `HttpServers.OutputIsEmptyAtSendfile` | miniduo/http/httpserver.cpp:114-118 | sendfile is called only with an open file and an empty output, and its assert never fails |
| `HttpServers.WireIsTheAnswer` | miniduo/http/httpserver.cpp:76-132 | the bytes on the socket are always a prefix of the one answer, header then file in order; when the response is over they are all of it exactly if no sendfile failed early |
| `HttpDelivery.AnswerCanBeDelivered` | miniduo/http/httpserver.cpp:76-132 | from every reachable state with a response under way on a connected connection, some continuation puts the whole answer on the socket and queues the close: the write-complete chain never breaks off |
| `HttpDelivery.EveryAnswerIsDelivered` | miniduo/http/httpserver.cpp:55-132 | for every canonical request, every way of cutting it into non-empty reads and every file or error reply, some run from a new connection with these reads puts exactly the header and the whole file, or the page, on the socket |
| `HttpDelivery.AnswerCanBeTruncated` | miniduo/http/httpserver.cpp:113-129 | for every canonical request and every file longer than its first piece some run closes the connection with only the header and that piece sent |
| `HttpServers.FailedSendfileTruncates` | miniduo/http/httpserver.cpp:113-129 | the write-complete callback ends the response with the bytes on the socket short of the answer exactly when sendfile fails before the end of the file, and with all of them exactly when it gives nothing at the end |
| `HttpOverlap.NoOverlapIff` | miniduo/http/httpserver.cpp:55-74 | in every reachable state until the response is over, what is written and waiting is a prefix of the one answer exactly when one response was sent |
| `HttpOverlap.NextOverlapIff` | miniduo/http/httpserver.cpp:60-70 | bytes read while a response is under way lead to an overlap exactly when the verdict on them is a bad request or a request that is answered; after a good first request they never do |
| `HttpOverlap.CountStep` | miniduo/http/httpserver.cpp:55-132 | every step keeps the count: one response is there in full, a second makes the output longer than the answer |
| `HttpOverlap.BadRequestsOverlap` | miniduo/http/httpserver.cpp:60-70 | a run in which a doubled error page follows the first one before it is sent |
| `HttpOutput.GoodOutputIsExact` | miniduo/http/httpserver.cpp:76-132 | in every run up to the end of the first good response the output buffer as written holds exactly the session's output, and no append compacts |
| `HttpOutput.ReadStep` | miniduo/http/httpserver.cpp:60-70 | a good request is answered only into an empty output |
| `HttpServers.StepKeeps` | miniduo/http/httpserver.cpp:55-141 | every step moves the session only among waiting, writing, drained, closing and over, with every byte of the answer accounted for |
| `HttpSessions.EofCloses` | miniduo/conn.cpp:187-208 | in every reachable state the end of file disconnects and silences the connection and changes nothing else |
| `HttpSessions.OpenReadOnlyDecodes` | miniduo/http/httpserver.cpp:55-64 | while the request is open or being answered a read only takes its lines |
| `HttpSessions.BadRequestIsAnswered` | miniduo/http/httpserver.cpp:60-70 | on a waiting session a bad request is answered with the error page, which is the whole response |
| `HttpSessions.BadLineIsAnswered` | miniduo/http/httpserver.cpp:60-70 | in particular every first line that is not a good request line |
| `HttpSessions.GoodRequestIsAnswered` | miniduo/http/httpserver.cpp:65-70 | on a waiting session a complete request is answered with the header and the first piece of the file, kept open behind that piece, or with the page of its status |
| `HttpSessions.WriteMoves` | miniduo/conn.cpp:214-254 | a write moves bytes from the output to the socket and queues the write-complete callback exactly when none are left |
| `HttpSessions.CompleteGoesOn` | miniduo/http/httpserver.cpp:76-132 | the write-complete callback of a good response sends the next piece and asks for the next callback, or at the end clears request and response and queues the close |
| `HttpSessions.CloseCloses` | miniduo/conn.cpp:291-303 | the queued close ends a live connection and otherwise does nothing |
| `HttpSessions.HandlersInOrder` | miniduo/channel.cpp:69-79 | reading is handled before writing, and queued tasks run in order |
| `HttpServers.VerdictMatchesState` | miniduo/http/httpmsg.cpp:155-205 | the verdict is GET_REQUEST exactly when the request ends in GET_ALL |
| `HttpServers.HttpResponse.Clear` | miniduo/http/httpmsg.h:116-127 | back to an empty response with no file |
| `HttpServers.HttpResponse.LoadResponse` | miniduo/http/httpserver.cpp:171-241 | appends header and first piece and decides whether the response is complete; a failing open or read fails its assert |
| `HttpServers.HttpSession.SendResponse` | miniduo/http/httpserver.cpp:243-251 | headers, then body, go to the output |
| `HttpServers.HttpSession.DecodeRequest` | miniduo/http/httpserver.cpp:134-141 | decodes the buffer in place, and nothing while a request is being answered |
| `HttpServers.HttpSession.OnMsg` | miniduo/http/httpserver.cpp:55-74 | decodes the readable bytes in place and acts on the verdict as the state machine does |
| `HttpServers.HttpSession.HandleRead` | miniduo/conn.cpp:179-195 | reads into the real buffer and acts on the bytes that are then readable; these are the input and the new bytes unless the read compacts as written |
| `HttpServers.HttpSession.OnWriteComplete` | miniduo/http/httpserver.cpp:76-132 | finishes, or sends the next piece and asks for the next write-complete, as the state machine does |

## Left out

- Sockets, addresses and system calls: they appear only as arbitrary results within what the manual pages allow; eventfd, timerfd and epoll are a counter, a deadline and an interest set.
- The logger.
- Object lifetime: `this` captures, shared and weak pointer counts, `AutoContext`; an object is taken to live while a step mentions it, and a descriptor to be closed only after connectDestroyed.
- Data races on plain fields: steps are sequentially consistent and atomic at the granularity of the model.
- `~TcpServer`, and quitting a loop within the lifecycle runs: after `quit` every in-loop assertion aborts (miniduo/EventLoop.cpp:82-89).
- `quit` before `loop`: `loop` overwrites the flag; the event loop model allows it and makes no promise about it.
- Lifecycle and event loop runs are step relations on values, not objects: the loop bodies interleave with other threads, which a sequential method cannot express; the sequential parts are also given as the classes `TcpConnection`, `EPollPoller` and `EventLoop`.
- The acceptor's, wakeup and timer channels are not entries of the pollers in the lifecycle model, which has only connection channels there.
- `writeCompleteCallback_` is taken to be set in the lifecycle model, and connection callbacks to be made of the public calls send, shutdown, close, closeInNextLoop and of queueing tasks.
- `TimerQueue::handleRead` is not one method: callbacks run in between, so it is the steps Begin, RunOne and End of the state machine.
- Timer intervals are non-negative whole microseconds; the system clock and the timerfd's clock are one non-decreasing clock, and cancelling comes after adding.
- `Buffer::shrink` and `Buffer::prepend`: nothing in the repository calls them, and `shrink` does not reset the indices.
- `Buffers.MakeSpaceOk`: the literal compaction writes up to eight bytes past the end of the vector (in readFd always eight, since the vector is full then), which C++ leaves undefined; the model keeps only what lands inside.
- `Buffers.Buffer.MakeRoom`: the same bytes past the end are dropped.
- `HttpServers.HttpSession.OnMsg`: the header bytes are any non-empty string (the source pads each line to 2048 bytes) and the stat and permission checks are the arbitrary choice of a reply; file sizes fit in an int and files do not change while they are sent.
- The failed asserts on open and read (miniduo/http/httpserver.cpp:204, 215) end the session as an exception does, without telling the two apart.
- `Connections.OutputIsConserved`: over an output buffer that keeps its bytes, because the compaction as written does not; `ConnOutput.ConservedIff` says exactly when it does.
- `HttpRequests.FeedIsDecode`: over an input buffer that keeps its bytes; `HttpInput.BufferFeedIsFeed` carries it to the real one.
- The input of module HttpServers is a byte sequence, and its reads are of any length; after a read that compacts as written the session goes on with other bytes, as `HttpServers.HttpSession.HandleRead` says.
- Registration of the wakeup channel and quitting are in module EventLoops only; the lifecycle starts with its loops registered.
- `EventLoops::allocLoop` is an arbitrary choice of loop; examples and programs built on the library are not modelled.
