# A verified model of the reactor library

Twelve Dafny files model the parts of the library that hand work from one place to another, and
prove what those hand-overs are for. `dafny verify dfyconfig.toml` checks everything.

| file | models |
|---|---|
| `Buffer.dfy` | the byte buffer: indices, compaction, growth, the 64K spill of a read |
| `HttpRequest.dfy`, `HttpResponse.dfy` | the incremental request parser, the response printer, and the header round trip between them |
| `AsyncLogger.dfy` | double buffering between any number of appending threads and one writer thread |
| `EventLoop.dfy` | the task queue of a loop: push, eventfd, swap, run |
| `ThreadSafeQueue.dfy` | the queue with one lock at each end, access by access |
| `Poller.dfy` | channel flags, the map of channels and the kernel's interest set |
| `TcpConnection.dfy` | the output path of a connection: direct write, backlog, half-close, high-water mark |
| `TcpServer.dfy`, `TcpServerObjects.dfy` | the life of connections over a base loop and any number of I/O loops, as a state machine and as objects, closures and references |
| `TimerQueue.dfy` | the ordered set of timers with callbacks that add and cancel timers |
| `Sequences.dfy` | options, concatenation and decimal numbers, shared by the others |

A component comes in two halves. The first is the state as a value, the steps as functions, and the
theorems: an invariant, that every step keeps it, and what follows for every run, with the steps of
different threads interleaved in every way the locks allow. The second half is the code: classes
with the fields and methods of the original, each method proved to do to the state exactly what
its step says. What the kernel decides (how much `write` takes, what `readv` delivers, which
descriptors are ready, what the clock says) is an argument of the step, without further
restriction than the system call's own.

## Where the code does not do what it seems to be for

The model follows the code. Where a line looks unintended, an if-and-only-if says exactly when the
code as written does its job, and a lemma gives an input for which it does not. For the growth of the
buffer, the trimming of header values, and the flag and the order of the timer queue a policy datatype
lets the line as written and the line as intended be proved side by side.

- `src/net/Buffer.cpp:103` grows the vector to `WriteableBytes() + len` where `WriterIndex_ + len`
  is needed. `Buffers.RoomIff`: there is room afterwards exactly when the branch is not taken or the
  buffer is at most half used. `Buffers.GrowthGap`: a default buffer that holds 992 bytes shrinks to
  132 when 100 more are appended. What the copy past the end would do is undefined; methods return
  `inBounds == false` at that point.
- `src/net/http/HttpRequest.cpp:33` tests the byte at `end`, the CR, so every non-empty header value
  loses its last byte. `HttpRequests.TrimGap`, `HttpResponses.RoundTripIff`. Because a printed
  response always has a Content-Length, its header map never comes back as written, and always
  does with the intended test (`HttpResponses.ResponseRoundTrip`).
- `src/net/http/HttpRequest.cpp:68-74` looks at one digit of the protocol version only.
  `HttpRequests.VersionIff` says what is taken for what, `HttpRequests.VersionGap` has three that are wrong.
- `include/net/TimerQueue.h:29-34` is no order when a later timer has a smaller id.
  `TimerQueues.OrderIff` says when it is one, and that it is then the intended (time, id) order;
  `TimerQueues.OrderGap` is two timers each below the other. `TimerQueues.OrderMakesNoDifference` is
  about whole runs, and `TimerQueues.MissedGap` a round that leaves a due timer behind a later one.
- `src/net/TimerQueue.cpp:104` puts `CallingExpiredTimers_` to false before the callbacks run, so a
  repeating timer cannot cancel itself. `TimerQueues.CancelIsFinalIff`, `TimerQueues.SelfCancelGap`.
  And `src/net/TimerQueue.cpp:67-72` lets a cancel overtake the insertion of its timer, and be lost.
- `src/net/TimerQueue.cpp:25-26` reads the clock twice, and line 26 may belong to another second than
  line 25; a timer that is due already disarms the descriptor or aborts. `TimerQueues.ResetIff`,
  `TimerQueues.ArmedFromStartIff`, `TimerQueues.ResetGap`. A queue disarmed like that is dead:
  `TimerQueues.DisarmedIsDead`, `TimerQueues.NeverRunsForwardIff`, `TimerQueues.LongCallbackGap`.
- `src/base/Timestamp.cpp:10` adds microseconds to a thousandfold of seconds, so the clock of the timers
  falls at each full second. Readings are any integers; what holds only for a clock that does not go
  back says so.
- `src/net/EventLoop.cpp:107` skips the wakeup for a push on the loop thread when `callable_` is not
  set. `EventLoops.NoLostWakeupIff`, `EventLoops.PushBeforeStartGap`.
- `src/net/Channel.cpp:83-87` with `src/net/Poller.cpp:39-48`: taking the events away from a channel
  that is not registered registers it for no event. `Pollers.EmptyRegistrationIff`,
  `Pollers.EmptyRegistrationGap`.

`src/net/TcpConnection.cpp:79-82` logs "give up writing" and goes on writing; so does the model.

## Model

| member | source | states |
|---|---|---|
| Buffers.RoomIff | src/net/Buffer.cpp:41-47 | EnsureWriteableBytes leaves room for len bytes exactly when it need not grow, or the buffer is at most half used, or the growth is the intended one; the indices are in order whenever there is room |
| Buffers.GrowthGap | src/net/Buffer.cpp:99-104 | a default buffer holding 992 bytes shrinks to 132 when 100 bytes are appended |
| Buffers.CompactionMovesLeft | src/net/Buffer.cpp:101-107 | the compaction branch is reached only when ReaderIndex_ is past kCheapPrepend |
| Buffers.SpillSafeIff | src/net/Buffer.cpp:81-85 | the append of a spilled read is in bounds exactly when the spill fits in front of the readable bytes |
| Buffers.LayoutKept | src/net/Buffer.cpp:8-87 | after each operation that stays in bounds the indices are in order and the bytes between them add up, whatever was compacted, grown or spilled |
| Buffers.LayoutAfter | src/net/Buffer.cpp:8-112 | the indices are in order after any sequence of operations that stays in bounds |
| Buffers.IntendedStaysInBounds | src/net/Buffer.cpp:99-112 | with the size that is needed every sequence of operations stays in bounds |
| Buffers.FindCrlf | src/net/Buffer.cpp:114-118 | the first CRLF, none before it, and none at all when it says so |
| Buffers.FindCrlfStable | src/net/Buffer.cpp:114-118 | bytes behind a line do not move its end |
| Buffers.Buffer.constructor | include/net/Buffer.h:21-25 | an empty buffer with the prepend in front |
| Buffers.Buffer.RetrieveAll | src/net/Buffer.cpp:24-27 | the readable bytes are gone, the vector stays |
| Buffers.Buffer.Retrieve | src/net/Buffer.cpp:8-18 | the first len readable bytes are gone, or all when there are no more |
| Buffers.Buffer.RetrieveToString | src/net/Buffer.cpp:29-34 | the result and the bytes left are together the bytes before, and the result has len of them |
| Buffers.Buffer.RetrieveAllToString | src/net/Buffer.cpp:36-39 | the result is all that was readable |
| Buffers.Buffer.Compact | src/net/Buffer.cpp:105-111 | the overlapping copy to the front keeps every readable byte |
| Buffers.Buffer.MakeSpace | src/net/Buffer.cpp:99-112 | both branches give the sizes of Ensured and keep the readable bytes whenever the indices stay in order |
| Buffers.Buffer.EnsureWriteableBytes | src/net/Buffer.cpp:41-47 | the same with its guard |
| Buffers.Buffer.Append | src/net/Buffer.cpp:50-55 | in bounds exactly when Safe held before the call, and then the bytes are behind the ones already readable |
| Buffers.Buffer.ReadFromFd | src/net/Buffer.cpp:62-87 | what readv delivers, spill included, is behind what was readable; in bounds exactly when nothing spills or the append of the spill is safe; an error changes nothing |
| Buffers.Buffer.Perform | src/net/Buffer.cpp:8-112 | any sequence of appends, reads, failed reads and retrievals over the vector stays in bounds exactly when LayoutAfter says so, and then what was taken out followed by what is readable is what was readable at first followed by all that came in |
| Buffers.Buffer.FindCRLF | src/net/Buffer.cpp:114-118 | the search over the array finds what FindCrlf says of the readable bytes |
| HttpRequests.ParseLineTwice | src/net/http/HttpRequest.cpp:45-79 | a rejected request line leaves the fields so that parsing it again changes nothing and rejects it again |
| HttpRequests.RoundStable | src/net/http/HttpRequest.cpp:85-123 | a round of the loop does the same with more bytes behind, or can be taken again with them |
| HttpRequests.ChunkingIndependence | src/net/http/HttpRequest.cpp:81-125 | parsing a and then the leftover with b gives the request, leftover and result of parsing a and b at once, for every split and also for rejected lines |
| HttpRequests.FeedIsOneCall | src/net/http/HttpRequest.cpp:81-125 | a parser indifferent to one split is indifferent to any number of chunks |
| HttpRequests.AnyChunking | src/net/http/HttpRequest.cpp:81-125 | however a request is cut up, the last call leaves what one call on all of it leaves |
| HttpRequests.RequestLineIff | src/net/http/HttpRequest.cpp:45-79 | a line is accepted exactly when it is a known method, a target without blank and a known version, with one blank between |
| HttpRequests.RequestLineFields | src/net/http/HttpRequest.cpp:45-79 | url and query are the target cut at the first question mark; the method is the one printed by that name; the version is 2.0, 1.0 or 1.1 by the digits looked at; headers and state stay |
| HttpRequests.MethodNames | src/net/http/HttpRequest.cpp:7-21 | each of the five names is for its own method and any other for none; a method is read off what MethodToString prints |
| HttpRequests.VersionIff | src/net/http/HttpRequest.cpp:68-74 | which eight bytes are taken for which version: one digit is looked at, and not always the same |
| HttpRequests.VersionGap | src/net/http/HttpRequest.cpp:68-74 | HTTP/7.1, HTTP/3.0 and HTTP/2.9 are taken for versions 1.1, 1.0 and 2.0 |
| HttpRequests.TrimShift | src/net/http/HttpRequest.cpp:32-34 | testing one byte further right stops one byte further left, except at the lower end |
| HttpRequests.TrimGap | src/net/http/HttpRequest.cpp:28-36 | as written a value is the trimmed value without its last byte, for every line |
| HttpRequests.ValueIsTrimmed | src/net/http/HttpRequest.cpp:28-36 | with the intended test a value is what is behind the colon without the white space on both sides, all of it and nothing else |
| HttpRequests.HttpRequest.constructor | include/net/http/HttpRequest.h:20 | a new request is at the request line with no headers |
| HttpRequests.HttpRequest.Parse | src/net/http/HttpRequest.cpp:81-125 | the loop over the buffer leaves the fields, the readable bytes and the result of ParseBytes, and sets the receive time exactly when it gets past the request line |
| HttpRequests.HttpRequest.ParseOnce | src/net/http/HttpRequest.cpp:87-122 | one round of the loop is ParseRound |
| HttpRequests.HttpRequest.TakeRequestLine | src/net/http/HttpRequest.cpp:90-99 | an accepted line moves on to the headers, a rejected one leaves the state |
| HttpRequests.HttpRequest.Find | src/net/http/HttpRequest.cpp:49 | the loop finds the first such byte of the range, or its end |
| HttpRequests.HttpRequest.ScanRequestLine | src/net/http/HttpRequest.cpp:45-79 | scanning the line and storing each part as it is found leaves the fields and the result of ParseLine, also when a later part is wrong |
| HttpRequests.HttpRequest.StoreHeader | src/net/http/HttpRequest.cpp:28-36 | the two trimming loops store exactly the value that ValueOf says, under the bytes before the colon |
| Decimals.DecimalRoundTrip | src/net/http/HttpResponse.cpp:12 | a printed number is not empty, has digits only, and reads back as the number |
| HttpResponses.ValueOfPrinted | src/net/http/HttpResponse.cpp:14-20 | the value the parser stores for a printed field line |
| HttpResponses.PrintedLineRound | src/net/http/HttpResponse.cpp:14-20 | one round of the parser takes one printed field line off the front and stores it |
| HttpResponses.BlankLineRound | src/net/http/HttpRequest.cpp:114-118 | the blank line ends the parse and leaves the body |
| HttpResponses.ParsePrinted | src/net/http/HttpResponse.cpp:14-23 | the printed block is read line by line, in whatever order it was printed |
| HttpResponses.StoringAll | src/net/http/HttpRequest.cpp:28-36 | storing the fields one by one gives the same map in every order |
| HttpResponses.HeaderBlockParsed | src/net/http/HttpResponse.cpp:14-23 | the header loop on the printed block ends in kdown, with every name and what is kept of its value, and leaves exactly the body |
| HttpResponses.RoundTripIff | src/net/http/HttpRequest.cpp:28-36 | the header map comes back exactly when the trimming is the intended one or every value is empty |
| HttpResponses.RequestLineRoundTrip | src/net/http/HttpRequest.cpp:45-79 | what is printed as a request line is read back: method, version, and the target in its two parts |
| HttpResponses.RequestRoundTrip | src/net/http/HttpRequest.cpp:81-125 | a whole printed request ends in kdown with its method, version, target, headers less what the trimming takes, and exactly the body left over |
| HttpResponses.RefusesIff | src/net/http/HttpRequest.cpp:81-125 | parse refuses exactly a first line that is complete and no request line, and leaves it; without a complete line it changes nothing and waits |
| HttpResponses.ResponseRoundTrip | src/net/http/HttpResponse.cpp:7-24 | with Content-Length set by the printer: the map comes back exactly with the intended trimming, and its Content-Length is then the length of the leftover |
| HttpResponses.StatusLineParts | src/net/http/HttpResponse.cpp:7-10 | the status line is the name of the version, the code in digits that read back as it, the message |
| HttpResponses.VersionNames | src/net/http/HttpResponse.cpp:42-47 | each version is printed by its own name, which the request parser takes for it |
| HttpResponses.HttpResponse.constructor | include/net/http/HttpResponse.h:13-18 | a new response is HTTP/1.1 with Connection: Keep-Alive |
| HttpResponses.HttpResponse.Response | src/net/http/HttpResponse.cpp:7-24 | the output is the status line, every header once in some order, the blank line and the body, behind what was there; in bounds exactly when the appends are, one after the other, from where the buffer stood |
| HttpResponses.HttpResponse.AppendHeaders | src/net/http/HttpResponse.cpp:14-20 | every header once, whatever order the map is walked in; in bounds exactly when the four appends of each are, in that order |
| HttpResponses.HttpResponse.AppendField | src/net/http/HttpResponse.cpp:16-19 | four appends make one field line, in bounds exactly when each of the four is where the one before leaves the buffer |
| AsyncLoggers.AppendStream | src/base/AsyncLogger.cpp:31-48 | an append never meets a null buffer, and puts the message at the end of the stream or, if it does not fit an empty buffer, nowhere |
| AsyncLoggers.SwapStream | src/base/AsyncLogger.cpp:77-88 | the writer's critical section finds its spare buffers and moves no byte within the stream |
| AsyncLoggers.CutStream | src/base/AsyncLogger.cpp:90-99 | the cut of a large batch takes out exactly the recorded bytes and puts in exactly the notice |
| AsyncLoggers.CutIff | src/base/AsyncLogger.cpp:90-99 | a batch is cut exactly when it has more than 25 buffers, down to its first two |
| AsyncLoggers.BuffersMove | src/base/AsyncLogger.cpp:31-123 | the buffers made are exactly those still there and those freed; one is made only by an append that finds the current one full and no spare, and buffers are freed only by a cut and at recycling, which frees all it does not keep as spares |
| AsyncLoggers.WriteNextStream | src/base/AsyncLogger.cpp:101-104 | writing a buffer moves it from the batch to the file |
| AsyncLoggers.RecycleStream | src/base/AsyncLogger.cpp:106-123 | recycling never pops an empty vector, also after a cut, and throws no unwritten byte away |
| AsyncLoggers.StepKeepsInv | src/base/AsyncLogger.cpp:31-125 | every step of either side is safe and keeps the pointers and the accounts |
| AsyncLoggers.RunKeepsInv | src/base/AsyncLogger.cpp:31-125 | so does every run; its log is what was appended, with one cut for each batch over 25 buffers |
| AsyncLoggers.LoggerSafeAndLossless | src/base/AsyncLogger.cpp:31-125 | over every interleaving: no null pointer and no empty pop; both spares there and empty at the loop head; file, rest of batch, filled buffers and current buffer are what was appended, in lock order, once the recorded cuts are undone, and are exactly that when no batch has more than 25 buffers |
| AsyncLoggers.FixedBuffer.constructor | include/base/LogStream.h:15 | an empty buffer |
| AsyncLoggers.FixedBuffer.Append | include/base/LogStream.h:17-24 | the whole message is added, or nothing when fewer bytes than its length and one more are free |
| AsyncLoggers.FixedBuffer.Reset | include/base/LogStream.h:27 | the text is empty, whatever the bytes are |
| AsyncLoggers.AsyncLogger.constructor | src/base/AsyncLogger.cpp:7-23 | both sides start with two empty buffers |
| AsyncLoggers.AsyncLogger.Append | src/base/AsyncLogger.cpp:31-48 | the moves of the critical section make the append step |
| AsyncLoggers.AsyncLogger.SwapBuffers | src/base/AsyncLogger.cpp:77-88 | the moves of the writer's critical section make the swap step |
| AsyncLoggers.AsyncLogger.CutLargeBatch | src/base/AsyncLogger.cpp:90-99 | more than 25 buffers become two, with a notice in the file |
| AsyncLoggers.AsyncLogger.WriteBatch | src/base/AsyncLogger.cpp:101-104 | the loop appends the whole batch to the file |
| AsyncLoggers.AsyncLogger.RecycleBuffers | src/base/AsyncLogger.cpp:106-123 | the pops leave both spares there and empty |
| AsyncLoggers.AsyncLogger.WriteOut | src/base/AsyncLogger.cpp:90-124 | a turn of the writer outside the mutex writes the batch, or notice and two buffers, and is back at the loop head |
| EventLoops.StepKeepsInv | src/net/EventLoop.cpp:59-194 | every micro-step of the loop or another thread keeps callable_ in step with where the loop is, and the history of tasks |
| EventLoops.StepKeepsInSight | src/net/EventLoop.cpp:59-194 | every step keeps the queue and the order to quit in sight of a wakeup or a swap, except a push on the loop thread at poll with no wakeup due, which puts the loop to sleep over its work |
| EventLoops.RunKeepsInv | src/net/EventLoop.cpp:59-194 | so does every run |
| EventLoops.NoLostWakeupIff | src/net/EventLoop.cpp:59-121 | with pushes on the loop thread anywhere: a run never has the loop at poll with tasks queued or quit_ set, the eventfd at zero and no thread before its wakeup, exactly when each such push comes when the loop is not at poll or a wakeup is due |
| EventLoops.NoLostWakeup | src/net/EventLoop.cpp:59-121 | so when the loop thread pushes only from callbacks, whenever the loop is at poll with tasks queued or quit_ set, the eventfd is readable or some thread is between its push and its wakeup |
| EventLoops.PushBeforeStartGap | src/net/EventLoop.cpp:101-111 | a task queued on the loop thread before start() finds the loop at poll with nothing to wake it |
| EventLoops.FifoExactlyOnce | src/net/EventLoop.cpp:101-194 | executed tasks, rest of the batch and queue are all tasks ever queued, in the order of the mutex, those queued by running tasks included |
| EventLoops.TurnRunsAllQueued | src/net/EventLoop.cpp:64-76 | everything queued when a poll returns has been executed when the loop polls again or stops |
| EventLoops.EventfdCounts | src/net/EventLoop.cpp:113-178 | over every run the eventfd holds exactly the writes made since it was last read, as far as they fit, so it is readable exactly when there was one |
| EventLoops.QuietAfterRead | src/net/EventLoop.cpp:170-178 | after the read, with no push, quit or wakeup, the eventfd stays at zero |
| EventLoops.QuitIff | src/net/EventLoop.cpp:79-87 | the loop is told to quit exactly when quit() was called |
| EventLoops.QuitEndsIt | src/net/EventLoop.cpp:64-87 | then it polls at most once more if it was at poll, and not at all if it was on its way |
| EventLoops.TurnEnds | src/net/EventLoop.cpp:64-74 | a turn that finds nothing queued ends where it began, unless told to quit; one that does sets callable_ and enters the batch |
| EventLoops.EventLoop.constructor | src/net/EventLoop.cpp:21-47 | a loop that has not run anything |
| EventLoops.EventLoop.Quit | src/net/EventLoop.cpp:79-87 | an order to quit from a callback stays in sight without a wakeup: the loop does not go back to poll over it |
| EventLoops.EventLoop.QueueInLoop | src/net/EventLoop.cpp:101-111 | on the loop thread: the push, and the wakeup if callable_ is set; the queue stays in sight when the push is one that is seen |
| EventLoops.EventLoop.QueueFromThread | src/net/EventLoop.cpp:101-111 | on another thread: the push and the wakeup, after which the queue is in sight if it was before |
| EventLoops.EventLoop.HandleRead | src/net/EventLoop.cpp:170-178 | the eventfd is read to zero, and what is queued stays in sight, since the swap comes before the next poll |
| EventLoops.EventLoop.Dispatch | src/net/EventLoop.cpp:69-72 | the handlers of the ready channels, the eventfd among them at any place, run no task and put what they queue, and what other threads queue meanwhile, into the queue in that order; an eventfd reported is read, and is at zero if no other thread writes to it |
| EventLoops.EventLoop.OneTurn | src/net/EventLoop.cpp:64-74 | one turn runs exactly what was queued when everything ready has been handled, in order; what is queued meanwhile waits, in order, with a wakeup due |
| EventLoops.EventLoop.RunLoop | src/net/EventLoop.cpp:59-77 | start(): after its first turn all that was queued before it has been executed, also tasks queued on the loop thread before it; after each turn the queue and the order to quit are in sight; it goes on until told to quit |
| EventLoops.EventLoop.DoCallback | src/net/EventLoop.cpp:180-194 | exactly the callbacks found in the queue run, in order; those queued meanwhile, by them or by other threads, are left for the next turn, in order, with a wakeup due; and the loop is told to quit exactly when it was or one of them says so |
| EventLoops.EventLoop.TakeBatch | src/net/EventLoop.cpp:182-188 | the swap takes the whole queue |
| EventLoops.EventLoop.RunCallback | src/net/EventLoop.cpp:189-192 | one callback runs, and what it queues is behind everything queued before |
| EventLoops.EventLoop.EndBatch | src/net/EventLoop.cpp:193 | callable_ is reset, and a queue that is not empty has its wakeup |
| ThreadSafeQueues.StepIsSafe | include/base/ThreadSafeQueue.ipp:39-105 | no step follows a null pointer, takes data that is not there or frees a node with another one behind it |
| ThreadSafeQueues.StepKeepsInv | include/base/ThreadSafeQueue.ipp:39-105 | every access by any thread keeps the list from head to tail linked, without repetition, filled before the tail and ended by the dummy |
| ThreadSafeQueues.MoveTailKeepsList | include/base/ThreadSafeQueue.ipp:47 | moving tail_ is where a push takes effect, at the end |
| ThreadSafeQueues.MoveHeadKeepsList | include/base/ThreadSafeQueue.ipp:64-69 | moving head_ is where a pop takes effect, at the front |
| ThreadSafeQueues.StepRefines | include/base/ThreadSafeQueue.ipp:39-105 | every access is a step of the abstract FIFO: an enqueue, a dequeue, finding it empty, or nothing |
| ThreadSafeQueues.VerdictIsRight | include/base/ThreadSafeQueue.ipp:87-95 | a pop gives up exactly when the queue was empty as it read the tail, and otherwise finds a value |
| ThreadSafeQueues.ReturnedValueIsTaken | include/base/ThreadSafeQueue.ipp:24-28 | the value handed out after unlocking is the one taken off the queue |
| ThreadSafeQueues.NoSharedNode | include/base/ThreadSafeQueue.ipp:39-69 | two threads never access the same node at once |
| ThreadSafeQueues.RunRefines | include/base/ThreadSafeQueue.ipp:39-105 | every interleaving of any number of pushes and pops is safe and refines the FIFO step by step |
| ThreadSafeQueues.FifoFromStart | include/base/ThreadSafeQueue.ipp:12-105 | from the constructor on, the values popped are a prefix of those pushed, and the rest is in the queue |
| ThreadSafeQueues.ThreadSafeQueue.constructor | include/base/ThreadSafeQueue.ipp:12 | head and tail are one new dummy |
| ThreadSafeQueues.ThreadSafeQueue.Empty | include/base/ThreadSafeQueue.ipp:34-38 | true exactly when there are no contents |
| ThreadSafeQueues.ThreadSafeQueue.Push | include/base/ThreadSafeQueue.ipp:39-49 | the value is at the end, with one fresh node |
| ThreadSafeQueues.ThreadSafeQueue.PopHead | include/base/ThreadSafeQueue.ipp:64-69 | the first node comes off with its data |
| ThreadSafeQueues.ThreadSafeQueue.TryPop | include/base/ThreadSafeQueue.ipp:87-95 | the first value, or none and no change when there is none |
| Pollers.UpdateRestores | src/net/Poller.cpp:35-62 | passing changed events on makes channel, map and kernel agree again, and epoll_ctl does not fail |
| Pollers.KernelAgreement | src/net/Poller.cpp:35-109 | over every sequence of operations on channels with different descriptors: in the interest set, with its events, exactly when the state is ADD; in channels_ exactly when it is not NEW; DELETED means no events; ADD never meets a registered descriptor, MOD and DEL never an unregistered one |
| Pollers.EmptyRegistrationIff | src/net/Poller.cpp:39-61 | a channel is registered for no event exactly when its events were taken away while it was not registered |
| Pollers.EmptyRegistrationGap | src/net/Channel.cpp:83-87 | DisableAll on a channel that was never registered puts it into the kernel's set |
| Pollers.SwitchesExactly | src/net/Channel.cpp:59-81 | each operation sets and clears exactly its own bits, by their numbers |
| Pollers.CtlFailsIff | src/net/Poller.cpp:87-109 | epoll_ctl fails, and then changes nothing, exactly when it would add what is there or change or delete what is not |
| Pollers.AskedFor | src/net/Channel.cpp:35-57 | which events ask for which callback, by their numbers |
| Pollers.Channel.constructor | src/net/Channel.cpp:5-11 | a channel for a descriptor that no other one of the loop has: not registered, wanting nothing, and all others as they were |
| Pollers.Channel.Drop | include/net/Channel.h:20 | a channel that was removed can go without leaving a pointer behind, and its descriptor may be used again |
| Pollers.Channel.HandleEvent | src/net/Channel.cpp:19-57 | which callbacks are made, exactly: those set, for the events that ask for them, in order; none when the tied owner is gone |
| Pollers.Channel.Update | src/net/Channel.cpp:93-96 | passes the events on and restores the agreement of all channels |
| Pollers.Channel.EnableReading | src/net/Channel.cpp:59-63 | its entry takes the operation, all others stay, and all agree |
| Pollers.Channel.DisableReading | src/net/Channel.cpp:65-69 | its entry takes the operation, all others stay, and all agree |
| Pollers.Channel.EnableWriting | src/net/Channel.cpp:71-75 | its entry takes the operation, all others stay, and all agree |
| Pollers.Channel.DisableWriting | src/net/Channel.cpp:77-81 | its entry takes the operation, all others stay, and all agree |
| Pollers.Channel.DisableAll | src/net/Channel.cpp:83-87 | its entry takes the operation, all others stay, and all agree |
| Pollers.Channel.Remove | src/net/Channel.cpp:89-92 | its entry takes the operation, all others stay, and all agree |
| Pollers.Poller.constructor | src/net/Poller.cpp:5-13 | nothing is registered |
| Pollers.Poller.UpdateChannel | src/net/Poller.cpp:35-62 | the three-state machine on one channel leaves every other one's entry as it was |
| Pollers.Poller.RemoveChannel | src/net/Poller.cpp:64-75 | the channel is out of the map and, if it was in, out of the kernel's set |
| Pollers.Poller.EpollCtl | src/net/Poller.cpp:87-109 | the kernel's set changes as asked or counts a failure |
| Pollers.Poller.Poll | src/net/Poller.cpp:15-33 | every channel handed out is the one registered for its descriptor, in state ADD and still in channels_, with the events reported |
| TcpConnections.SendKeepsOrder | src/net/TcpConnection.cpp:73-122 | what the kernel took and the backlog stay what was sent, in order; only a message refused with EPIPE or ECONNRESET is dropped, and whole |
| TcpConnections.ByteStream | src/net/TcpConnection.cpp:73-214 | over every run with arbitrary partial writes, the bytes taken by the kernel and then the backlog are the messages given to SendInLoop, in call order, without those dropped whole |
| TcpConnections.GracefulHalfClose | src/net/TcpConnection.cpp:108-214 | before close the channel is writing exactly when there is a backlog; the write side is shut down at most once, with nothing waiting and after every byte accepted; in kDisconnecting it has been shut down exactly when the backlog is gone |
| TcpConnections.ShutDownAfterEverything | src/net/TcpConnection.cpp:108-214 | from the constructor on, when the write side is shut down the kernel has taken exactly all that was sent |
| TcpConnections.NothingAfterShutdown | src/net/TcpConnection.cpp:42-71 | nothing is accepted once shutdown was called or the connection closed |
| TcpConnections.ShutdownDrains | src/net/TcpConnection.cpp:124-140 | shutdown on a connected connection: over every run until it is closed it is disconnecting, accepts nothing more, and has its write side shut down, once, exactly when all accepted before has been taken; at once when nothing was waiting |
| TcpConnections.ReadsWhileOpen | src/net/TcpConnection.cpp:142-225 | over every run from the constructor on, it reads exactly from when it is established until it is closed; it writes only then, and has accepted nothing before |
| TcpConnections.StepMoves | src/net/TcpConnection.cpp:124-225 | which step takes the connection from which state to which, and that no other step does |
| TcpConnections.CompleteIffDrained | src/net/TcpConnection.cpp:84-207 | a write-complete callback is queued, if one is set, by exactly the steps in which the kernel takes the last byte there was, and then everything accepted has been taken |
| TcpConnections.NoticesAreCrossings | src/net/TcpConnection.cpp:108-116 | with a callback set, one notice for each step that takes the backlog from below the mark to it or above, with the size reached, and no other |
| TcpConnections.BelowBetweenNotices | src/net/TcpConnection.cpp:108-116 | between two notices the backlog was below the mark |
| TcpConnections.TcpConnection.constructor | src/net/TcpConnection.cpp:14-34 | a connecting connection with an empty backlog |
| TcpConnections.TcpConnection.SendInLoop | src/net/TcpConnection.cpp:73-122 | direct write, then backlog, over the real buffer: the view changes as Sent says, in bounds exactly when nothing is left to wait or the buffer has room for it before the call |
| TcpConnections.TcpConnection.QueueRest | src/net/TcpConnection.cpp:108-121 | notice, append and writing flag, in bounds exactly when the buffer has room for the rest before the call |
| TcpConnections.TcpConnection.Send | src/net/TcpConnection.cpp:42-55 | nothing happens unless connected, and then in bounds exactly when the backlog has room for what the kernel did not take |
| TcpConnections.TcpConnection.Shutdown | src/net/TcpConnection.cpp:124-131 | a connected connection becomes disconnecting, with one shutdown more when it is idle |
| TcpConnections.TcpConnection.HandleWrite | src/net/TcpConnection.cpp:187-214 | what write took leaves the backlog; the step that drains it switches writing off and shuts a disconnecting connection down |
| TcpServers.NamesDiffer | src/net/TcpServer.cpp:55-58 | connections with different numbers have different names |
| TcpServers.NameParts | src/net/TcpServer.cpp:55-58 | a name is that of the server, a number sign, and the number, which can be read back |
| TcpServers.EstablishedOk | src/net/TcpConnection.cpp:142-151 | establishing registers the channel and reports up |
| TcpServers.ClosedOk | src/net/TcpConnection.cpp:216-225 | closing takes it out of the kernel's set and reports down |
| TcpServers.DestroyedOk | src/net/TcpConnection.cpp:153-165 | destroying takes it out of the poller's map and reports nothing more |
| TcpServers.DestroyedWhileUp | src/net/TcpConnection.cpp:153-165 | a connection destroyed while connected is reported down first, and then in no map and no set |
| TcpServers.LateSendRegisters | src/net/TcpConnection.cpp:117-120 | enabling writing on a closed connection puts its channel back into the kernel's set |
| TcpServers.TasksMove | src/net/EventLoop.cpp:89-111 | when a connection takes its task off one queue and puts its next at the end of another, the queues again hold exactly the tasks due, each once |
| TcpServers.AcceptKeepsInv | src/net/TcpServer.cpp:51-79 | accepting, on the base loop or for another one, keeps the invariant of all loops |
| TcpServers.CloseKeepsInv | src/net/TcpConnection.cpp:216-230 | a close, which erases at once on the base loop and leaves the map to it from another loop, keeps it |
| TcpServers.RemoveKeepsInv | src/net/TcpServer.cpp:86-93 | running RemoveConnectionInLoop on the base loop keeps it: the entry goes, and the destruction is queued on the other loop |
| TcpServers.DestroyKeepsInv | src/net/TcpConnection.cpp:153-165 | running ConnectDestoryed keeps it |
| TcpServers.StepKeepsInv | src/net/TcpServer.cpp:51-93 | every step of any loop keeps it: the queues hold exactly the task each connection waits for, on the right loop, once; the map holds exactly the connections not erased; channels reported ready are those of connections that are up |
| TcpServers.LifeInOrder | src/net/TcpServer.cpp:51-93 | over every interleaving, each connection goes through up, down, erased, destruction queued, destroyed, in that order and each at most once; its name leads to it in the map exactly until it is erased |
| TcpServers.OwnedWhileRegistered | src/net/TcpConnection.cpp:142-165 | while its channel is in channels_ or in the kernel's set, or still to be handled in a dispatch, the map or a closure owns the connection; it is free only after its whole life |
| TcpServers.NothingLeaks | src/net/TcpServer.cpp:81-93 | when all loops rest, each connection is up, in the map and registered, or it has been destroyed, is in no set, and nothing owns it |
| TcpServers.DestroyedAfterDown | src/net/TcpConnection.cpp:153-165 | in these runs ConnectDestoryed always finds kDisconnected |
| TcpServers.NothingForTheDead | src/net/Channel.cpp:13-33 | over every run, what has been reported up is tied; its channel makes the callbacks for reading and writing that the events ask for while something owns it, and none when nothing does |
| TcpServers.ShutdownStarts | src/net/TcpConnection.cpp:124-131 | over every run after shutdown on a connected connection it is disconnecting until it is reported down, and no send makes it write again |
| TcpServers.UnownedIsDone | src/net/TcpServer.cpp:86-93 | a connection that nothing owns has been through everything, and its channel is in no map and no set |
| TcpServerObjects.Connection.constructor | src/net/TcpConnection.cpp:14-34 | a connecting connection that has reported nothing, with the callbacks for reading and writing set |
| TcpServerObjects.Connection.ConnectEstablished | src/net/TcpConnection.cpp:142-151 | through its channel, which is tied, the poller and the kernel's set it becomes the established connection of the model, and no other channel of the poller changes |
| TcpServerObjects.Connection.Close | src/net/TcpConnection.cpp:216-225 | likewise the closed one |
| TcpServerObjects.Connection.ConnectDestroyed | src/net/TcpConnection.cpp:153-165 | likewise the one torn down, reporting down only if still connected |
| TcpServerObjects.TcpServer.constructor | src/net/TcpServer.cpp:8-23 | no connections, the first number is 1, with the pollers given |
| TcpServerObjects.TcpServer.AcceptNext | src/net/TcpServer.cpp:51-79 | with a new connection object and channel, the map entry, and the closure or the call, all objects together take the accept step of the model and stay in a state that can be reached; the poller knows one channel more, with the descriptor given |
| TcpServerObjects.TcpServer.HandleNext | src/net/Channel.cpp:19-33 | handling the next ready connection through Channel::HandleEvent takes the step of the model on all objects together; the callbacks made are exactly those the reported events ask for, and none for an owner that is gone; the pollers know the same channels |
| TcpServerObjects.TcpServer.RunNext | src/net/EventLoop.cpp:189-192 | running the next closure takes the step of the model on all objects together; the object it refers to has not been freed |
| TcpServerObjects.TcpServer.PollReturns | src/net/EventLoop.cpp:66-67 | the step of the model for connections that are registered; each channel has the events reported for it |
| TcpServerObjects.TcpServer.EndDispatch | src/net/EventLoop.cpp:73 | the swap, or another poll when nothing is queued |
| TcpServerObjects.TcpServer.EndBatch | src/net/EventLoop.cpp:193-194 | the closures of the batch go with their references |
| TcpServerObjects.TcpServer.Free | src/net/TcpConnection.cpp:36-40 | once no reference is left the object and its channel can go: nothing in any map, set, queue or poller changes or leads to them, and the descriptor may be used again |
| TimerQueues.OrderIff | include/net/TimerQueue.h:29-34 | the comparison orders a set of timers exactly when later timers do not have smaller ids, and is then the (time, id) order |
| TimerQueues.OrderGap | include/net/TimerQueue.h:29-34 | two timers each below the other |
| TimerQueues.InsertOk | src/net/TimerQueue.cpp:143-165 | by the intended order the set gains exactly the timer, in its place, and which is first afterwards |
| TimerQueues.InsertSameIff | src/net/TimerQueue.cpp:143-165 | the comparison as written puts a timer where the intended one does exactly when all that belong in front of it have smaller ids |
| TimerQueues.OrderMakesNoDifference | src/net/TimerQueue.cpp:74-165 | over every run in which each timer fits so when it is inserted, by callbacks and reset too, the queue with the comparison as written goes through the same states and runs the same timers |
| TimerQueues.MissedGap | src/net/TimerQueue.cpp:125-134 | a repeating timer goes back in front of a younger one that is due earlier, which is then not among those due |
| TimerQueues.EraseOk | src/net/TimerQueue.cpp:82-90 | the set loses exactly the timer with the id |
| TimerQueues.DueIsAllDue | src/net/TimerQueue.cpp:114-123 | the timers before the first late one are exactly those due |
| TimerQueues.ResetIff | src/net/TimerQueue.cpp:21-33 | for any two readings of the clock: the descriptor is armed no later than the expiration exactly when the second comes before it, the first leaves some whole seconds but no more than the second, or none and the second leaves a rest; and exactly when it is disarmed or settime is given a negative time |
| TimerQueues.ResetGap | src/net/TimerQueue.cpp:21-33 | readings on both sides of a full second arm it almost a second late, a reading at the expiration disarms it, one behind it is refused |
| TimerQueues.ActUpToOk | src/net/TimerQueue.cpp:74-95 | after any additions and cancellations the set is exactly what was there or added and not cancelled later, in order, each timer once |
| TimerQueues.ActUpToCancels | src/net/TimerQueue.cpp:82-95 | cancelling a timer that is being run is recorded exactly while the flag is up |
| TimerQueues.RearmOk | src/net/TimerQueue.cpp:125-134 | reset puts back exactly the repeating timers not cancelled, each with its id and interval and expiring at now plus the interval |
| TimerQueues.RoundRunsDueAndLeavesRest | src/net/TimerQueue.cpp:97-141 | with callbacks that add and cancel, a round runs exactly the timers due, in (expiration, id) order, and leaves exactly those not due or added, less cancelled, and the repeating ones, to expire a whole interval after now however late the round is, unless they lost their turn; none twice |
| TimerQueues.RoundSetsDescriptor | src/net/TimerQueue.cpp:97-141 | a round uses the report of the descriptor up and sets it for the first timer left; with none left and nothing added it is disarmed |
| TimerQueues.LateRound | src/net/TimerQueue.cpp:125-134 | a timer of interval 10 due at 5 and handled at 12 is due again at 22 |
| TimerQueues.CancelFinalIff | src/net/TimerQueue.cpp:82-141 | a timer cancelled by a callback after it was inserted is out of the set after the round exactly when the flag is up, or it is not a repeating one being run, or was recorded before |
| TimerQueues.SelfCancelGap | src/net/TimerQueue.cpp:97-112 | a repeating timer that cancels itself is back in the set |
| TimerQueues.ExpireKeepsInv | src/net/TimerQueue.cpp:97-141 | with the flag as intended a round runs no cancelled timer and leaves none in the set |
| TimerQueues.CancelledNeverRuns | src/net/TimerQueue.cpp:82-141 | with the flag as intended, once a cancel of a timer that was inserted has run no later round runs it, over every run, although CancelTimers_ is never emptied |
| TimerQueues.AbsentNeverRuns | src/net/TimerQueue.cpp:82-141 | for either flag, a timer that was inserted and is out of the set between steps is not run in any continuation |
| TimerQueues.NeverRunsIff | src/net/TimerQueue.cpp:74-141 | in every state, whatever the clock says, a timer runs in no continuation exactly when it was inserted and is out of the set, or the process has ended |
| TimerQueues.NeverRunsForwardIff | src/net/TimerQueue.cpp:21-141 | with a clock that does not go back also when it is in the set, due or due with the next tick, and the descriptor is disarmed and not about to be handled; in no other case |
| TimerQueues.DisarmedIsDead | src/net/TimerQueue.cpp:74-141 | in that case no timer at all is run, whatever is added or cancelled, until that one is cancelled |
| TimerQueues.EarlyCancelIsLost | src/net/TimerQueue.cpp:67-95 | a callback's cancel that runs before the AddTimerInLoop of its timer is lost: after the round the timer is in the set, or has still to be inserted |
| TimerQueues.CancelIsFinalIff | src/net/TimerQueue.cpp:82-141 | for either flag and whatever the clock says, after a cancellation from outside or from a callback no continuation runs the timer exactly when it had been inserted by then and is not a repeating one of the same round with the flag down, or the process has ended; otherwise some continuation, with HandleRead called only when the poll reported the armed descriptor, does run it |
| TimerQueues.CancelIsFinalForwardIff | src/net/TimerQueue.cpp:82-141 | with a clock that does not go back, and the descriptor reported only when its time has come, the cancellation is final in exactly one more case: the timer is back in the set but due, or due with the next tick, and the descriptor is disarmed |
| TimerQueues.LongCallbackGap | src/net/TimerQueue.cpp:97-112 | a repeating timer that cancels itself in a callback that takes as long as its interval is back in the set and never runs again unless the clock goes back |
| TimerQueues.OutsideArmsIff | src/net/TimerQueue.cpp:74-95 | adding or cancelling keeps the descriptor armed in time exactly when the readings of the clock, whatever they are, agree with the timer put first, if any |
| TimerQueues.RoundArmsIff | src/net/TimerQueue.cpp:136-140 | a round leaves it armed in time exactly when the readings at the end agree with the first timer left |
| TimerQueues.ArmedFromStartIff | src/net/TimerQueue.cpp:74-141 | over every run from the constructor on, the descriptor is armed in time for the first timer in every state outside HandleRead exactly when each time it is set the readings agree with the timer it is set for |
| TimerQueues.NextIdIsLegal | src/net/Timer.cpp:3-12 | the next id that the counter hands out has not been used, and that stays so |
| TimerQueues.Timer.constructor | src/net/Timer.cpp:3-12 | expiration and interval as given, and an id above all that were handed out |
| TimerQueues.Timer.Restart | src/net/Timer.cpp:14-18 | a repeating timer expires at now plus interval, any other at time zero |
| TimerQueues.TimerQueue.constructor | src/net/TimerQueue.cpp:43-53 | an empty set that holds no timer, nothing armed |
| TimerQueues.TimerQueue.InsertTimer | src/net/TimerQueue.cpp:143-165 | the set with the timer given at its place, every key still what its timer says, no other timer new in it, and whether the earliest changed |
| TimerQueues.TimerQueue.AddTimerInLoop | src/net/TimerQueue.cpp:74-80 | the step of the model, every key still what its timer says, no other timer new in the set |
| TimerQueues.TimerQueue.CancelTimerInLoop | src/net/TimerQueue.cpp:82-95 | the step of the model, every key still what its timer says |
| TimerQueues.TimerQueue.GetExpiredTimer | src/net/TimerQueue.cpp:114-123 | the due timers come out and the others stay |
| TimerQueues.TimerQueue.ResetTimers | src/net/TimerQueue.cpp:125-141 | restart touches only timers taken out of the set, and the descriptor is set for the first one |
| TimerQueues.TimerQueue.RunCallbacks | src/net/TimerQueue.cpp:105-108 | the timers run in order, each making its calls |
| TimerQueues.TimerQueue.HandleRead | src/net/TimerQueue.cpp:97-112 | the loops over shared, mutable timers do what the round of the model does, every key in the set is again what its timer says, and the set holds only timers it held or that were given |

## Left out

- Socket, Address, Acceptor, Signals, the MySQL files, LogFile, Logger and Timestamp formatting, number formatting in LogStream: system-call and driver wrappers and text output. Accepts, reads, writes, ready lists and the clock are arguments; the log file is a growing string.
- HttpServer: it makes a new request for each message, so the parser's resumption plays no part in it.
- KeepAlive, SetContentLength, swap, the debug strings, GetNextLoop, Singleton: no more than their bodies. Which loop a connection gets is arbitrary in the model.
- Calls of `send` and `shutdown` from other threads: the state test and the change are not one step there, and raw pointers are bound. `TcpConnections.ByteStream` allows sends posted from other threads as far as the order of bytes goes; the half-close, and the whole of `TcpServer.dfy`, take calls on the loop thread. TcpServers.LateSendRegisters is what a send posted from another thread does that runs after the close.
- The server's destructor, thread start and join, and a quit on the loop thread before the loop starts, which start() takes back.
- Liveness of WaitPop: the condition variable is notified without the head lock. A wait is modelled as giving the head lock up and trying again.
- Logger contents after stop, which are not written; and the wait on the condition variable, after which everything is read afresh.
- Bytes are `char`, and white space is blank and 9 to 13. Sizes, ids and times are unbounded; the counter of connection names is an int and that of timers 64 bits wide in the original. A server's name, address and dash are one string, and the 64 bytes for the rest are taken to be enough.
- Failures of epoll_ctl other than for a descriptor that is there or not there, of the eventfd and of timerfd_settime other than for a negative time.
- Buffers.Buffer.Perform: its loop stands for any caller of the buffer and is not in the original.
- EventLoops.EventLoop.RunLoop: ends after the turns given, because a loop that is never told to quit has no end. What handlers and callbacks do besides queueing and quitting is in the other files.
- AsyncLoggers.AsyncLogger.Append: holds the text of a buffer and moves it as a value where the original moves a pointer; the array under one buffer is FixedBuffer. A unique_ptr has no alias, so nothing is lost but the address.
- AsyncLoggers.AsyncLogger.WriteOut: is a turn without appends in between; the interleavings are in LoggerSafeAndLossless.
- ThreadSafeQueues.ThreadSafeQueue.TryPop: is one operation at a time; the interleavings are in RunRefines. The variants that assign to a reference read the data one access earlier under the same lock.
- TcpServerObjects.TcpServer.AcceptNext: keeps the loops as values in a field, with closures that refer to connection objects; the loop as an object is in `EventLoop.dfy`. What a batch does down to the eventfd is there too, so here the test and the swap of a queue are one step. When the last reference goes is said by Free, not counted: a count is what shared_ptr keeps.
- TimerQueues.InsertOk: is about the intended order, as are InsertTimer and the rounds, because a set with the comparison as written has no defined behaviour where that is no order; the model inserts by it from front to back. OrderMakesNoDifference says for which runs nothing changes.
- TimerQueues.TimerQueue.HandleRead: takes the calls the callbacks make as data, any data, in order, with their timers made before. The descriptor is taken to be set when the clock has just been read the second time. A round in which settime is refused ends the process at that call; it is not a step of a run.
