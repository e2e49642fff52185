/**
  The task queue of an event loop (src/net/EventLoop.cpp): other threads push a task under the
  mutex and then write to the eventfd; the loop thread polls, dispatches, swaps the queue out and
  runs it. The loop thread itself pushes too, and skips the eventfd unless `callable_` is set.

  `Loop` is the state at the granularity of those micro-steps; `waking` are the threads between
  their push and their write. The class EventLoop is the code, with the callbacks given as data.
 */
module EventLoops {
  import opened Sequences

  /** The eventfd refuses a write that would overflow it; the counter stays positive then. */
  const EVENTFD_MAX: nat := 0xFFFF_FFFF_FFFF_FFFE

  /** Where the loop thread stands in start() and DoCallback(). */
  datatype LoopPc<T> =
    | Polling
    | Dispatching(wakeReady: bool)   // wakeReady: the eventfd was among the polled events and is not read yet
    | Checking                       // before the test of functors_.empty()
    | Entered                        // callable_ set, queue not swapped yet
    | Running(rest: seq<T>)
    | Stopped

  datatype Loop<T> = Loop(
    functors: seq<T>, callable: bool, counter: nat, quit: bool,
    pc: LoopPc<T>, selfWaking: bool, waking: set<nat>,
    queued: seq<T>, executed: seq<T>)
  {
    /** Executed tasks, then the rest of the batch, then the queue. */
    function History(): seq<T> {
      executed + (if pc.Running? then pc.rest else []) + functors
    }
  }

  function Start<T>(): Loop<T> {
    Loop([], false, 0, false, Polling, false, {}, [], [])
  }

  datatype Step<T> =
    | ForeignPush(thread: nat, task: T)   // QueueInLoop of another thread, the locked part
    | ForeignQuit(thread: nat)            // quit() of another thread, before its wakeup
    | ForeignWake(thread: nat)            // wakeup() of another thread
    | LoopPush(task: T)                   // QueueInLoop on the loop thread, the locked part
    | LoopWake                            // the rest of it
    | LoopQuit                            // quit() on the loop thread, which needs no wakeup
    | PollReturns(readable: bool)         // epoll_wait; a positive counter may or may not be reported yet
    | ReadEventfd                         // HandleRead
    | EndDispatch
    | Check                               // if(!functors_.empty()) DoCallback(); callable_ = true
    | SwapQueue
    | RunTask
    | EndBatch

  function Wake(counter: nat): nat {
    if counter < EVENTFD_MAX then counter + 1 else counter
  }

  /** A thread that is inside QueueInLoop or quit finishes that first. */
  ghost predicate Enabled<T>(s: Loop<T>, step: Step<T>) {
    match step
    case ForeignPush(thread, _) => thread !in s.waking
    case ForeignQuit(thread) => thread !in s.waking
    case ForeignWake(thread) => thread in s.waking
    case LoopPush(_) => !s.selfWaking
    case LoopWake => s.selfWaking
    // in a callback; start() takes back a quit that comes before it
    case LoopQuit => InCallback(s) && !s.selfWaking
    case PollReturns(readable) => s.pc.Polling? && !s.selfWaking && (readable ==> s.counter > 0)
    case ReadEventfd => s.pc.Dispatching? && s.pc.wakeReady && !s.selfWaking
    case EndDispatch => s.pc.Dispatching? && !s.selfWaking
    case Check => s.pc.Checking? && !s.selfWaking
    case SwapQueue => s.pc.Entered? && !s.selfWaking
    case RunTask => s.pc.Running? && s.pc.rest != [] && !s.selfWaking
    case EndBatch => s.pc.Running? && s.pc.rest == [] && !s.selfWaking
  }

  ghost function Apply<T>(s: Loop<T>, step: Step<T>): Loop<T>
    requires Enabled(s, step)
  {
    match step
    case ForeignPush(thread, task) =>
      s.(functors := s.functors + [task], queued := s.queued + [task], waking := s.waking + {thread})
    case ForeignQuit(thread) => s.(quit := true, waking := s.waking + {thread})
    case ForeignWake(thread) => s.(counter := Wake(s.counter), waking := s.waking - {thread})
    case LoopPush(task) => s.(functors := s.functors + [task], queued := s.queued + [task], selfWaking := true)
    case LoopWake => s.(counter := if s.callable then Wake(s.counter) else s.counter, selfWaking := false)
    case LoopQuit => s.(quit := true)
    case PollReturns(readable) => s.(pc := Dispatching(readable))
    case ReadEventfd => s.(counter := 0, pc := Dispatching(false))
    case EndDispatch => s.(pc := Checking)
    case Check =>
      if s.functors != [] then s.(pc := Entered, callable := true) else s.(pc := NextTurn(s.quit))
    case SwapQueue => s.(pc := Running(s.functors), functors := [])
    case RunTask => s.(pc := Running(s.pc.rest[1..]), executed := s.executed + [s.pc.rest[0]])
    case EndBatch => s.(callable := false, pc := NextTurn(s.quit))
  }

  /** while (!quit_) */
  function NextTurn<T>(quit: bool): LoopPc<T> {
    if quit then Stopped else Polling
  }

  /** Where callbacks run. */
  predicate InCallback<T>(s: Loop<T>) {
    s.pc.Dispatching? || s.pc.Running?
  }

  /** Someone will still raise the counter, or has. */
  ghost predicate WakeupDue<T>(s: Loop<T>) {
    s.counter > 0 || s.waking != {}
  }

  /** The loop is on its way to a swap of the queue that comes before the next poll. */
  predicate BeforeSwap<T>(s: Loop<T>) {
    s.pc.Dispatching? || s.pc.Checking? || s.pc.Entered?
  }

  ghost predicate Inv<T>(s: Loop<T>) {
    (s.callable <==> s.pc.Entered? || s.pc.Running?) && s.History() == s.queued
  }

  /** The queue and the order to quit will be noticed. */
  ghost predicate InSight<T>(s: Loop<T>) {
    && (s.functors != [] ==>
          WakeupDue(s) || BeforeSwap(s) || s.pc.Stopped? || (s.pc.Running? && s.selfWaking))
    && (s.quit && s.pc.Polling? ==> WakeupDue(s))
  }

  /** The loop is at poll with work to do or told to quit, and nothing is going to wake it. */
  ghost predicate Asleep<T>(s: Loop<T>) {
    s.pc.Polling? && (s.functors != [] || s.quit) && s.counter == 0 && s.waking == {}
  }

  /** What a caller on the loop thread can tell before it pushes. */
  ghost predicate PushIsSeen<T>(s: Loop<T>, step: Step<T>) {
    step.LoopPush? ==> !s.pc.Polling? || WakeupDue(s)
  }

  lemma StepKeepsInv<T>(s: Loop<T>, step: Step<T>)
    requires Inv(s) && Enabled(s, step)
    ensures Inv(Apply(s, step))
  {
    match step
    case ForeignPush(_, task) => assert Apply(s, step).History() == s.History() + [task];
    case LoopPush(task) => assert Apply(s, step).History() == s.History() + [task];
    case RunTask => assert s.pc.rest == [s.pc.rest[0]] + s.pc.rest[1..];
    case _ =>
  }

  /** A push at poll with no wakeup due is the one step that puts the loop to sleep over its work. */
  lemma StepKeepsInSight<T>(s: Loop<T>, step: Step<T>)
    requires Inv(s) && InSight(s) && Enabled(s, step)
    ensures PushIsSeen(s, step) ==> InSight(Apply(s, step))
    ensures !PushIsSeen(s, step) ==> Asleep(Apply(s, step))
    ensures InSight(s) ==> !Asleep(s)
  {
    if step.ForeignPush? || step.ForeignQuit? {
      assert step.thread in Apply(s, step).waking;
    }
  }

  ghost predicate Runs<T>(s: Loop<T>, steps: seq<Step<T>>)
    decreases |steps|
  {
    steps == [] || (Enabled(s, steps[0]) && Runs(Apply(s, steps[0]), steps[1..]))
  }

  ghost function After<T>(s: Loop<T>, steps: seq<Step<T>>): Loop<T>
    requires Runs(s, steps)
    decreases |steps|
  {
    if steps == [] then s else After(Apply(s, steps[0]), steps[1..])
  }

  lemma {:induction false} RunKeepsInv<T>(s: Loop<T>, steps: seq<Step<T>>)
    requires Inv(s) && Runs(s, steps)
    ensures Inv(After(s, steps))
    decreases |steps|
  {
    if steps != [] {
      StepKeepsInv(s, steps[0]);
      RunKeepsInv(Apply(s, steps[0]), steps[1..]);
    }
  }

  /** The tasks a run queues, in the order in which the mutex was taken. */
  function Queued<T>(steps: seq<Step<T>>): seq<T>
    decreases |steps|
  {
    if steps == [] then [] else QueuedBy(steps[0]) + Queued(steps[1..])
  }

  function QueuedBy<T>(step: Step<T>): seq<T> {
    if step.ForeignPush? || step.LoopPush? then [step.task] else []
  }

  lemma {:induction false} QueuedByRun<T>(s: Loop<T>, steps: seq<Step<T>>)
    requires Runs(s, steps)
    ensures After(s, steps).queued == s.queued + Queued(steps)
    decreases |steps|
  {
    if steps != [] {
      QueuedByRun(Apply(s, steps[0]), steps[1..]);
      Reassociate(s.queued, QueuedBy(steps[0]), Queued(steps[1..]));
    }
  }

  /** In no state of the run is the loop asleep over its work. */
  ghost predicate NeverAsleep<T>(s: Loop<T>, steps: seq<Step<T>>)
    requires Runs(s, steps)
    decreases |steps|
  {
    !Asleep(s) && (steps != [] ==> NeverAsleep(Apply(s, steps[0]), steps[1..]))
  }

  ghost predicate PushesAreSeen<T>(s: Loop<T>, steps: seq<Step<T>>)
    requires Runs(s, steps)
    decreases |steps|
  {
    steps != [] ==> PushIsSeen(s, steps[0]) && PushesAreSeen(Apply(s, steps[0]), steps[1..])
  }

  lemma {:induction false} AwakeIff<T>(s: Loop<T>, steps: seq<Step<T>>)
    requires Inv(s) && InSight(s) && Runs(s, steps)
    ensures NeverAsleep(s, steps) <==> PushesAreSeen(s, steps)
    decreases |steps|
  {
    if steps != [] {
      var n := Apply(s, steps[0]);
      StepKeepsInv(s, steps[0]);
      StepKeepsInSight(s, steps[0]);
      if PushIsSeen(s, steps[0]) {
        AwakeIff(n, steps[1..]);
      } else {
        assert !NeverAsleep(n, steps[1..]);
      }
    }
  }

  /**
    No lost wakeup, for pushes wherever they come from: a run never leaves the loop at poll with
    tasks queued or told to quit, the eventfd at zero and nobody about to raise it, exactly when
    every push on the loop thread comes when the loop is not at poll or a wakeup is due anyway.
   */
  lemma NoLostWakeupIff<T>(steps: seq<Step<T>>)
    requires Runs(Start(), steps)
    ensures NeverAsleep(Start(), steps) <==> PushesAreSeen(Start(), steps)
  {
    AwakeIff(Start(), steps);
  }

  /** Pushes on the loop thread come from callbacks. */
  ghost predicate PushesInCallbacks<T>(s: Loop<T>, steps: seq<Step<T>>)
    requires Runs(s, steps)
    decreases |steps|
  {
    steps != [] ==> (steps[0].LoopPush? ==> InCallback(s)) && PushesInCallbacks(Apply(s, steps[0]), steps[1..])
  }

  lemma {:induction false} InCallbacksAreSeen<T>(s: Loop<T>, steps: seq<Step<T>>)
    requires Runs(s, steps) && PushesInCallbacks(s, steps)
    ensures PushesAreSeen(s, steps)
    decreases |steps|
  {
    if steps != [] {
      InCallbacksAreSeen(Apply(s, steps[0]), steps[1..]);
    }
  }

  lemma {:induction false} NeverMeansAtTheEnd<T>(s: Loop<T>, steps: seq<Step<T>>)
    requires Runs(s, steps) && NeverAsleep(s, steps)
    ensures !Asleep(After(s, steps))
    decreases |steps|
  {
    if steps != [] {
      NeverMeansAtTheEnd(Apply(s, steps[0]), steps[1..]);
    }
  }

  /**
    So when the loop thread pushes only from callbacks: whenever the loop is about to block although
    tasks are queued or it was told to quit, the eventfd is readable or some thread is about to make it so.
   */
  lemma NoLostWakeup<T>(steps: seq<Step<T>>)
    requires Runs(Start(), steps) && PushesInCallbacks(Start(), steps)
    ensures var s := After(Start(), steps);
            s.pc.Polling? && (s.functors != [] || s.quit) ==> s.counter > 0 || s.waking != {}
  {
    InCallbacksAreSeen(Start(), steps);
    AwakeIff(Start(), steps);
    NeverMeansAtTheEnd(Start(), steps);
  }

  /** A task queued on the loop thread before start() has to wait for the poll to time out. */
  lemma PushBeforeStartGap<T>(task: T)
    ensures var steps := [LoopPush(task), LoopWake];
            && Runs(Start(), steps)
            && After(Start(), steps) == Start<T>().(functors := [task], queued := [task])
            && Asleep(After(Start(), steps))
  {
    var s: Loop<T> := Start();
    var pushed := Apply(s, LoopPush(task));
    assert [LoopPush(task), LoopWake][1..] == [Step<T>.LoopWake];
    assert [Step<T>.LoopWake][1..] == [];
    assert Runs(pushed, [Step<T>.LoopWake]);
    assert After(pushed, [Step<T>.LoopWake]) == Apply(pushed, LoopWake);
  }

  /** Tasks are executed in the order queued, none twice, none left out: the rest is batch and queue. */
  lemma FifoExactlyOnce<T>(steps: seq<Step<T>>)
    requires Runs(Start(), steps)
    ensures var s := After(Start(), steps);
            s.History() == Queued(steps) && s.executed <= Queued(steps)
  {
    RunKeepsInv(Start(), steps);
    QueuedByRun(Start(), steps);
    HistoryIsQueued(After(Start(), steps));
  }

  lemma HistoryIsQueued<T>(s: Loop<T>)
    requires Inv(s)
    ensures s.History() == s.queued && s.executed <= s.queued
  {
  }

  /** How far the tasks `due` have come within the turn. */
  ghost predicate OnTheWay<T>(s: Loop<T>, due: seq<T>) {
    && due <= s.queued
    && (s.pc.Running? ==> due <= s.executed + s.pc.rest)
    && (s.pc.Polling? || s.pc.Stopped? ==> due <= s.executed)
  }

  lemma StepKeepsOnTheWay<T>(s: Loop<T>, step: Step<T>, due: seq<T>)
    requires Inv(s) && Enabled(s, step) && !step.PollReturns? && OnTheWay(s, due)
    ensures OnTheWay(Apply(s, step), due)
  {
  }

  lemma {:induction false} RunKeepsOnTheWay<T>(s: Loop<T>, steps: seq<Step<T>>, due: seq<T>)
    requires Inv(s) && Runs(s, steps) && OnTheWay(s, due)
    requires forall i :: 0 <= i < |steps| ==> !steps[i].PollReturns?
    ensures OnTheWay(After(s, steps), due)
    decreases |steps|
  {
    if steps != [] {
      StepKeepsInv(s, steps[0]);
      StepKeepsOnTheWay(s, steps[0], due);
      RunKeepsOnTheWay(Apply(s, steps[0]), steps[1..], due);
    }
  }

  /**
    Progress: once a poll returns, everything queued by then has been executed when the loop polls
    again or stops, whatever is queued meanwhile.
   */
  lemma TurnRunsAllQueued<T>(s: Loop<T>, readable: bool, steps: seq<Step<T>>)
    requires Inv(s) && Enabled(s, Step<T>.PollReturns(readable))
    requires Runs(Apply(s, Step<T>.PollReturns(readable)), steps)
    requires forall i :: 0 <= i < |steps| ==> !steps[i].PollReturns?
    ensures var t := After(Apply(s, Step<T>.PollReturns(readable)), steps);
            t.pc.Polling? || t.pc.Stopped? ==> s.queued <= t.executed
  {
    StepKeepsInv(s, Step<T>.PollReturns(readable));
    RunKeepsOnTheWay(Apply(s, Step<T>.PollReturns(readable)), steps, s.queued);
  }

  // ---------------------------------------------------------------------------------------------
  // The eventfd, and the order to quit
  // ---------------------------------------------------------------------------------------------

  /** Writes to the eventfd that a step makes. */
  function Writes<T>(s: Loop<T>, step: Step<T>): nat {
    if step.ForeignWake? || (step.LoopWake? && s.callable) then 1 else 0
  }

  /** Writes to the eventfd since it was last read, `before` of them from before the run. */
  ghost function Unread<T>(s: Loop<T>, steps: seq<Step<T>>, before: nat): nat
    requires Runs(s, steps)
    decreases |steps|
  {
    if steps == [] then before
    else Unread(Apply(s, steps[0]), steps[1..], if steps[0].ReadEventfd? then 0 else before + Writes(s, steps[0]))
  }

  function AtMost(n: nat, bound: nat): nat {
    if n < bound then n else bound
  }

  /**
    Over every run the eventfd holds exactly the writes made since HandleRead last read it, as far as
    they fit. So it is readable exactly when there was one, and the loop is not woken for nothing.
   */
  lemma {:induction false} EventfdCounts<T>(s: Loop<T>, steps: seq<Step<T>>, before: nat)
    requires Runs(s, steps) && s.counter == AtMost(before, 0xFFFF_FFFF_FFFF_FFFE)
    ensures After(s, steps).counter == AtMost(Unread(s, steps, before), 0xFFFF_FFFF_FFFF_FFFE)
    ensures After(s, steps).counter > 0 <==> Unread(s, steps, before) > 0
    decreases |steps|
  {
    if steps != [] {
      EventfdCounts(Apply(s, steps[0]), steps[1..], if steps[0].ReadEventfd? then 0 else before + Writes(s, steps[0]));
    }
  }

  /** Nobody pushes, quits or wakes. */
  ghost predicate Still<T>(steps: seq<Step<T>>) {
    forall i :: 0 <= i < |steps| ==>
      !steps[i].ForeignPush? && !steps[i].ForeignQuit? && !steps[i].ForeignWake? && !steps[i].LoopPush? && !steps[i].LoopWake?
  }

  /** After the read, with nothing new, the eventfd stays at zero: the next poll blocks. */
  lemma QuietAfterRead<T>(s: Loop<T>, steps: seq<Step<T>>)
    requires Enabled(s, Step<T>.ReadEventfd) && Runs(Apply(s, Step<T>.ReadEventfd), steps) && Still(steps)
    ensures After(Apply(s, Step<T>.ReadEventfd), steps).counter == 0
  {
    StaysAtZero(Apply(s, Step<T>.ReadEventfd), steps);
  }

  lemma {:induction false} StaysAtZero<T>(s: Loop<T>, steps: seq<Step<T>>)
    requires s.counter == 0 && Runs(s, steps) && Still(steps)
    ensures After(s, steps).counter == 0
    decreases |steps|
  {
    if steps != [] {
      StaysAtZero(Apply(s, steps[0]), steps[1..]);
    }
  }

  /** A turn with nothing queued ends where it began, unless the loop was told to quit; otherwise it enters the batch. */
  lemma TurnEnds<T>(s: Loop<T>, readable: bool)
    requires Enabled(s, Step<T>.PollReturns(readable))
    ensures var steps := [Step<T>.PollReturns(readable), EndDispatch, Check];
            && Runs(s, steps)
            && After(s, steps) == if s.functors == [] then s.(pc := if s.quit then Stopped else Polling) else s.(pc := Entered, callable := true)
  {
    var steps := [Step<T>.PollReturns(readable), EndDispatch, Check];
    assert steps[1..] == [Step<T>.EndDispatch, Check] && steps[1..][1..] == [Step<T>.Check] && steps[1..][1..][1..] == [];
    var d := Apply(s, steps[0]);
    var e := Apply(d, Step<T>.EndDispatch);
    assert Runs(e, [Step<T>.Check]) && After(e, [Step<T>.Check]) == Apply(e, Step<T>.Check);
    assert Runs(d, [Step<T>.EndDispatch, Check]);
  }

  /** How often the run polls. */
  function Polls<T>(steps: seq<Step<T>>): nat
    decreases |steps|
  {
    if steps == [] then 0 else (if steps[0].PollReturns? then 1 else 0) + Polls(steps[1..])
  }

  /** The loop is told to quit exactly when somebody has called quit(). */
  lemma {:induction false} QuitIff<T>(s: Loop<T>, steps: seq<Step<T>>)
    requires Runs(s, steps)
    ensures After(s, steps).quit <==> s.quit || exists i :: 0 <= i < |steps| && (steps[i].ForeignQuit? || steps[i].LoopQuit?)
    decreases |steps|
  {
    if steps != [] {
      QuitIff(Apply(s, steps[0]), steps[1..]);
      assert forall i :: 0 <= i < |steps[1..]| ==> steps[1..][i] == steps[i + 1];
      assert forall i :: 0 < i < |steps| ==> steps[i] == steps[1..][i - 1];
    }
  }

  /** Then it polls at most once more, if it was at poll, and not at all if it was on its way. */
  lemma {:induction false} QuitEndsIt<T>(s: Loop<T>, steps: seq<Step<T>>)
    requires s.quit && Runs(s, steps)
    ensures Polls(steps) <= (if s.pc.Polling? then 1 else 0)
    decreases |steps|
  {
    if steps != [] {
      QuitEndsIt(Apply(s, steps[0]), steps[1..]);
    }
  }

  // ---------------------------------------------------------------------------------------------
  // The code
  // ---------------------------------------------------------------------------------------------

  /** A callback, with the callbacks it queues on its own loop when it runs, and whether it then calls quit(). */
  datatype Callback = Callback(id: nat, queues: seq<Callback>, quits: bool)

  /** What another thread queues. */
  datatype Foreign = Foreign(thread: nat, callback: Callback)

  /** A ready channel: that of the eventfd, or another one with its handler. */
  datatype Ready = Eventfd | Handled(handler: Callback)

  /**
    What one turn of the loop meets: `before[i]` is what other threads queue before channel i is
    handled, `meanwhile[i]` what they queue before callback i runs.
   */
  datatype Turn = Turn(ready: seq<Ready>, before: seq<seq<Foreign>>, meanwhile: seq<seq<Foreign>>)

  function At(foreign: seq<seq<Foreign>>, i: nat): seq<Foreign> {
    if i < |foreign| then foreign[i] else []
  }

  lemma FreeAt(foreign: seq<seq<Foreign>>, i: nat, waking: set<nat>)
    requires AllFree(foreign, waking)
    ensures Free(At(foreign, i), waking)
  {
  }

  /** A thread that is between its push and its wakeup does not push. */
  ghost predicate Free(foreign: seq<Foreign>, waking: set<nat>) {
    forall f :: f in foreign ==> f.thread !in waking
  }

  ghost predicate AllFree(foreign: seq<seq<Foreign>>, waking: set<nat>) {
    forall i :: 0 <= i < |foreign| ==> Free(foreign[i], waking)
  }

  class EventLoop {
    var functors: seq<Callback>
    var callable: bool
    var counter: nat
    var quit: bool
    ghost var pc: LoopPc<Callback>
    ghost var selfWaking: bool
    ghost var waking: set<nat>
    ghost var queued: seq<Callback>
    ghost var executed: seq<Callback>

    ghost function State(): Loop<Callback>
      reads this
    {
      Loop(functors, callable, counter, quit, pc, selfWaking, waking, queued, executed)
    }

    /** The fields are those of a state the micro-steps can lead to. */
    ghost predicate Valid()
      reads this
    {
      Inv(State())
    }

    constructor ()
      ensures Valid() && State() == Start()
    {
      functors, callable, counter, quit := [], false, 0, false;
      pc, selfWaking, waking, queued, executed := Polling, false, {}, [], [];
    }

    method Wakeup()
      modifies this`counter
      ensures counter == Wake(old(counter)) && counter > 0
    {
      if counter < EVENTFD_MAX {
        counter := counter + 1;
      }
    }

    /** quit() on the loop thread. */
    method Quit()
      requires Valid() && Enabled(State(), LoopQuit)
      modifies this`quit
      ensures Valid() && State() == Apply(old(State()), LoopQuit)
      ensures old(InSight(State())) ==> InSight(State())
    {
      quit := true;
    }

    /** On the loop thread: the push and, when callable_ is set, the wakeup. */
    method QueueInLoop(callback: Callback)
      requires Valid() && Enabled(State(), LoopPush(callback))
      modifies this
      ensures Valid() && State() == Apply(Apply(old(State()), LoopPush(callback)), LoopWake)
      ensures old(InSight(State()) && PushIsSeen(State(), LoopPush(callback))) ==> InSight(State())
    {
      StepKeepsInv(State(), LoopPush(callback));
      functors, queued, selfWaking := functors + [callback], queued + [callback], true;
      StepKeepsInv(State(), LoopWake);
      if callable {
        Wakeup();
      }
      selfWaking := false;
    }

    /** On another thread: the push under the mutex. */
    method PushFromThread(thread: nat, callback: Callback)
      requires Valid() && Enabled(State(), ForeignPush(thread, callback))
      modifies this
      ensures Valid() && State() == Apply(old(State()), ForeignPush(thread, callback))
      ensures old(InSight(State())) ==> InSight(State())
    {
      StepKeepsInv(State(), ForeignPush(thread, callback));
      functors, queued, waking := functors + [callback], queued + [callback], waking + {thread};
    }

    /** On another thread: quit() before its wakeup. */
    method QuitFromThread(thread: nat)
      requires Valid() && Enabled(State(), Step<Callback>.ForeignQuit(thread))
      modifies this
      ensures Valid() && State() == Apply(old(State()), Step<Callback>.ForeignQuit(thread))
      ensures old(InSight(State())) ==> InSight(State())
    {
      quit, waking := true, waking + {thread};
    }

    /** The wakeup that comes after either. */
    method WakeFromThread(thread: nat)
      requires Valid() && Enabled(State(), Step<Callback>.ForeignWake(thread))
      modifies this
      ensures Valid() && State() == Apply(old(State()), Step<Callback>.ForeignWake(thread))
      ensures old(InSight(State())) ==> InSight(State())
    {
      Wakeup();
      waking := waking - {thread};
    }

    /** QueueInLoop on another thread, nothing in between. */
    method QueueFromThread(thread: nat, callback: Callback)
      requires Valid() && Enabled(State(), ForeignPush(thread, callback))
      modifies this
      ensures Valid()
      ensures State() == Apply(Apply(old(State()), ForeignPush(thread, callback)), ForeignWake(thread))
      ensures functors == old(functors) + [callback] && waking == old(waking) && counter > 0
      ensures old(InSight(State())) ==> InSight(State())
    {
      PushFromThread(thread, callback);
      WakeFromThread(thread);
    }

    method HandleRead()
      requires Valid() && Enabled(State(), ReadEventfd)
      modifies this
      ensures Valid() && State() == Apply(old(State()), ReadEventfd) && counter == 0
      ensures old(InSight(State())) ==> InSight(State())
    {
      StepKeepsInv(State(), ReadEventfd);
      counter := 0;
      pc := Dispatching(false);
    }

    /** epoll_wait returns; the eventfd may be reported when it is readable. */
    method PollReturns(readable: bool)
      requires Valid() && Enabled(State(), Step<Callback>.PollReturns(readable))
      modifies this`pc
      ensures Valid() && InSight(State()) && State() == Apply(old(State()), Step<Callback>.PollReturns(readable))
    {
      pc := Dispatching(readable);
    }

    /** The loop over the ready channels is done. */
    method EndDispatch()
      requires Valid() && Enabled(State(), Step<Callback>.EndDispatch)
      modifies this`pc
      ensures Valid() && InSight(State()) && State() == Apply(old(State()), Step<Callback>.EndDispatch)
    {
      pc := Checking;
    }

    /**
      start(), for at most as many turns as are given. Whatever was queued before it, also on the loop
      thread, has been executed after the first turn, and whatever is queued after the last one has a wakeup.
     */
    method RunLoop(turns: seq<Turn>) returns (done: nat)
      requires Valid() && pc == Polling && !selfWaking
      requires forall i :: 0 <= i < |turns| ==> TurnFree(turns[i], waking)
      modifies this
      ensures Valid() && !selfWaking && waking == old(waking) && done <= |turns| && pc == NextTurn(quit)
      ensures (quit || done == |turns|) && (done == 0 ==> turns == [])
      ensures done > 0 ==> InSight(State()) && old(queued) <= executed <= queued
      ensures done > 0 && functors != [] ==> counter > 0 || waking != {}
    {
      quit := false;
      done := 0;
      while !quit && done < |turns|
        invariant Valid() && !selfWaking && waking == old(waking) && done <= |turns| && pc == NextTurn(quit)
        invariant done == 0 ==> !quit && queued == old(queued)
        invariant done > 0 ==> InSight(State()) && old(queued) <= executed <= queued
        invariant done > 0 && functors != [] ==> counter > 0 || waking != {}
      {
        OneMoreTurn(turns[done]);
        done := done + 1;
      }
    }

    method OneMoreTurn(turn: Turn)
      requires Valid() && pc == Polling && !selfWaking && TurnFree(turn, waking)
      modifies this
      ensures Valid() && InSight(State()) && !selfWaking && waking == old(waking) && pc == NextTurn(quit)
      ensures old(queued) <= executed <= queued && (functors != [] ==> counter > 0 || waking != {})
    {
      AtPoll(State());
      OneTurn(turn);
      Reassociate(old(executed), old(functors), Dispatched(turn.ready, turn.before, |turn.ready|));
      AtPoll(State());
    }

    static lemma AtPoll(s: Loop<Callback>)
      requires Inv(s) && !s.pc.Running?
      ensures s.queued == s.executed + s.functors
    {
      assert s.executed + [] == s.executed;
    }

    static ghost predicate TurnFree(turn: Turn, waking: set<nat>) {
      AllFree(turn.before, waking) && AllFree(turn.meanwhile, waking)
    }

    /**
      One turn: poll, handle what is ready, run what is queued. Exactly the callbacks queued when
      everything ready has been handled run, in order; those queued meanwhile wait for the next turn.
     */
    method OneTurn(turn: Turn)
      requires Valid() && pc == Polling && !selfWaking && TurnFree(turn, waking)
      modifies this
      ensures Valid() && InSight(State()) && !selfWaking && waking == old(waking) && pc == NextTurn(quit)
      ensures var batch := old(functors) + Dispatched(turn.ready, turn.before, |turn.ready|);
              && executed == old(executed) + batch
              && functors == Arrivals(batch, turn.meanwhile, |batch|)
              && (quit <==> old(quit) || HandlerQuits(turn.ready, |turn.ready|) || Quits(batch, |batch|))
      ensures functors != [] ==> counter > 0 || waking != {}
      ensures old(counter) > 0 && Eventfd in turn.ready && Alone(turn.before) && executed == old(executed) ==> counter == 0
    {
      PollAndDispatch(turn.ready, turn.before);
      if functors != [] {
        DoCallback(turn.meanwhile);
      } else {
        pc := NextTurn(quit);
      }
    }

    /** The poll, which may report the eventfd only when it is readable, and the handling of what it reports. */
    method PollAndDispatch(ready: seq<Ready>, before: seq<seq<Foreign>>)
      requires Valid() && pc == Polling && !selfWaking && AllFree(before, waking)
      modifies this
      ensures Valid() && InSight(State()) && pc == Checking && !selfWaking && waking == old(waking)
      ensures executed == old(executed) && functors == old(functors) + Dispatched(ready, before, |ready|)
      ensures quit <==> old(quit) || HandlerQuits(ready, |ready|)
      ensures old(counter) > 0 && Eventfd in ready && Alone(before) ==> counter == 0
    {
      var readable := counter > 0 && Eventfd in ready;
      PollReturns(readable);
      Dispatch(ready, before, readable);
      EndDispatch();
    }

    /** The loop over the ready channels. */
    method Dispatch(ready: seq<Ready>, before: seq<seq<Foreign>>, readable: bool)
      requires Valid() && InSight(State()) && pc == Dispatching(readable) && !selfWaking && AllFree(before, waking)
      modifies this
      ensures Valid() && InSight(State()) && pc == Dispatching(readable && Eventfd !in ready) && !selfWaking && waking == old(waking)
      ensures executed == old(executed) && functors == old(functors) + Dispatched(ready, before, |ready|)
      ensures quit <==> old(quit) || HandlerQuits(ready, |ready|)
      ensures readable && Eventfd in ready && Alone(before) ==> counter == 0
    {
      var unread := readable;
      for i := 0 to |ready|
        invariant unread == (readable && Eventfd !in ready[..i])
        invariant Alone(before) && readable && !unread ==> counter == 0
        invariant Valid() && InSight(State()) && pc == Dispatching(unread) && !selfWaking && waking == old(waking)
        invariant executed == old(executed) && functors == old(functors) + Dispatched(ready, before, i)
        invariant quit <==> old(quit) || HandlerQuits(ready, i)
      {
        DispatchedNext(old(functors), ready, before, i);
        FreeAt(before, i, waking);
        AloneAt(before, i);
        PrefixHas(ready, i);
        unread := HandleEvent(ready[i], At(before, i), unread);
      }
    }

    static lemma DispatchedNext(front: seq<Callback>, ready: seq<Ready>, before: seq<seq<Foreign>>, i: nat)
      requires i < |ready|
      ensures front + Dispatched(ready, before, i + 1) == front + Dispatched(ready, before, i) + Others(before, i) + OwnQueues(ready[i])
    {
    }

    static lemma PrefixHas(ready: seq<Ready>, i: nat)
      requires i < |ready|
      ensures Eventfd in ready[..i + 1] <==> Eventfd in ready[..i] || ready[i] == Eventfd
    {
      assert ready[..i + 1] == ready[..i] + [ready[i]];
    }

    static lemma AloneAt(foreign: seq<seq<Foreign>>, i: nat)
      ensures Alone(foreign) ==> At(foreign, i) == []
    {
    }

    /** No other thread queues anything. */
    static ghost predicate Alone(foreign: seq<seq<Foreign>>) {
      forall i :: 0 <= i < |foreign| ==> foreign[i] == []
    }

    /** One ready channel, after what other threads queue before it. */
    method HandleEvent(r: Ready, others: seq<Foreign>, unread: bool) returns (stillUnread: bool)
      requires Valid() && InSight(State()) && pc == Dispatching(unread) && !selfWaking && Free(others, waking)
      modifies this
      ensures Valid() && InSight(State()) && pc == Dispatching(stillUnread) && !selfWaking && waking == old(waking)
      ensures executed == old(executed) && functors == old(functors) + Callbacks(others, |others|) + OwnQueues(r)
      ensures quit <==> old(quit) || (r.Handled? && r.handler.quits)
      ensures stillUnread <==> unread && r.Handled?
      ensures unread && r.Eventfd? ==> counter == 0
      ensures others == [] && (r.Handled? || !unread) ==> counter == old(counter)
    {
      stillUnread := unread;
      QueueForeign(others);
      match r
      case Eventfd =>
        if unread {
          HandleRead();
          stillUnread := false;
        }
      case Handled(handler) => Perform(handler);
    }

    /** What the first n ready channels and the other threads meanwhile put into the queue. */
    static ghost function Dispatched(ready: seq<Ready>, before: seq<seq<Foreign>>, n: nat): seq<Callback>
      requires n <= |ready|
    {
      if n == 0 then [] else Dispatched(ready, before, n - 1) + Others(before, n - 1) + OwnQueues(ready[n - 1])
    }

    static ghost function OwnQueues(r: Ready): (q: seq<Callback>)
      ensures r.Handled? ==> q == r.handler.queues
      ensures r.Eventfd? ==> q == []
    {
      if r.Handled? then r.handler.queues else []
    }

    static ghost predicate HandlerQuits(ready: seq<Ready>, n: nat)
      requires n <= |ready|
    {
      n > 0 && (HandlerQuits(ready, n - 1) || (ready[n - 1].Handled? && ready[n - 1].handler.quits))
    }

    static ghost predicate Quits(batch: seq<Callback>, n: nat)
      requires n <= |batch|
    {
      n > 0 && (Quits(batch, n - 1) || batch[n - 1].quits)
    }

    /**
      DoCallback. `meanwhile[i]` is what other threads queue before callback i runs. Exactly the
      callbacks found in the queue run, in order; those they queue, and those of other threads,
      wait for the next turn in the order queued, with a wakeup due.
     */
    method DoCallback(meanwhile: seq<seq<Foreign>>)
      requires Valid() && pc == Checking && !selfWaking && functors != [] && AllFree(meanwhile, waking)
      modifies this
      ensures Valid() && InSight(State()) && !selfWaking && waking == old(waking)
      ensures executed == old(executed) + old(functors)
      ensures functors == Arrivals(old(functors), meanwhile, |old(functors)|)
      ensures quit <==> old(quit) || Quits(old(functors), |old(functors)|)
      ensures !callable && pc == NextTurn(quit)
      ensures functors != [] ==> counter > 0 || waking != {}
    {
      var fun := TakeBatch();
      for i := 0 to |fun|
        invariant Valid() && InSight(State()) && waking == old(waking) && !selfWaking
        invariant pc == Running(fun[i..]) && executed == old(executed) + fun[..i]
        invariant functors == Arrivals(fun, meanwhile, i) && (quit <==> old(quit) || Quits(fun, i))
      {
        OneFurther(old(executed), fun, i);
        FreeAt(meanwhile, i, waking);
        RunNext(fun[i], At(meanwhile, i));
      }
      EndBatch();
    }

    /** One callback of the batch, after what other threads queue before it. */
    method RunNext(callback: Callback, others: seq<Foreign>)
      requires Valid() && InSight(State()) && pc.Running? && pc.rest != [] && pc.rest[0] == callback && !selfWaking
      requires Free(others, waking)
      modifies this
      ensures Valid() && InSight(State()) && waking == old(waking) && !selfWaking && pc == Running(old(pc).rest[1..])
      ensures executed == old(executed) + [callback]
      ensures functors == old(functors) + Callbacks(others, |others|) + callback.queues
      ensures quit <==> old(quit) || callback.quits
    {
      QueueForeign(others);
      RunCallback(callback);
    }

    static lemma OneFurther(front: seq<Callback>, batch: seq<Callback>, i: nat)
      requires i < |batch|
      ensures batch[i..] != [] && batch[i..][0] == batch[i] && batch[i..][1..] == batch[i + 1..]
      ensures front + batch[..i] + [batch[i]] == front + batch[..i + 1]
    {
    }

    /** Setting callable_, and the swap under the mutex. */
    method TakeBatch() returns (fun: seq<Callback>)
      requires Valid() && pc == Checking && !selfWaking && functors != []
      modifies this
      ensures Valid() && InSight(State()) && fun == old(functors) && functors == [] && pc == Running(fun) && callable
      ensures waking == old(waking) && !selfWaking && executed == old(executed) && quit == old(quit)
    {
      StepKeepsInv(State(), Step<Callback>.Check);
      callable, pc := true, Entered;
      StepKeepsInv(State(), Step<Callback>.SwapQueue);
      fun := functors;
      functors, pc := [], Running(fun);
    }

    method EndBatch()
      requires Valid() && InSight(State()) && pc == Running([]) && !selfWaking
      modifies this`callable, this`pc
      ensures Valid() && InSight(State()) && !callable && pc == NextTurn(quit)
      ensures functors != [] ==> counter > 0 || waking != {}
    {
      StepKeepsInv(State(), Step<Callback>.EndBatch);
      callable, pc := false, NextTurn(quit);
    }

    /** What the first n callbacks of the batch and the other threads meanwhile leave in the queue. */
    static ghost function Arrivals(batch: seq<Callback>, meanwhile: seq<seq<Foreign>>, n: nat): seq<Callback>
      requires n <= |batch|
    {
      if n == 0 then [] else Arrivals(batch, meanwhile, n - 1) + Others(meanwhile, n - 1) + batch[n - 1].queues
    }

    static ghost function Others(foreign: seq<seq<Foreign>>, i: nat): seq<Callback> {
      Callbacks(At(foreign, i), |At(foreign, i)|)
    }

    static ghost function Callbacks(foreign: seq<Foreign>, n: nat): (q: seq<Callback>)
      requires n <= |foreign|
      ensures |q| == n && forall i :: 0 <= i < n ==> q[i] == foreign[i].callback
    {
      if n == 0 then [] else Callbacks(foreign, n - 1) + [foreign[n - 1].callback]
    }

    method QueueForeign(foreign: seq<Foreign>)
      requires Valid() && InSight(State()) && Free(foreign, waking)
      modifies this
      ensures Valid() && InSight(State()) && waking == old(waking) && pc == old(pc) && selfWaking == old(selfWaking)
      ensures functors == old(functors) + Callbacks(foreign, |foreign|) && executed == old(executed)
      ensures callable == old(callable) && quit == old(quit) && (foreign == [] ==> counter == old(counter))
    {
      for i := 0 to |foreign|
        invariant Valid() && InSight(State()) && waking == old(waking) && pc == old(pc) && selfWaking == old(selfWaking)
        invariant functors == old(functors) + Callbacks(foreign, i) && executed == old(executed)
        invariant callable == old(callable) && quit == old(quit) && (foreign == [] ==> counter == old(counter))
      {
        assert foreign[i] in foreign;
        QueueFromThread(foreign[i].thread, foreign[i].callback);
      }
    }

    /** callback(): it counts as executed, then does what it does. */
    method RunCallback(callback: Callback)
      requires Valid() && InSight(State()) && pc.Running? && pc.rest != [] && pc.rest[0] == callback && !selfWaking
      modifies this
      ensures Valid() && InSight(State()) && waking == old(waking) && !selfWaking && pc == Running(old(pc).rest[1..])
      ensures executed == old(executed) + [callback] && functors == old(functors) + callback.queues
      ensures quit <==> old(quit) || callback.quits
    {
      StepKeepsInv(State(), Step<Callback>.RunTask);
      executed, pc := executed + [callback], Running(pc.rest[1..]);
      Perform(callback);
    }

    /** What a callback or the handler of a channel does to its loop. */
    method Perform(callback: Callback)
      requires Valid() && InSight(State()) && InCallback(State()) && !selfWaking
      modifies this
      ensures Valid() && InSight(State()) && waking == old(waking) && !selfWaking && pc == old(pc)
      ensures executed == old(executed) && functors == old(functors) + callback.queues
      ensures (quit <==> old(quit) || callback.quits) && (!old(callable) ==> counter == old(counter))
    {
      for i := 0 to |callback.queues|
        invariant Valid() && InSight(State()) && waking == old(waking) && !selfWaking && pc == old(pc)
        invariant executed == old(executed) && functors == old(functors) + callback.queues[..i] && quit == old(quit)
        invariant callable == old(callable) && (!callable ==> counter == old(counter))
      {
        QueueInLoop(callback.queues[i]);
      }
      if callback.quits {
        Quit();
      }
    }
  }
}
