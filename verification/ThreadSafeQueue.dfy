/**
  The queue with one lock at each end (include/base/ThreadSafeQueue.ipp): a linked list that ends
  in a dummy node. push fills the dummy and links a new one behind it under the tail lock; pop
  takes the first node under the head lock, and holds the tail lock only to read `tail_`.

  `Queue` is the heap, the two pointers, the locks and every thread's place in push or pop; a step
  is one access to shared memory. `chain` is the list of nodes from head to tail and is there for
  the proof only, as are `pushed` and `popped`, the two ends of the abstract FIFO's history.
 */
module ThreadSafeQueues {
  import opened Wrappers

  datatype Node<T> = Node(data: Option<T>, next: Option<nat>)

  /** What a thread does next. */
  datatype Pc<T> =
    | Idle
    | LockTail(value: T, node: nat)        // data and node allocated
    | WriteData(value: T, node: nat)       // tail_->data = NewData
    | WriteNext(value: T, node: nat)       // tail_->next = std::move(p)
    | MoveTail(value: T, node: nat)        // tail_ = NewTail
    | UnlockTail
    | LockTailForRead                      // head lock held, about to call tail()
    | ReadTail                             // both held
    | Compare(seen: nat, wasEmpty: bool)   // head_.get() == tail()
    | TakeHead                             // OldHead = std::move(head_)
    | MoveHead(first: nat)                   // head_ = std::move(OldHead->next)
    | UnlockHead(first: nat, value: T)
    | Return(first: nat, value: T)           // OldHead->data, then the node is freed
    | UnlockEmpty

  datatype Queue<T> = Queue(
    nodes: map<nat, Node<T>>, head: Option<nat>, tail: nat,
    headLock: Option<nat>, tailLock: Option<nat>, pcs: map<nat, Pc<T>>,
    chain: seq<nat>, owner: map<nat, Option<nat>>, pushed: seq<T>, popped: seq<T>)
  {
    function At(thread: nat): Pc<T> {
      if thread in pcs then pcs[thread] else Idle
    }

    function Goes(thread: nat, pc: Pc<T>): Queue<T> {
      this.(pcs := pcs[thread := pc])
    }
  }

  function Start<T>(): Queue<T> {
    Queue(map[0 := Node(None, None)], Some(0), 0, None, None, map[], [0], map[0 := None], [], [])
  }

  datatype Step<T> =
    | BeginPush(value: T, node: nat)
    | BeginPop
    | Proceed
    | WaitAgain   // the condition is false: release the head lock and wait

  ghost predicate Enabled<T>(s: Queue<T>, thread: nat, step: Step<T>) {
    match step
    case BeginPush(_, node) => s.At(thread).Idle? && node !in s.nodes
    case BeginPop => s.At(thread).Idle? && s.headLock.None?
    case Proceed =>
      var pc := s.At(thread);
      && !pc.Idle?
      && (pc.LockTail? || pc.LockTailForRead? ==> s.tailLock.None?)
    case WaitAgain => s.At(thread).Compare? && s.head == Some(s.At(thread).seen)
  }

  /** Pointers that are followed are there, and data that is taken is there. */
  ghost predicate Safe<T>(s: Queue<T>, thread: nat) {
    match s.At(thread)
    case WriteData(_, _) => s.tail in s.nodes
    case WriteNext(_, _) => s.tail in s.nodes
    case TakeHead => s.head.Some? && s.head.value in s.nodes
    case MoveHead(first) => first in s.nodes && s.nodes[first].next.Some? && s.nodes[first].data.Some? && s.chain != []
    // a node takes what it still links to with it
    case Return(first, _) => first in s.nodes && s.nodes[first].data.Some? && s.nodes[first].next.None?
    case _ => true
  }

  ghost function Apply<T>(s: Queue<T>, thread: nat, step: Step<T>): Queue<T>
    requires Enabled(s, thread, step) && Safe(s, thread)
  {
    match step
    case BeginPush(value, node) =>
      s.(nodes := s.nodes[node := Node(None, None)], owner := s.owner[node := Some(thread)]).Goes(thread, LockTail(value, node))
    case BeginPop => s.(headLock := Some(thread)).Goes(thread, LockTailForRead)
    case WaitAgain => s.(headLock := None).Goes(thread, Idle)
    case Proceed =>
      match s.At(thread)
      case LockTail(value, node) => s.(tailLock := Some(thread)).Goes(thread, WriteData(value, node))
      case WriteData(value, node) =>
        s.(nodes := s.nodes[s.tail := s.nodes[s.tail].(data := Some(value))]).Goes(thread, WriteNext(value, node))
      case WriteNext(value, node) =>
        s.(nodes := s.nodes[s.tail := s.nodes[s.tail].(next := Some(node))]).Goes(thread, MoveTail(value, node))
      case MoveTail(value, node) =>
        s.(tail := node, chain := s.chain + [node], owner := s.owner[node := None], pushed := s.pushed + [value]).Goes(thread, UnlockTail)
      case UnlockTail => s.(tailLock := None).Goes(thread, Idle)
      case LockTailForRead => s.(tailLock := Some(thread)).Goes(thread, ReadTail)
      case ReadTail => s.(tailLock := None).Goes(thread, Compare(s.tail, |s.chain| == 1))
      case Compare(seen, _) => s.Goes(thread, if s.head == Some(seen) then UnlockEmpty else TakeHead)
      case TakeHead => s.(head := None).Goes(thread, MoveHead(s.head.value))
      case MoveHead(first) =>
        s.(head := s.nodes[first].next, nodes := s.nodes[first := s.nodes[first].(next := None)],
           chain := s.chain[1..], owner := s.owner[first := Some(thread)],
           popped := s.popped + [s.nodes[first].data.value]).Goes(thread, UnlockHead(first, s.nodes[first].data.value))
      case UnlockHead(first, value) => s.(headLock := None).Goes(thread, Return(first, value))
      case Return(first, _) => s.(nodes := s.nodes - {first}, owner := s.owner - {first}).Goes(thread, Idle)
      case UnlockEmpty => s.(headLock := None).Goes(thread, Idle)
      case Idle => s
  }

  predicate HoldsHead<T>(pc: Pc<T>) {
    pc.LockTailForRead? || pc.ReadTail? || pc.Compare? || pc.TakeHead? || pc.MoveHead? || pc.UnlockHead? || pc.UnlockEmpty?
  }

  predicate HoldsTail<T>(pc: Pc<T>) {
    pc.WriteData? || pc.WriteNext? || pc.MoveTail? || pc.UnlockTail? || pc.ReadTail?
  }

  /** The lock variables say who is where. */
  ghost predicate LocksOk<T>(s: Queue<T>) {
    && (forall t: nat :: HoldsHead(s.At(t)) <==> s.headLock == Some(t))
    && (forall t: nat :: HoldsTail(s.At(t)) <==> s.tailLock == Some(t))
  }

  /** From head to tail: linked, filled before the tail, ended by the dummy. */
  ghost predicate ChainOk<T>(s: Queue<T>) {
    && s.chain != [] && s.tail == s.chain[|s.chain| - 1]
    && s.owner.Keys == s.nodes.Keys
    && (forall i, j :: 0 <= i < j < |s.chain| ==> s.chain[i] != s.chain[j])
    && (forall i :: 0 <= i < |s.chain| ==> s.chain[i] in s.owner && s.owner[s.chain[i]] == None)
    && (forall i :: 0 <= i < |s.chain| - 1 ==>
          s.nodes[s.chain[i]].data.Some? && s.nodes[s.chain[i]].next == Some(s.chain[i + 1]))
  }

  ghost predicate TailOk<T>(s: Queue<T>)
    requires ChainOk(s)
  {
    var last := s.nodes[s.tail];
    if s.tailLock.None? then last == Node(None, None)
    else match s.At(s.tailLock.value)
      case WriteNext(value, _) => last == Node(Some(value), None)
      case MoveTail(value, node) => last == Node(Some(value), Some(node))
      case _ => last == Node(None, None)
  }

  ghost predicate HeadOk<T>(s: Queue<T>)
    requires ChainOk(s)
  {
    if s.headLock.Some? && s.At(s.headLock.value).MoveHead? then s.head.None? else s.head == Some(s.chain[0])
  }

  /** What a thread knows of the nodes it has in hand. */
  ghost predicate ThreadOk<T>(s: Queue<T>, t: nat)
    requires ChainOk(s)
  {
    match s.At(t)
    case LockTail(_, node) => Private(s, t, node) && s.nodes[node] == Node(None, None)
    case WriteData(_, node) => Private(s, t, node) && s.nodes[node] == Node(None, None)
    case WriteNext(_, node) => Private(s, t, node) && s.nodes[node] == Node(None, None)
    case MoveTail(_, node) => Private(s, t, node) && s.nodes[node] == Node(None, None)
    case Compare(seen, wasEmpty) => seen in s.chain && (wasEmpty <==> seen == s.chain[0])
    case TakeHead => |s.chain| >= 2
    case MoveHead(first) => |s.chain| >= 2 && first == s.chain[0]
    case UnlockHead(first, value) => Private(s, t, first) && s.nodes[first] == Node(Some(value), None)
    case Return(first, value) => Private(s, t, first) && s.nodes[first] == Node(Some(value), None)
    case _ => true
  }

  ghost predicate Private<T>(s: Queue<T>, t: nat, node: nat) {
    node in s.nodes && node in s.owner && s.owner[node] == Some(t)
  }

  /** The queue as clients see it: the data from head to tail. */
  ghost function Contents<T>(s: Queue<T>): (c: seq<T>)
    requires ChainOk(s)
    ensures |c| == |s.chain| - 1 && forall i :: 0 <= i < |c| ==> c[i] == s.nodes[s.chain[i]].data.value
  {
    seq(|s.chain| - 1, i requires 0 <= i < |s.chain| - 1 => s.nodes[s.chain[i]].data.value)
  }

  ghost predicate Inv<T>(s: Queue<T>) {
    && LocksOk(s) && ChainOk(s) && TailOk(s) && HeadOk(s)
    && (forall t: nat :: ThreadOk(s, t))
    && s.pushed == s.popped + Contents(s)
  }

  lemma StepIsSafe<T>(s: Queue<T>, t: nat, step: Step<T>)
    requires Inv(s) && Enabled(s, t, step)
    ensures Safe(s, t)
  {
    assert ThreadOk(s, t);
    assert s.tail == s.chain[|s.chain| - 1];
    assert HoldsHead(s.At(t)) <==> s.headLock == Some(t);
    if |s.chain| >= 2 {
      assert s.nodes[s.chain[0]].next == Some(s.chain[1]);
    }
  }

  lemma LocksKept<T>(s: Queue<T>, t: nat, step: Step<T>)
    requires Inv(s) && Enabled(s, t, step) && Safe(s, t)
    ensures LocksOk(Apply(s, t, step))
  {
    var n := Apply(s, t, step);
    forall u: nat ensures (HoldsHead(n.At(u)) <==> n.headLock == Some(u)) && (HoldsTail(n.At(u)) <==> n.tailLock == Some(u)) {
      LocksOf(s, t, step, u);
    }
  }

  lemma LocksOf<T>(s: Queue<T>, t: nat, step: Step<T>, u: nat)
    requires LocksOk(s) && Enabled(s, t, step) && Safe(s, t)
    ensures var n := Apply(s, t, step);
            (HoldsHead(n.At(u)) <==> n.headLock == Some(u)) && (HoldsTail(n.At(u)) <==> n.tailLock == Some(u))
  {
    assert HoldsHead(s.At(t)) <==> s.headLock == Some(t);
    assert HoldsTail(s.At(t)) <==> s.tailLock == Some(t);
    assert HoldsHead(s.At(u)) <==> s.headLock == Some(u);
    assert HoldsTail(s.At(u)) <==> s.tailLock == Some(u);
  }

  /** Steps that leave the nodes, the list and its history alone. */
  ghost predicate ControlOnly<T>(s: Queue<T>, n: Queue<T>) {
    n.nodes == s.nodes && n.tail == s.tail && n.chain == s.chain && n.owner == s.owner && n.pushed == s.pushed && n.popped == s.popped
  }

  /** The list part of the invariant. */
  ghost predicate ListOk<T>(s: Queue<T>) {
    ChainOk(s) && TailOk(s) && HeadOk(s) && s.pushed == s.popped + Contents(s)
  }

  lemma ControlKeepsList<T>(s: Queue<T>, t: nat, step: Step<T>)
    requires Inv(s) && Enabled(s, t, step) && Safe(s, t) && ControlOnly(s, Apply(s, t, step))
    ensures ListOk(Apply(s, t, step))
  {
    var n := Apply(s, t, step);
    assert ThreadOk(s, t);
    assert HoldsHead(s.At(t)) <==> s.headLock == Some(t);
    assert HoldsTail(s.At(t)) <==> s.tailLock == Some(t);
    assert Contents(n) == Contents(s);
  }

  lemma ControlKeepsThread<T>(s: Queue<T>, t: nat, step: Step<T>, u: nat)
    requires Inv(s) && Enabled(s, t, step) && Safe(s, t) && ControlOnly(s, Apply(s, t, step)) && ChainOk(Apply(s, t, step))
    ensures ThreadOk(Apply(s, t, step), u)
  {
    assert ThreadOk(s, u);
    if u == t {
      ControlKeepsSelf(s, t, step);
    } else {
      ControlKeepsOther(s, Apply(s, t, step), u);
    }
  }

  lemma ControlKeepsOther<T>(s: Queue<T>, n: Queue<T>, u: nat)
    requires ChainOk(s) && ChainOk(n) && ThreadOk(s, u) && ControlOnly(s, n) && n.At(u) == s.At(u)
    ensures ThreadOk(n, u)
  {
  }

  lemma ControlKeepsSelf<T>(s: Queue<T>, t: nat, step: Step<T>)
    requires Inv(s) && Enabled(s, t, step) && Safe(s, t) && ControlOnly(s, Apply(s, t, step)) && ChainOk(Apply(s, t, step))
    ensures ThreadOk(Apply(s, t, step), t)
  {
    assert ThreadOk(s, t);
    assert HoldsHead(s.At(t)) <==> s.headLock == Some(t);
  }

  lemma BeginPushKeepsList<T>(s: Queue<T>, t: nat, step: Step<T>)
    requires Inv(s) && Enabled(s, t, step) && step.BeginPush?
    ensures ListOk(Apply(s, t, step))
  {
    var n := Apply(s, t, step);
    assert HoldsHead(s.At(t)) <==> s.headLock == Some(t);
    assert HoldsTail(s.At(t)) <==> s.tailLock == Some(t);
    assert Contents(n) == Contents(s);
  }

  lemma BeginPushKeepsThread<T>(s: Queue<T>, t: nat, step: Step<T>, u: nat)
    requires Inv(s) && Enabled(s, t, step) && step.BeginPush? && ChainOk(Apply(s, t, step))
    ensures ThreadOk(Apply(s, t, step), u)
  {
    assert ThreadOk(s, u);
  }

  lemma WriteKeepsList<T>(s: Queue<T>, t: nat)
    requires Inv(s) && (s.At(t).WriteData? || s.At(t).WriteNext?) && Safe(s, t)
    ensures ListOk(Apply(s, t, Step<T>.Proceed))
  {
    var n := Apply(s, t, Step<T>.Proceed);
    assert ThreadOk(s, t);
    assert HoldsTail(s.At(t)) <==> s.tailLock == Some(t);
    assert HoldsHead(s.At(t)) <==> s.headLock == Some(t);
    assert Contents(n) == Contents(s);
  }

  lemma WriteKeepsThread<T>(s: Queue<T>, t: nat, u: nat)
    requires Inv(s) && (s.At(t).WriteData? || s.At(t).WriteNext?) && Safe(s, t) && ChainOk(Apply(s, t, Step<T>.Proceed))
    ensures ThreadOk(Apply(s, t, Step<T>.Proceed), u)
  {
    assert ThreadOk(s, u);
    assert s.owner[s.chain[|s.chain| - 1]] == None;
  }

  /** tail_ = NewTail is where a push takes effect. */
  lemma MoveTailKeepsList<T>(s: Queue<T>, t: nat)
    requires Inv(s) && s.At(t).MoveTail?
    ensures ListOk(Apply(s, t, Step<T>.Proceed))
    ensures Contents(Apply(s, t, Step<T>.Proceed)) == Contents(s) + [s.At(t).value]
  {
    var n := Apply(s, t, Step<T>.Proceed);
    assert ThreadOk(s, t);
    assert HoldsTail(s.At(t)) <==> s.tailLock == Some(t);
    assert HoldsHead(s.At(t)) <==> s.headLock == Some(t);
    assert ChainOk(n);
    assert Contents(n) == Contents(s) + [s.At(t).value];
    assert s.popped + (Contents(s) + [s.At(t).value]) == s.popped + Contents(s) + [s.At(t).value];
  }

  lemma MoveTailKeepsThread<T>(s: Queue<T>, t: nat, u: nat)
    requires Inv(s) && s.At(t).MoveTail? && ChainOk(Apply(s, t, Step<T>.Proceed))
    ensures ThreadOk(Apply(s, t, Step<T>.Proceed), u)
  {
    assert ThreadOk(s, u) && ThreadOk(s, t);
    assert s.chain[0] == Apply(s, t, Step<T>.Proceed).chain[0];
  }

  lemma MoveHeadKeepsChain<T>(s: Queue<T>, t: nat)
    requires Inv(s) && s.At(t).MoveHead? && Safe(s, t)
    ensures ChainOk(Apply(s, t, Step<T>.Proceed))
  {
    var n := Apply(s, t, Step<T>.Proceed);
    assert ThreadOk(s, t);
    forall i | 0 <= i < |n.chain|
      ensures n.chain[i] in n.owner && n.owner[n.chain[i]] == None
      ensures i < |n.chain| - 1 ==> n.nodes[n.chain[i]].data.Some? && n.nodes[n.chain[i]].next == Some(n.chain[i + 1])
    {
      assert n.chain[i] == s.chain[i + 1] && s.chain[i + 1] != s.chain[0];
    }
  }

  lemma MoveHeadKeepsEnds<T>(s: Queue<T>, t: nat)
    requires Inv(s) && s.At(t).MoveHead? && Safe(s, t) && ChainOk(Apply(s, t, Step<T>.Proceed))
    ensures TailOk(Apply(s, t, Step<T>.Proceed)) && HeadOk(Apply(s, t, Step<T>.Proceed))
  {
    assert ThreadOk(s, t);
    assert HoldsTail(s.At(t)) <==> s.tailLock == Some(t);
    assert HoldsHead(s.At(t)) <==> s.headLock == Some(t);
    assert s.nodes[s.chain[0]].next == Some(s.chain[1]);
  }

  /** The head move is where a pop takes effect, and the value it will return is the first one. */
  lemma MoveHeadKeepsList<T>(s: Queue<T>, t: nat)
    requires Inv(s) && s.At(t).MoveHead? && Safe(s, t)
    ensures ListOk(Apply(s, t, Step<T>.Proceed))
    ensures Contents(s) == [Apply(s, t, Step<T>.Proceed).At(t).value] + Contents(Apply(s, t, Step<T>.Proceed))
  {
    MoveHeadKeepsChain(s, t);
    MoveHeadKeepsEnds(s, t);
    MoveHeadTakesFirst(s, t);
  }

  lemma MoveHeadTakesFirst<T>(s: Queue<T>, t: nat)
    requires Inv(s) && s.At(t).MoveHead? && Safe(s, t) && ChainOk(Apply(s, t, Step<T>.Proceed))
    ensures var n := Apply(s, t, Step<T>.Proceed);
            Contents(s) == [n.At(t).value] + Contents(n) && n.pushed == n.popped + Contents(n)
  {
    var n := Apply(s, t, Step<T>.Proceed);
    assert ThreadOk(s, t);
    forall i | 0 <= i < |Contents(n)| ensures Contents(n)[i] == Contents(s)[i + 1] {
      assert n.chain[i] == s.chain[i + 1] && s.chain[i + 1] != s.chain[0];
    }
    FirstAndRest(s.popped, n.At(t).value, Contents(n), Contents(s));
  }

  lemma FirstAndRest<T>(before: seq<T>, first: T, rest: seq<T>, all: seq<T>)
    requires |all| == |rest| + 1 && all[0] == first && forall i :: 0 <= i < |rest| ==> rest[i] == all[i + 1]
    ensures all == [first] + rest && before + all == before + [first] + rest
  {
  }

  lemma MoveHeadKeepsThread<T>(s: Queue<T>, t: nat, u: nat)
    requires Inv(s) && s.At(t).MoveHead? && Safe(s, t) && ChainOk(Apply(s, t, Step<T>.Proceed))
    ensures ThreadOk(Apply(s, t, Step<T>.Proceed), u)
  {
    assert ThreadOk(s, u) && ThreadOk(s, t);
    assert HoldsHead(s.At(t)) <==> s.headLock == Some(t);
    assert HoldsHead(s.At(u)) <==> s.headLock == Some(u);
    assert s.owner[s.chain[0]] == None;
  }

  lemma ReturnKeepsList<T>(s: Queue<T>, t: nat)
    requires Inv(s) && s.At(t).Return? && Safe(s, t)
    ensures ListOk(Apply(s, t, Step<T>.Proceed))
  {
    var n := Apply(s, t, Step<T>.Proceed);
    assert ThreadOk(s, t);
    assert HoldsTail(s.At(t)) <==> s.tailLock == Some(t);
    assert HoldsHead(s.At(t)) <==> s.headLock == Some(t);
    assert ChainOk(n);
    assert Contents(n) == Contents(s);
  }

  lemma ReturnKeepsThread<T>(s: Queue<T>, t: nat, u: nat)
    requires Inv(s) && s.At(t).Return? && Safe(s, t) && ChainOk(Apply(s, t, Step<T>.Proceed))
    ensures ThreadOk(Apply(s, t, Step<T>.Proceed), u)
  {
    assert ThreadOk(s, u) && ThreadOk(s, t);
  }

  lemma StepKeepsList<T>(s: Queue<T>, t: nat, step: Step<T>)
    requires Inv(s) && Enabled(s, t, step) && Safe(s, t)
    ensures ListOk(Apply(s, t, step))
  {
    if step.BeginPush? {
      BeginPushKeepsList(s, t, step);
    } else if step.Proceed? {
      match s.At(t)
      case WriteData(_, _) => WriteKeepsList(s, t);
      case WriteNext(_, _) => WriteKeepsList(s, t);
      case MoveTail(_, _) => MoveTailKeepsList(s, t);
      case MoveHead(_) => MoveHeadKeepsList(s, t);
      case Return(_, _) => ReturnKeepsList(s, t);
      case _ => ControlKeepsList(s, t, step);
    } else {
      ControlKeepsList(s, t, step);
    }
  }

  lemma StepKeepsThread<T>(s: Queue<T>, t: nat, step: Step<T>, u: nat)
    requires Inv(s) && Enabled(s, t, step) && Safe(s, t) && ChainOk(Apply(s, t, step))
    ensures ThreadOk(Apply(s, t, step), u)
  {
    if step.BeginPush? {
      BeginPushKeepsThread(s, t, step, u);
    } else if step.Proceed? {
      match s.At(t)
      case WriteData(_, _) => WriteKeepsThread(s, t, u);
      case WriteNext(_, _) => WriteKeepsThread(s, t, u);
      case MoveTail(_, _) => MoveTailKeepsThread(s, t, u);
      case MoveHead(_) => MoveHeadKeepsThread(s, t, u);
      case Return(_, _) => ReturnKeepsThread(s, t, u);
      case _ => ControlKeepsThread(s, t, step, u);
    } else {
      ControlKeepsThread(s, t, step, u);
    }
  }

  lemma StepKeepsInv<T>(s: Queue<T>, t: nat, step: Step<T>)
    requires Inv(s) && Enabled(s, t, step)
    ensures Safe(s, t) && Inv(Apply(s, t, step))
  {
    StepIsSafe(s, t, step);
    LocksKept(s, t, step);
    StepKeepsList(s, t, step);
    forall u: nat ensures ThreadOk(Apply(s, t, step), u) {
      StepKeepsThread(s, t, step, u);
    }
  }

  // ---------------------------------------------------------------------------------------------
  // Refinement of the abstract queue
  // ---------------------------------------------------------------------------------------------

  datatype Event<T> = Silent | Enqueue(value: T) | Dequeue(value: T) | FoundEmpty

  /** What the step is to a client: the two linearization points, and the read that finds the queue empty. */
  ghost function EventOf<T>(s: Queue<T>, t: nat, step: Step<T>): Event<T>
    requires Enabled(s, t, step) && Safe(s, t)
  {
    if !step.Proceed? then Silent
    else match s.At(t)
      case MoveTail(value, _) => Enqueue(value)
      case MoveHead(first) => Dequeue(s.nodes[first].data.value)
      case ReadTail => if s.head == Some(s.tail) then FoundEmpty else Silent
      case _ => Silent
  }

  /** The abstract FIFO. */
  ghost predicate Fifo<T>(before: seq<T>, e: Event<T>, after: seq<T>) {
    match e
    case Silent => after == before
    case Enqueue(value) => after == before + [value]
    case Dequeue(value) => before == [value] + after
    case FoundEmpty => before == [] && after == before
  }

  lemma StepRefines<T>(s: Queue<T>, t: nat, step: Step<T>)
    requires Inv(s) && Enabled(s, t, step)
    ensures Safe(s, t) && Inv(Apply(s, t, step))
    ensures Fifo(Contents(s), EventOf(s, t, step), Contents(Apply(s, t, step)))
  {
    StepKeepsInv(s, t, step);
    if step.Proceed? && s.At(t).MoveTail? {
      MoveTailKeepsList(s, t);
    } else if step.Proceed? && s.At(t).MoveHead? {
      MoveHeadKeepsList(s, t);
    } else {
      SilentKeepsContents(s, t, step);
    }
  }

  lemma SilentKeepsContents<T>(s: Queue<T>, t: nat, step: Step<T>)
    requires Inv(s) && Enabled(s, t, step) && Safe(s, t) && ListOk(Apply(s, t, step))
    requires step.Proceed? ==> !s.At(t).MoveTail? && !s.At(t).MoveHead?
    ensures Contents(Apply(s, t, step)) == Contents(s)
    ensures step.Proceed? && s.At(t).ReadTail? && s.head == Some(s.tail) ==> Contents(s) == []
  {
  }

  /** A pop that gives up read the tail while the queue was empty; one that goes on finds a value. */
  lemma VerdictIsRight<T>(s: Queue<T>, t: nat)
    requires Inv(s) && s.At(t).Compare?
    ensures Apply(s, t, Step<T>.Proceed).At(t).UnlockEmpty? <==> s.At(t).wasEmpty
    ensures Enabled(s, t, Step<T>.WaitAgain) <==> s.At(t).wasEmpty
    ensures !s.At(t).wasEmpty ==> Contents(s) != []
  {
    assert ThreadOk(s, t);
    assert HoldsHead(s.At(t)) <==> s.headLock == Some(t);
  }

  /** The value a pop hands out after unlocking is the one it took off the queue. */
  lemma ReturnedValueIsTaken<T>(s: Queue<T>, t: nat)
    requires Inv(s) && s.At(t).Return?
    ensures s.At(t).first in s.nodes && s.nodes[s.At(t).first].data == Some(s.At(t).value)
  {
    assert ThreadOk(s, t);
  }

  /** The node whose fields the thread's next step reads or writes. */
  function Touches<T>(s: Queue<T>, t: nat): set<nat> {
    match s.At(t)
    case WriteData(_, _) => {s.tail}
    case WriteNext(_, _) => {s.tail}
    case MoveHead(first) => {first}
    case Return(first, _) => {first}
    case _ => {}
  }

  /** No two threads ever access the same node at once, whatever locks they hold. */
  lemma NoSharedNode<T>(s: Queue<T>, t: nat, u: nat)
    requires Inv(s) && t != u
    ensures Touches(s, t) !! Touches(s, u)
    ensures !(HoldsHead(s.At(t)) && HoldsHead(s.At(u))) && !(HoldsTail(s.At(t)) && HoldsTail(s.At(u)))
  {
    assert ThreadOk(s, t) && ThreadOk(s, u);
    assert HoldsHead(s.At(t)) <==> s.headLock == Some(t);
    assert HoldsHead(s.At(u)) <==> s.headLock == Some(u);
    assert HoldsTail(s.At(t)) <==> s.tailLock == Some(t);
    assert HoldsTail(s.At(u)) <==> s.tailLock == Some(u);
    assert s.owner[s.chain[0]] == None && s.owner[s.chain[|s.chain| - 1]] == None;
  }

  datatype Turn<T> = Turn(thread: nat, step: Step<T>)

  ghost predicate Runs<T>(s: Queue<T>, turns: seq<Turn<T>>)
    decreases |turns|
  {
    turns == [] ||
    (Enabled(s, turns[0].thread, turns[0].step)
     && (Safe(s, turns[0].thread) ==> Runs(Apply(s, turns[0].thread, turns[0].step), turns[1..])))
  }

  /** The run never follows a bad pointer, and its events take the abstract queue from c to the contents at the end. */
  ghost predicate Refines<T>(s: Queue<T>, turns: seq<Turn<T>>, c: seq<T>)
    decreases |turns|
  {
    && Inv(s) && Contents(s) == c
    && (turns != [] ==>
          var t, step := turns[0].thread, turns[0].step;
          && Enabled(s, t, step) && Safe(s, t)
          && Inv(Apply(s, t, step))
          && Fifo(c, EventOf(s, t, step), Contents(Apply(s, t, step)))
          && Refines(Apply(s, t, step), turns[1..], Contents(Apply(s, t, step))))
  }

  lemma StartOk<T>()
    ensures Inv(Start<T>()) && Contents(Start<T>()) == []
  {
    var s := Start<T>();
    assert forall t: nat :: s.At(t) == Idle;
  }

  /** Every interleaving of micro-steps of any number of pushes and pops refines the FIFO queue. */
  lemma {:induction false} RunRefines<T>(s: Queue<T>, turns: seq<Turn<T>>)
    requires Inv(s) && Runs(s, turns)
    ensures Refines(s, turns, Contents(s))
    decreases |turns|
  {
    if turns != [] {
      StepRefines(s, turns[0].thread, turns[0].step);
      RunRefines(Apply(s, turns[0].thread, turns[0].step), turns[1..]);
    }
  }

  ghost function After<T>(s: Queue<T>, turns: seq<Turn<T>>): Queue<T>
    decreases |turns|
  {
    if turns == [] || !Enabled(s, turns[0].thread, turns[0].step) || !Safe(s, turns[0].thread) then s
    else After(Apply(s, turns[0].thread, turns[0].step), turns[1..])
  }

  lemma {:induction false} RefinesAtEnd<T>(s: Queue<T>, turns: seq<Turn<T>>, c: seq<T>)
    requires Refines(s, turns, c)
    ensures Inv(After(s, turns))
    decreases |turns|
  {
    if turns != [] {
      var n := Apply(s, turns[0].thread, turns[0].step);
      RefinesAtEnd(n, turns[1..], Contents(n));
    }
  }

  /** From the constructor on: values come out in the order they went in, once each, none invented. */
  lemma FifoFromStart<T>(turns: seq<Turn<T>>)
    requires Runs(Start(), turns)
    ensures Refines(Start(), turns, [])
    ensures var s := After(Start(), turns);
            Inv(s) && s.popped + Contents(s) == s.pushed && s.popped <= s.pushed
  {
    StartOk<T>();
    RunRefines(Start(), turns);
    RefinesAtEnd(Start(), turns, []);
  }

  // ---------------------------------------------------------------------------------------------
  // The code, one operation at a time
  // ---------------------------------------------------------------------------------------------

  class ListNode<T> {
    var data: Option<T>
    var next: ListNode?<T>

    constructor ()
      ensures data == None && next == null
    {
      data, next := None, null;
    }
  }

  class ThreadSafeQueue<T> {
    var head: ListNode<T>
    var tail: ListNode<T>
    ghost var chain: seq<ListNode<T>>
    ghost var contents: seq<T>

    ghost predicate Valid()
      reads this, chain
    {
      && |chain| == |contents| + 1 && head == chain[0] && tail == chain[|contents|]
      && (forall i, j :: 0 <= i < j < |chain| ==> chain[i] != chain[j])
      && (forall i :: 0 <= i < |contents| ==> chain[i].data == Some(contents[i]) && chain[i].next == chain[i + 1])
      && tail.data == None && tail.next == null
    }

    constructor ()
      ensures Valid() && contents == [] && fresh(chain)
    {
      var dummy := new ListNode<T>();
      head, tail, chain, contents := dummy, dummy, [dummy], [];
    }

    method Empty() returns (b: bool)
      requires Valid()
      ensures b <==> contents == []
    {
      b := head == tail;
    }

    method Push(value: T)
      requires Valid()
      modifies this, tail
      ensures Valid() && contents == old(contents) + [value]
      ensures exists p :: fresh(p) && chain == old(chain) + [p]
    {
      var p := new ListNode<T>();
      tail.data := Some(value);
      tail.next := p;
      tail := p;
      chain, contents := chain + [p], contents + [value];
    }

    /** PopHead, under the condition its callers establish. */
    method PopHead() returns (first: ListNode<T>)
      requires Valid() && contents != []
      modifies this, head
      ensures Valid() && first == old(head) && first.data == Some(old(contents)[0])
      ensures contents == old(contents)[1..] && chain == old(chain)[1..] && first.next == null
    {
      first := head;
      assert chain[0].next == chain[1];
      head := first.next;
      first.next := null;
      chain, contents := chain[1..], contents[1..];
    }

    method TryPop() returns (value: Option<T>)
      requires Valid()
      modifies this, head
      ensures Valid()
      ensures if old(contents) == [] then value == None && contents == []
              else value == Some(old(contents)[0]) && contents == old(contents)[1..]
    {
      if head == tail {
        return None;
      }
      var first := PopHead();
      value := first.data;
    }
  }
}
