/**
  The asynchronous logger (src/base/AsyncLogger.cpp, include/base/LogStream.h): any number of
  threads append under the mutex, one writer thread swaps the filled buffers out under the mutex
  and writes them to the file outside of it, then recycles two of them.

  `Logger` is the state of both sides, a unique_ptr being an Option. A step is a critical section
  or a writer action outside the mutex; appends may come between any two writer steps. The wait on
  the condition variable has no step of its own, because the critical section reads everything
  afresh after it.
 */
module AsyncLoggers {
  import opened Wrappers
  import opened Sequences

  /** Batches with more buffers than this are cut down to two. */
  const MAX_BATCH: nat := 25

  /** FixedBuffer::append: all of the message or nothing. */
  function Put(size: nat, text: string, msg: string): string
    requires |text| <= size
  {
    if size - |text| > |msg| then text + msg else text
  }

  /** Where the writer thread stands. */
  datatype WriterPc = AtHead | Swapped | Output(written: nat)

  /** A cut made in the byte stream: `notice` bytes put in at `at`, then `kept` bytes, then the loss. */
  datatype Drop = Drop(at: nat, notice: nat, kept: nat, lost: string)

  datatype Logger = Logger(
    size: nat,
    current: Option<string>, next: Option<string>, buffers: seq<string>,
    pc: WriterPc, buffer1: Option<string>, buffer2: Option<string>, batch: seq<string>, file: string,
    log: string, drops: seq<Drop>, made: nat, freed: nat)
  {
    /** The file, then what is still to be written of the batch. */
    function Ahead(): string
      requires pc.Output? ==> pc.written <= |batch|
    {
      file + Flatten(if pc.Output? then batch[pc.written..] else batch)
    }

    /** Then the filled buffers, then the current one: every byte the logger still has, in order. */
    function Stream(): string
      requires current.Some? && (pc.Output? ==> pc.written <= |batch|)
    {
      Ahead() + Flatten(buffers) + current.value
    }
  }

  function Start(size: nat): Logger {
    Logger(size, Some(""), Some(""), [], AtHead, Some(""), Some(""), [], "", "", [], 4, 0)
  }

  datatype Step =
    | Append(msg: string)
    | Swap
    | CutBatch(notice: string)
    | WriteNext
    | Recycle

  /** Which step the control flow allows. */
  predicate Enabled(s: Logger, step: Step) {
    match step
    case Append(_) => true
    case Swap => s.pc == AtHead
    case CutBatch(_) => s.pc == Swapped
    case WriteNext => s.pc.Output? && s.pc.written < |s.batch|
    case Recycle => s.pc.Output? && |s.batch| <= s.pc.written
  }

  /** What the step needs so as not to use a null pointer, overfill a buffer or pop an empty vector. */
  predicate Safe(s: Logger, step: Step) {
    match step
    case Append(_) => s.current.Some? && |s.current.value| <= s.size && (s.next.Some? ==> |s.next.value| <= s.size)
    case Swap => s.current.Some? && s.buffer1.Some? && (s.next.None? ==> s.buffer2.Some?)
    case CutBatch(_) => true
    case WriteNext => true
    case Recycle => |s.batch| >= (if s.buffer1.None? then 1 else 0) + (if s.buffer2.None? then 1 else 0)
  }

  function DoAppend(s: Logger, msg: string): Logger
    requires Safe(s, Append(msg))
  {
    var logged := s.(log := s.log + if |msg| < s.size then msg else "");
    if s.size - |s.current.value| > |msg| then logged.(current := Some(Put(s.size, s.current.value, msg)))
    else
      var spare := if s.next.Some? then s.next.value else "";
      logged.(buffers := s.buffers + [s.current.value], current := Some(Put(s.size, spare, msg)), next := None,
              made := if s.next.Some? then s.made else s.made + 1)
  }

  function DoSwap(s: Logger): Logger
    requires Safe(s, Swap)
  {
    s.(batch := s.buffers + [s.current.value], buffers := s.batch,
       current := s.buffer1, buffer1 := None,
       next := if s.next.None? then s.buffer2 else s.next,
       buffer2 := if s.next.None? then None else s.buffer2,
       pc := Swapped)
  }

  function DoCutBatch(s: Logger, notice: string): Logger {
    if |s.batch| > MAX_BATCH then
      s.(file := s.file + notice, batch := s.batch[..2], pc := Output(0), freed := s.freed + |s.batch| - 2,
         drops := s.drops + [Drop(|s.file|, |notice|, |Flatten(s.batch[..2])|, Flatten(s.batch[2..]))])
    else s.(pc := Output(0))
  }

  function DoWriteNext(s: Logger): Logger
    requires Enabled(s, WriteNext)
  {
    s.(file := s.file + s.batch[s.pc.written], pc := Output(s.pc.written + 1))
  }

  /** The buffers taken back are reset; what is left of the batch is freed. */
  function DoRecycle(s: Logger): Logger
    requires Safe(s, Recycle)
  {
    s.(buffer1 := if s.buffer1.None? then Some("") else s.buffer1,
       buffer2 := if s.buffer2.None? then Some("") else s.buffer2,
       batch := [], pc := AtHead,
       freed := s.freed + |s.batch| - (if s.buffer1.None? then 1 else 0) - (if s.buffer2.None? then 1 else 0))
  }

  function Apply(s: Logger, step: Step): Logger
    requires Enabled(s, step) && Safe(s, step)
  {
    match step
    case Append(msg) => DoAppend(s, msg)
    case Swap => DoSwap(s)
    case CutBatch(notice) => DoCutBatch(s, notice)
    case WriteNext => DoWriteNext(s)
    case Recycle => DoRecycle(s)
  }

  // ---------------------------------------------------------------------------------------------
  // Undoing the cuts
  // ---------------------------------------------------------------------------------------------

  predicate Fits(stream: string, d: Drop) {
    d.at + d.notice + d.kept <= |stream|
  }

  /** The stream as it would be without the cut. */
  function Undo(stream: string, d: Drop): string
    requires Fits(stream, d)
  {
    var kept := d.at + d.notice;
    stream[..d.at] + stream[kept..kept + d.kept] + d.lost + stream[kept + d.kept..]
  }

  predicate AllFit(stream: string, drops: seq<Drop>)
    decreases |drops|
  {
    drops == [] || (Fits(stream, drops[|drops| - 1]) && AllFit(Undo(stream, drops[|drops| - 1]), drops[..|drops| - 1]))
  }

  function UndoAll(stream: string, drops: seq<Drop>): string
    requires AllFit(stream, drops)
    decreases |drops|
  {
    if drops == [] then stream else UndoAll(Undo(stream, drops[|drops| - 1]), drops[..|drops| - 1])
  }

  lemma UndoExtend(stream: string, tail: string, d: Drop)
    requires Fits(stream, d)
    ensures Fits(stream + tail, d) && Undo(stream + tail, d) == Undo(stream, d) + tail
  {
    var k := d.at + d.notice;
    assert (stream + tail)[..d.at] == stream[..d.at];
    assert (stream + tail)[k..k + d.kept] == stream[k..k + d.kept];
    assert (stream + tail)[k + d.kept..] == stream[k + d.kept..] + tail;
  }

  /** Bytes behind the cuts are not touched by undoing them. */
  lemma {:induction false} UndoAllExtend(stream: string, tail: string, drops: seq<Drop>)
    requires AllFit(stream, drops)
    ensures AllFit(stream + tail, drops) && UndoAll(stream + tail, drops) == UndoAll(stream, drops) + tail
    decreases |drops|
  {
    if drops != [] {
      var d := drops[|drops| - 1];
      UndoExtend(stream, tail, d);
      UndoAllExtend(Undo(stream, d), tail, drops[..|drops| - 1]);
    }
  }

  lemma UndoLast(stream: string, drops: seq<Drop>, d: Drop)
    requires Fits(stream, d) && AllFit(Undo(stream, d), drops)
    ensures AllFit(stream, drops + [d]) && UndoAll(stream, drops + [d]) == UndoAll(Undo(stream, d), drops)
  {
  }

  // ---------------------------------------------------------------------------------------------
  // The invariant
  // ---------------------------------------------------------------------------------------------

  /** Both sides together: which pointers are null when, and what the spare buffers hold. */
  ghost predicate Pointers(s: Logger) {
    && 0 < s.size
    && s.current.Some? && |s.current.value| < s.size
    && (s.next.Some? ==> s.next.value == "")
    && (s.next.None? ==> s.buffers != [])
    && (s.buffer2.Some? ==> s.buffer2.value == "")
    && match s.pc
       case AtHead => s.buffer1 == Some("") && s.buffer2 == Some("") && s.batch == []
       case Swapped => s.buffer1.None? && s.batch != [] && (s.buffer2.None? ==> |s.batch| >= 2)
       case Output(written) =>
         s.buffer1.None? && s.batch != [] && (s.buffer2.None? ==> |s.batch| >= 2) && written <= |s.batch|
  }

  /** Every byte logged is in the stream or in a recorded cut, once and in order. */
  ghost predicate Accounts(stream: string, drops: seq<Drop>, log: string) {
    AllFit(stream, drops) && UndoAll(stream, drops) == log
  }

  ghost predicate Inv(s: Logger) {
    Pointers(s) && Accounts(s.Stream(), s.drops, s.log)
  }

  lemma AppendStream(s: Logger, msg: string)
    requires Pointers(s)
    ensures Safe(s, Append(msg)) && Pointers(DoAppend(s, msg))
    ensures DoAppend(s, msg).Stream() == s.Stream() + if |msg| < s.size then msg else ""
  {
    var t := DoAppend(s, msg);
    assert t.Ahead() == s.Ahead();
    if s.size - |s.current.value| > |msg| {
      Reassociate(s.Ahead() + Flatten(s.buffers), s.current.value, msg);
    } else {
      FlattenSnoc(s.buffers, s.current.value);
      Reassociate(s.Ahead(), Flatten(s.buffers), s.current.value);
    }
  }

  lemma SwapStream(s: Logger)
    requires Pointers(s) && s.pc == AtHead
    ensures Safe(s, Swap) && Pointers(DoSwap(s))
    ensures DoSwap(s).Stream() == s.Stream()
  {
    FlattenSnoc(s.buffers, s.current.value);
    var none: seq<string> := [];
    assert Flatten(none) == "";
  }

  lemma WriteNextStream(s: Logger)
    requires Pointers(s) && Enabled(s, WriteNext)
    ensures Pointers(DoWriteNext(s)) && DoWriteNext(s).Stream() == s.Stream()
  {
  }

  lemma CutUndone(file: string, notice: string, kept: string, lost: string, rest: string)
    ensures var d := Drop(|file|, |notice|, |kept|, lost);
            Fits(file + notice + kept + rest, d) && Undo(file + notice + kept + rest, d) == file + kept + lost + rest
  {
  }

  lemma CutStream(s: Logger, notice: string)
    requires Pointers(s) && s.pc == Swapped && |s.batch| > MAX_BATCH
    ensures var t := DoCutBatch(s, notice);
            var d := t.drops[|t.drops| - 1];
            && Pointers(t) && t.drops == s.drops + [d]
            && Fits(t.Stream(), d) && Undo(t.Stream(), d) == s.Stream()
  {
    var t := DoCutBatch(s, notice);
    var kept, lost := Flatten(s.batch[..2]), Flatten(s.batch[2..]);
    var rest := Flatten(s.buffers) + s.current.value;
    assert Flatten(s.batch) == kept + lost by {
      FlattenConcat(s.batch[..2], s.batch[2..]);
      assert s.batch == s.batch[..2] + s.batch[2..];
    }
    assert t.batch[0..] == t.batch;
    assert s.Stream() == s.file + kept + lost + rest;
    assert t.Stream() == s.file + notice + kept + rest;
    CutUndone(s.file, notice, kept, lost, rest);
  }

  /** A batch is cut exactly when it has more than 25 buffers; then the first two are kept and the others lost. */
  lemma CutIff(s: Logger, notice: string)
    ensures var t := DoCutBatch(s, notice);
            if |s.batch| <= 25 then t == s.(pc := Output(0))
            else
              && t.batch == [s.batch[0], s.batch[1]] && t.pc == Output(0) && t.file == s.file + notice
              && |t.drops| == |s.drops| + 1 && t.drops[|s.drops|].lost == Flatten(s.batch[2..])
  {
  }

  /** How many buffers there are on both sides. */
  function Held(s: Logger): nat {
    Count(s.current) + Count(s.next) + |s.buffers| + Count(s.buffer1) + Count(s.buffer2) + |s.batch|
  }

  function Count(o: Option<string>): nat {
    if o.Some? then 1 else 0
  }

  /**
    Buffers are moved, not copied: whatever was made is there or has been freed. One is made only by an
    append that finds the current one full and no spare; buffers are freed only by a cut and at recycling.
   */
  lemma BuffersMove(s: Logger, step: Step)
    requires Pointers(s) && Enabled(s, step) && Safe(s, step) && s.made == Held(s) + s.freed
    ensures var n := Apply(s, step);
            && n.made == Held(n) + n.freed
            && n.made == s.made + (if step.Append? && s.size - |s.current.value| <= |step.msg| && s.next.None? then 1 else 0)
            && n.freed == s.freed + match step
                                    case CutBatch(_) => if |s.batch| > 25 then |s.batch| - 2 else 0
                                    case Recycle => |s.batch| - 1 - (if s.buffer2.None? then 1 else 0)
                                    case _ => 0
    ensures step.Swap? ==> Apply(s, step).next.Some? && Apply(s, step).buffers == [] && |Apply(s, step).batch| == |s.buffers| + 1
  {
  }

  lemma RecycleStream(s: Logger)
    requires Pointers(s) && Enabled(s, Recycle)
    ensures Safe(s, Recycle) && Pointers(DoRecycle(s)) && DoRecycle(s).Stream() == s.Stream()
  {
  }

  lemma CutKeepsInv(s: Logger, notice: string)
    requires Inv(s) && s.pc == Swapped
    ensures Inv(DoCutBatch(s, notice))
  {
    var t := DoCutBatch(s, notice);
    if |s.batch| > MAX_BATCH {
      CutStream(s, notice);
      UndoLast(t.Stream(), s.drops, t.drops[|t.drops| - 1]);
    } else {
      assert t.batch[0..] == s.batch;
      assert t.Stream() == s.Stream();
    }
  }

  lemma AppendKeepsInv(s: Logger, msg: string)
    requires Inv(s)
    ensures Safe(s, Append(msg)) && Inv(DoAppend(s, msg))
  {
    AppendStream(s, msg);
    UndoAllExtend(s.Stream(), if |msg| < s.size then msg else "", s.drops);
  }

  /** The inductive step: no pointer mishap is possible, and the conservation law is kept. */
  lemma StepKeepsInv(s: Logger, step: Step)
    requires Inv(s) && Enabled(s, step)
    ensures Safe(s, step) && Inv(Apply(s, step))
  {
    match step
    case Append(msg) => AppendKeepsInv(s, msg);
    case Swap => SwapStream(s);
    case CutBatch(notice) => CutKeepsInv(s, notice);
    case WriteNext => WriteNextStream(s);
    case Recycle => RecycleStream(s);
  }

  lemma StepLogs(s: Logger, step: Step)
    requires Enabled(s, step) && Safe(s, step)
    ensures Apply(s, step).log == s.log + Logged(s.size, step)
    ensures Apply(s, step).size == s.size
    ensures |Apply(s, step).drops| == |s.drops| + (if step.CutBatch? && |s.batch| > MAX_BATCH then 1 else 0)
  {
  }

  /** The steps are allowed one after the other, and none of them meets a null pointer. */
  predicate Runs(s: Logger, steps: seq<Step>)
    decreases |steps|
  {
    steps == [] || (Enabled(s, steps[0]) && (Safe(s, steps[0]) ==> Runs(Apply(s, steps[0]), steps[1..])))
  }

  predicate RunsSafely(s: Logger, steps: seq<Step>)
    decreases |steps|
  {
    steps == [] || (Enabled(s, steps[0]) && Safe(s, steps[0]) && RunsSafely(Apply(s, steps[0]), steps[1..]))
  }

  function After(s: Logger, steps: seq<Step>): Logger
    requires RunsSafely(s, steps)
    decreases |steps|
  {
    if steps == [] then s else After(Apply(s, steps[0]), steps[1..])
  }

  /** How many batches over the limit the run meets. */
  function LargeBatches(s: Logger, steps: seq<Step>): nat
    requires RunsSafely(s, steps)
    decreases |steps|
  {
    if steps == [] then 0
    else (if steps[0].CutBatch? && |s.batch| > MAX_BATCH then 1 else 0) + LargeBatches(Apply(s, steps[0]), steps[1..])
  }

  function Logged(size: nat, step: Step): string {
    if step.Append? && |step.msg| < size then step.msg else ""
  }

  /** What the run appended, in lock order; messages that do not fit an empty buffer are not taken. */
  function Appended(size: nat, steps: seq<Step>): string
    decreases |steps|
  {
    if steps == [] then "" else Logged(size, steps[0]) + Appended(size, steps[1..])
  }

  lemma {:induction false} RunKeepsInv(s: Logger, steps: seq<Step>)
    requires Inv(s) && Runs(s, steps)
    ensures RunsSafely(s, steps) && Inv(After(s, steps))
    ensures After(s, steps).log == s.log + Appended(s.size, steps) && After(s, steps).size == s.size
    ensures |After(s, steps).drops| == |s.drops| + LargeBatches(s, steps)
    decreases |steps|
  {
    if steps != [] {
      StepKeepsInv(s, steps[0]);
      StepLogs(s, steps[0]);
      RunKeepsInv(Apply(s, steps[0]), steps[1..]);
    }
  }

  /**
    Over every interleaving of appends and writer steps: no null pointer, no pop of an empty
    vector; at the loop head both spare buffers are there and empty; and undoing the recorded cuts
    in the stream gives exactly what was appended. With no batch over 25 buffers there is no cut,
    and the stream itself is what was appended.
   */
  lemma LoggerSafeAndLossless(size: nat, steps: seq<Step>)
    requires 0 < size && Runs(Start(size), steps)
    ensures RunsSafely(Start(size), steps)
    ensures var s := After(Start(size), steps);
            && Pointers(s)
            && AllFit(s.Stream(), s.drops) && UndoAll(s.Stream(), s.drops) == Appended(size, steps)
            && |s.drops| == LargeBatches(Start(size), steps)
            && (LargeBatches(Start(size), steps) == 0 ==> s.Stream() == Appended(size, steps))
            && (s.pc == AtHead ==> s.buffer1 == s.buffer2 == Some("") && s.batch == [])
  {
    var none: seq<string> := [];
    assert Flatten(none) == "";
    RunKeepsInv(Start(size), steps);
  }

  // ---------------------------------------------------------------------------------------------
  // The code over its buffers
  // ---------------------------------------------------------------------------------------------

  /** A byte array filled from the front. Bytes past cur are left over from earlier use. */
  class FixedBuffer {
    const data: array<char>
    var cur: nat

    ghost predicate Valid()
      reads this
    {
      cur <= data.Length
    }

    ghost function Text(): string
      requires Valid()
      reads this, data
    {
      data[..cur]
    }

    constructor (size: nat)
      ensures Valid() && Text() == "" && fresh(data) && data.Length == size
    {
      data := new char[size](_ => '\0');
      cur := 0;
    }

    method Append(msg: string)
      requires Valid()
      modifies this, data
      ensures Valid() && Text() == Put(data.Length, old(Text()), msg)
    {
      if data.Length - cur > |msg| {
        forall i | 0 <= i < |msg| {
          data[cur + i] := msg[i];
        }
        cur := cur + |msg|;
      }
    }

    method Reset()
      requires Valid()
      modifies this
      ensures Valid() && Text() == ""
    {
      cur := 0;
    }
  }

  /** The fields of AsyncLogger and the locals of StartLog; a moved-from pointer is None. */
  class AsyncLogger {
    const size: nat
    var current: Option<string>
    var next: Option<string>
    var buffers: seq<string>
    var buffer1: Option<string>
    var buffer2: Option<string>
    var batch: seq<string>
    var file: string
    ghost var pc: WriterPc
    ghost var log: string
    ghost var drops: seq<Drop>
    ghost var made: nat
    ghost var freed: nat

    ghost function State(): Logger
      reads this
    {
      Logger(size, current, next, buffers, pc, buffer1, buffer2, batch, file, log, drops, made, freed)
    }

    constructor (size: nat)
      ensures State() == Start(size)
    {
      this.size := size;
      current, next, buffers := Some(""), Some(""), [];
      buffer1, buffer2, batch, file := Some(""), Some(""), [], "";
      pc, log, drops, made, freed := AtHead, "", [], 4, 0;
    }

    /** The critical section of append. */
    method Append(msg: string)
      requires Safe(State(), Step.Append(msg))
      modifies this
      ensures State() == DoAppend(old(State()), msg)
    {
      if size - |current.value| > |msg| {
        current := Some(Put(size, current.value, msg));
      } else {
        buffers, current := buffers + [current.value], None;
        if next.Some? {
          current, next := next, None;
        } else {
          current, made := Some(""), made + 1;
        }
        current := Some(Put(size, current.value, msg));
      }
      log := log + if |msg| < size then msg else "";
    }

    /** The critical section of the writer, after the wait. */
    method SwapBuffers()
      requires pc == AtHead && Safe(State(), Swap)
      modifies this
      ensures State() == DoSwap(old(State()))
    {
      buffers := buffers + [current.value];
      current, buffer1 := buffer1, None;
      batch, buffers := buffers, batch;
      if next.None? {
        next, buffer2 := buffer2, None;
      }
      pc := Swapped;
    }

    method CutLargeBatch(notice: string)
      requires pc == Swapped
      modifies this
      ensures State() == DoCutBatch(old(State()), notice)
    {
      if |batch| > MAX_BATCH {
        drops := drops + [Drop(|file|, |notice|, |Flatten(batch[..2])|, Flatten(batch[2..]))];
        file := file + notice;
        batch, freed := batch[..2], freed + |batch| - 2;
      }
      pc := Output(0);
    }

    /** The output loop: as many WriteNext steps as there are buffers. */
    method WriteBatch()
      requires pc == Output(0)
      modifies this`file, this`pc
      ensures pc == Output(|batch|) && file == old(file) + Flatten(batch)
    {
      for i := 0 to |batch|
        invariant pc == Output(i) && file == old(file) + Flatten(batch[..i])
      {
        FlattenSnoc(batch[..i], batch[i]);
        assert batch[..i + 1] == batch[..i] + [batch[i]];
        assert Enabled(State(), WriteNext);
        ghost var next := DoWriteNext(State());
        file := file + batch[i];
        pc := Output(i + 1);
        assert State() == next;
      }
      assert batch[..|batch|] == batch;
    }

    /** The text of a buffer that has been reset. */
    static function AfterReset(text: string): string {
      text[..0]
    }

    /** From the resize to the clear. Every buffer that goes is counted, so none is made here: those taken back are of the batch. */
    method RecycleBuffers()
      requires Enabled(State(), Recycle) && Safe(State(), Recycle)
      modifies this
      ensures State() == DoRecycle(old(State()))
    {
      if |batch| > 2 {
        batch, freed := batch[..2], freed + |batch| - 2;
      }
      if buffer1.None? {
        buffer1, batch := Some(batch[|batch| - 1]), batch[..|batch| - 1];
        buffer1 := Some(AfterReset(buffer1.value));
      }
      if buffer2.None? {
        buffer2, batch := Some(batch[|batch| - 1]), batch[..|batch| - 1];
        buffer2 := Some(AfterReset(buffer2.value));
      }
      batch, freed := [], freed + |batch|;
      pc := AtHead;
    }

    /** What a turn of the writer does outside the mutex. Appends only touch the other fields meanwhile. */
    method WriteOut(notice: string)
      requires pc == Swapped && Pointers(State())
      modifies this
      ensures var s := old(State());
              && State() == DoRecycle(DoCutBatch(s, notice)).(file := file)
              && (|s.batch| <= MAX_BATCH ==> file == s.file + Flatten(s.batch))
              && (|s.batch| > MAX_BATCH ==> file == s.file + notice + Flatten(s.batch[..2]))
    {
      CutLargeBatch(notice);
      WriteBatch();
      RecycleBuffers();
    }
  }
}
