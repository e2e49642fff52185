/**
  The output path of a connection (src/net/TcpConnection.cpp): a direct write when nothing is
  waiting, a backlog behind it, the writing flag of the channel, and a half-close that is put off
  until the backlog is gone.

  `Conn` is the state of the connection with what the kernel has taken so far. What write(2) does
  is an argument of the steps. SendInLoop logs "give up writing" on a closed connection and goes on
  all the same; so does the model.
 */
module TcpConnections {
  import opened Buffers
  import opened Sequences

  datatype ConnState = Disconnected | Disconnecting | Connecting | Connected

  datatype Conn = Conn(
    state: ConnState, reading: bool, writing: bool, out: string,
    mark: nat, notifies: bool, completes: bool,
    taken: string, accepted: string, shutdowns: nat, notices: seq<nat>, completions: nat)

  /** `notifies` and `completes` say whether the high-water and the write-complete callback are set. */
  function Start(mark: nat, notifies: bool, completes: bool): Conn {
    Conn(Connecting, false, false, "", mark, notifies, completes, "", "", 0, [], 0)
  }

  function Completed(c: Conn): Conn {
    if c.completes then c.(completions := c.completions + 1) else c
  }

  predicate Direct(c: Conn) {
    !c.writing && c.out == ""
  }

  /** How many bytes of a message of this length the kernel takes at once. */
  function TakenAtOnce(c: Conn, r: IoResult): nat {
    if Direct(c) && r.Taken? then r.count else 0
  }

  /** EPIPE or ECONNRESET on the direct write: the message is dropped whole. */
  predicate Dropped(c: Conn, r: IoResult) {
    Direct(c) && r.PeerGone?
  }

  predicate Fits(c: Conn, msg: string, r: IoResult) {
    TakenAtOnce(c, r) <= |msg|
  }

  /** What has to join the backlog. */
  function Unsent(c: Conn, msg: string, r: IoResult): string
    requires Fits(c, msg, r)
  {
    if Dropped(c, r) then "" else msg[TakenAtOnce(c, r)..]
  }

  function Sent(c: Conn, msg: string, r: IoResult): Conn
    requires Fits(c, msg, r)
  {
    var n := TakenAtOnce(c, r);
    var sent := (if Direct(c) && r.Taken? && n == |msg| then Completed(c) else c).(
      taken := c.taken + msg[..n],
      accepted := if Dropped(c, r) then c.accepted else c.accepted + msg);
    if Unsent(c, msg, r) == "" then sent
    else Queued(sent, Unsent(c, msg, r))
  }

  /** The part of a message the kernel did not take joins the backlog. */
  function Queued(c: Conn, rest: string): Conn {
    var waiting := |c.out| + |rest|;
    c.(notices := if c.notifies && waiting >= c.mark && |c.out| < c.mark then c.notices + [waiting] else c.notices,
       out := c.out + rest,
       writing := true)
  }

  function SentIfConnected(c: Conn, msg: string, r: IoResult): Conn
    requires Fits(c, msg, r)
  {
    if c.state == Connected then Sent(c, msg, r) else c
  }

  function ShutIfIdle(c: Conn): Conn {
    if c.writing then c else c.(shutdowns := c.shutdowns + 1)
  }

  function ShutDown(c: Conn): Conn {
    if c.state == Connected then ShutIfIdle(c.(state := Disconnecting)) else c
  }

  function Written(c: Conn, r: IoResult): Conn
    requires r.Taken? ==> r.count <= |c.out|
  {
    if !c.writing || !r.Taken? || r.count == 0 then c
    else
      var sent := c.(taken := c.taken + c.out[..r.count], out := c.out[r.count..]);
      if sent.out != "" then sent
      else
        var drained := Completed(sent).(writing := false);
        if c.state == Disconnecting then ShutIfIdle(drained) else drained
  }

  function Established(c: Conn): Conn {
    c.(state := Connected, reading := true)
  }

  function Closed(c: Conn): Conn {
    c.(state := Disconnected, reading := false, writing := false)
  }

  function Destroyed(c: Conn): Conn {
    if c.state == Connected then Closed(c) else c
  }

  datatype Step =
    | DoSend(msg: string, r: IoResult)
    | DoSendInLoop(msg: string, r: IoResult)   // a send posted from another thread, run later
    | DoWrite(r: IoResult)
    | DoShutdown
    | DoEstablish
    | DoClose
    | DoDestroy

  predicate Enabled(c: Conn, step: Step) {
    match step
    case DoSend(msg, r) => Fits(c, msg, r)
    case DoSendInLoop(msg, r) => Fits(c, msg, r)
    case DoWrite(r) => r.Taken? ==> r.count <= |c.out|
    case DoEstablish => c.state == Connecting
    case DoClose => c.reading
    case _ => true
  }

  function Apply(c: Conn, step: Step): Conn
    requires Enabled(c, step)
  {
    match step
    case DoSend(msg, r) => SentIfConnected(c, msg, r)
    case DoSendInLoop(msg, r) => Sent(c, msg, r)
    case DoWrite(r) => Written(c, r)
    case DoShutdown => ShutDown(c)
    case DoEstablish => Established(c)
    case DoClose => Closed(c)
    case DoDestroy => Destroyed(c)
  }

  predicate Runs(c: Conn, steps: seq<Step>)
    decreases |steps|
  {
    steps == [] || (Enabled(c, steps[0]) && Runs(Apply(c, steps[0]), steps[1..]))
  }

  function After(c: Conn, steps: seq<Step>): Conn
    requires Runs(c, steps)
    decreases |steps|
  {
    if steps == [] then c else After(Apply(c, steps[0]), steps[1..])
  }

  // ---------------------------------------------------------------------------------------------
  // Byte-stream order
  // ---------------------------------------------------------------------------------------------

  /** What a step gives to SendInLoop, unless it is dropped whole. */
  function Given(c: Conn, step: Step): string {
    if (step.DoSendInLoop? || (step.DoSend? && c.state == Connected)) && !Dropped(c, step.r) then step.msg else ""
  }

  /** The messages given to SendInLoop, in call order, without those dropped whole. */
  function Accepted(c: Conn, steps: seq<Step>): string
    requires Runs(c, steps)
    decreases |steps|
  {
    if steps == [] then "" else Given(c, steps[0]) + Accepted(Apply(c, steps[0]), steps[1..])
  }

  predicate InOrder(c: Conn) {
    c.taken + c.out == c.accepted
  }

  lemma SendKeepsOrder(c: Conn, msg: string, r: IoResult)
    requires InOrder(c) && Fits(c, msg, r)
    ensures InOrder(Sent(c, msg, r))
    ensures Sent(c, msg, r).accepted == c.accepted + if Dropped(c, r) then "" else msg
  {
    var n := TakenAtOnce(c, r);
    assert c.accepted + "" == c.accepted;
    if Direct(c) {
      assert c.taken == c.accepted;
      Reassociate(c.taken, msg[..n], msg[n..]);
      assert msg[..n] + msg[n..] == msg;
      assert c.out + msg[n..] == msg[n..];
    } else {
      assert msg[..n] == "" && msg[n..] == msg && c.taken + "" == c.taken;
      Reassociate(c.taken, c.out, msg);
    }
  }

  lemma WriteKeepsOrder(c: Conn, r: IoResult)
    requires InOrder(c) && (r.Taken? ==> r.count <= |c.out|)
    ensures InOrder(Written(c, r)) && Written(c, r).accepted == c.accepted
  {
  }

  lemma StepKeepsOrder(c: Conn, step: Step)
    requires InOrder(c) && Enabled(c, step)
    ensures InOrder(Apply(c, step))
    ensures Apply(c, step).accepted == c.accepted + Given(c, step)
  {
    match step
    case DoSend(msg, r) => SendKeepsOrder(c, msg, r);
    case DoSendInLoop(msg, r) => SendKeepsOrder(c, msg, r);
    case DoWrite(r) => WriteKeepsOrder(c, r);
    case _ =>
  }

  /**
    Over every run, whatever part of each write the kernel takes, and with sends posted from other
    threads too: what the kernel took, then the backlog, is what was sent, in order.
   */
  lemma {:induction false} ByteStream(c: Conn, steps: seq<Step>)
    requires InOrder(c) && Runs(c, steps)
    ensures var d := After(c, steps);
            InOrder(d) && d.accepted == c.accepted + Accepted(c, steps)
    decreases |steps|
  {
    if steps != [] {
      StepKeepsOrder(c, steps[0]);
      ByteStream(Apply(c, steps[0]), steps[1..]);
    }
  }

  // ---------------------------------------------------------------------------------------------
  // Graceful half-close
  // ---------------------------------------------------------------------------------------------

  /** No send comes in behind the state check of send(). */
  predicate OnLoopThread(steps: seq<Step>) {
    forall i :: 0 <= i < |steps| ==> !steps[i].DoSendInLoop?
  }

  predicate HalfCloseInv(c: Conn) {
    && InOrder(c)
    && (c.state != Disconnected ==> (c.writing <==> c.out != ""))
    && (c.state == Connecting ==> c.accepted == "")
    && (c.state == Connecting || c.state == Connected ==> c.shutdowns == 0)
    && (c.state == Disconnecting ==> c.shutdowns == if c.out == "" then 1 else 0)
    && c.shutdowns <= 1
    && (c.shutdowns == 1 ==> c.out == "")
  }

  lemma StepKeepsHalfClose(c: Conn, step: Step)
    requires HalfCloseInv(c) && Enabled(c, step) && !step.DoSendInLoop?
    ensures HalfCloseInv(Apply(c, step))
  {
    StepKeepsOrder(c, step);
  }

  /**
    Before the close the channel is writing exactly when there is a backlog. The write side is shut
    down at most once, with nothing waiting, so after every byte accepted; and in kDisconnecting it
    has been shut down exactly when the backlog is gone, so at the very step that drains it.
   */
  lemma {:induction false} GracefulHalfClose(c: Conn, steps: seq<Step>)
    requires HalfCloseInv(c) && Runs(c, steps) && OnLoopThread(steps)
    ensures var d := After(c, steps);
            && HalfCloseInv(d)
            && (d.shutdowns == 1 ==> d.taken == d.accepted)
            && (d.state == Disconnecting ==> (d.shutdowns == 1 <==> d.taken == d.accepted))
    decreases |steps|
  {
    if steps != [] {
      StepKeepsHalfClose(c, steps[0]);
      GracefulHalfClose(Apply(c, steps[0]), steps[1..]);
    } else if c.state == Disconnecting && c.taken == c.accepted {
      assert |c.taken + c.out| == |c.taken| + |c.out|;
    }
  }

  /** Nothing is accepted once shutdown() has been called or the connection closed. */
  lemma {:induction false} NothingAfterShutdown(c: Conn, steps: seq<Step>)
    requires Runs(c, steps) && OnLoopThread(steps)
    requires c.state == Disconnecting || c.state == Disconnected
    ensures var d := After(c, steps);
            d.accepted == c.accepted && (d.state == Disconnecting || d.state == Disconnected)
    decreases |steps|
  {
    if steps != [] {
      NothingAfterShutdown(Apply(c, steps[0]), steps[1..]);
    }
  }

  /** Where a step takes the connection, and that no other step does. */
  lemma StepMoves(c: Conn, step: Step)
    requires Enabled(c, step)
    ensures var d := Apply(c, step);
            match step
            case DoEstablish => c.state == Connecting && d.state == Connected && d.reading
            case DoClose => d.state == Disconnected && !d.reading && !d.writing
            case DoDestroy => if c.state == Connected then d.state == Disconnected && !d.reading && !d.writing else d == c
            case DoShutdown => if c.state == Connected then d.state == Disconnecting && d.reading == c.reading else d == c
            case _ => d.state == c.state && d.reading == c.reading
  {
  }

  /** Established and not closed: that is when it reads. Before that nothing is sent, after that nothing is written. */
  predicate OpenInv(c: Conn) {
    && (c.reading <==> c.state == Connected || c.state == Disconnecting)
    && (c.state == Connecting || c.state == Disconnected ==> !c.writing)
    && (c.state == Connecting ==> c.accepted == "")
  }

  lemma {:induction false} RunKeepsOpen(c: Conn, steps: seq<Step>)
    requires OpenInv(c) && Runs(c, steps) && OnLoopThread(steps)
    ensures OpenInv(After(c, steps))
    decreases |steps|
  {
    if steps != [] {
      StepMoves(c, steps[0]);
      RunKeepsOpen(Apply(c, steps[0]), steps[1..]);
    }
  }

  /** From the constructor on it waits to be established: until then it reads, takes and writes nothing. */
  lemma {:induction false} WaitsToBeEstablished(c: Conn, steps: seq<Step>)
    requires c.state == Connecting && OpenInv(c) && Runs(c, steps) && OnLoopThread(steps) && DoEstablish !in steps
    ensures var d := After(c, steps); d.state == Connecting && !d.reading && !d.writing && d.accepted == ""
    decreases |steps|
  {
    if steps != [] {
      StepMoves(c, steps[0]);
      assert steps[0] in steps && forall x :: x in steps[1..] ==> x in steps;
      WaitsToBeEstablished(Apply(c, steps[0]), steps[1..]);
    }
  }

  /**
    Over every run from the constructor on: the connection reads exactly from when it is established
    until it is closed, and has accepted nothing before that.
   */
  lemma ReadsWhileOpen(mark: nat, notifies: bool, completes: bool, steps: seq<Step>)
    requires Runs(Start(mark, notifies, completes), steps) && OnLoopThread(steps)
    ensures var d := After(Start(mark, notifies, completes), steps);
            && (d.reading <==> d.state == Connected || d.state == Disconnecting)
            && (d.state == Connecting || d.state == Disconnected ==> !d.writing)
            && (DoEstablish !in steps ==> d.state == Connecting && d.accepted == "")
  {
    RunKeepsOpen(Start(mark, notifies, completes), steps);
    if DoEstablish !in steps {
      WaitsToBeEstablished(Start(mark, notifies, completes), steps);
    }
  }

  /** The run neither closes the connection nor destroys it. */
  predicate StaysOpen(steps: seq<Step>) {
    forall i :: 0 <= i < |steps| ==> !steps[i].DoClose? && !steps[i].DoDestroy?
  }

  lemma {:induction false} StaysDisconnecting(c: Conn, steps: seq<Step>)
    requires c.state == Disconnecting && Runs(c, steps) && StaysOpen(steps)
    ensures After(c, steps).state == Disconnecting
    decreases |steps|
  {
    if steps != [] {
      StaysDisconnecting(Apply(c, steps[0]), steps[1..]);
    }
  }

  /**
    What shutdown() does to a connected connection: over every run that follows, until it is closed, it
    is disconnecting and accepts nothing more, and its write side has been shut down, once, exactly
    when the kernel has taken all that was accepted before; at once if nothing was waiting.
   */
  lemma ShutdownDrains(c: Conn, rest: seq<Step>)
    requires HalfCloseInv(c) && c.state == Connected
    requires Runs(c, [DoShutdown] + rest) && OnLoopThread(rest) && StaysOpen(rest)
    ensures var d := After(c, [DoShutdown] + rest);
            && d.state == Disconnecting && d.accepted == c.accepted
            && d.shutdowns == (if d.taken == c.accepted then 1 else 0)
    ensures c.out == "" ==> Apply(c, DoShutdown).shutdowns == 1
  {
    assert ([DoShutdown] + rest)[0] == DoShutdown && ([DoShutdown] + rest)[1..] == rest;
    var d := Apply(c, DoShutdown);
    StepKeepsHalfClose(c, DoShutdown);
    NothingAfterShutdown(d, rest);
    StaysDisconnecting(d, rest);
    GracefulHalfClose(d, rest);
  }

  /** From the constructor on: the bytes that arrived once the write side is shut down are all that were sent. */
  lemma ShutDownAfterEverything(mark: nat, notifies: bool, completes: bool, steps: seq<Step>)
    requires Runs(Start(mark, notifies, completes), steps) && OnLoopThread(steps)
    ensures var d := After(Start(mark, notifies, completes), steps);
            && d.taken + d.out == Accepted(Start(mark, notifies, completes), steps)
            && d.shutdowns <= 1 && (d.shutdowns == 1 ==> d.taken == Accepted(Start(mark, notifies, completes), steps))
  {
    var c := Start(mark, notifies, completes);
    ByteStream(c, steps);
    GracefulHalfClose(c, steps);
  }

  /**
    From c to d, where `drains` says that the kernel took the last byte there was: exactly then there
    is one write-complete callback more, if one is set, and nothing is waiting.
   */
  predicate CompletedRight(c: Conn, d: Conn, drains: bool) {
    && d.completions == c.completions + (if c.completes && drains then 1 else 0)
    && (drains ==> d.out == "" && d.taken == d.accepted)
  }

  /** The direct write took the whole message, or the write of the backlog the whole backlog. */
  predicate Drains(c: Conn, step: Step) {
    match step
    case DoSend(msg, r) => c.state == Connected && !c.writing && c.out == "" && r == Taken(|msg|)
    case DoSendInLoop(msg, r) => !c.writing && c.out == "" && r == Taken(|msg|)
    case DoWrite(r) => c.writing && c.out != "" && r == Taken(|c.out|)
    case _ => false
  }

  lemma SendCompletes(c: Conn, msg: string, r: IoResult)
    requires c.taken + c.out == c.accepted && Fits(c, msg, r)
    ensures CompletedRight(c, Sent(c, msg, r), !c.writing && c.out == "" && r == Taken(|msg|))
  {
    if Direct(c) && r.Taken? && r.count == |msg| {
      assert msg[..r.count] == msg && c.taken == c.accepted;
    }
  }

  lemma WriteCompletes(c: Conn, r: IoResult)
    requires c.taken + c.out == c.accepted && (r.Taken? ==> r.count <= |c.out|)
    ensures CompletedRight(c, Written(c, r), c.writing && c.out != "" && r == Taken(|c.out|))
  {
    if r.Taken? && c.out[r.count..] == "" {
      assert c.out[..r.count] == c.out;
    }
  }

  /** A write-complete callback is queued, if one is set, by exactly the steps after which nothing is waiting any more. */
  lemma CompleteIffDrained(c: Conn, step: Step)
    requires HalfCloseInv(c) && Enabled(c, step)
    ensures Apply(c, step).completions == c.completions + (if c.completes && Drains(c, step) then 1 else 0)
    ensures Drains(c, step) ==> Apply(c, step).out == "" && Apply(c, step).taken == Apply(c, step).accepted
  {
    match step
    case DoSend(msg, r) => SendCompletes(c, msg, r);
    case DoSendInLoop(msg, r) => SendCompletes(c, msg, r);
    case DoWrite(r) => WriteCompletes(c, r);
    case _ =>
  }

  // ---------------------------------------------------------------------------------------------
  // High-water mark
  // ---------------------------------------------------------------------------------------------

  function Crossing(c: Conn, d: Conn): seq<nat> {
    if |c.out| < c.mark <= |d.out| then [|d.out|] else []
  }

  /** The sizes of the backlog at the steps that take it from below the mark to the mark or above. */
  function Crossings(c: Conn, steps: seq<Step>): seq<nat>
    requires Runs(c, steps)
    decreases |steps|
  {
    if steps == [] then []
    else
      var d := Apply(c, steps[0]);
      Crossing(c, d) + Crossings(d, steps[1..])
  }

  /** From c to d: what is fixed stays, and there is one notice more exactly for an upward crossing. */
  predicate NoticedRight(c: Conn, d: Conn) {
    && d.mark == c.mark && d.notifies == c.notifies && d.completes == c.completes
    && d.notices == c.notices + if c.notifies then Crossing(c, d) else []
  }

  lemma SendNotices(c: Conn, msg: string, r: IoResult)
    requires Fits(c, msg, r)
    ensures NoticedRight(c, Sent(c, msg, r))
  {
  }

  lemma WriteNotices(c: Conn, r: IoResult)
    requires r.Taken? ==> r.count <= |c.out|
    ensures NoticedRight(c, Written(c, r))
  {
  }

  lemma StepNotices(c: Conn, step: Step)
    requires Enabled(c, step)
    ensures NoticedRight(c, Apply(c, step))
  {
    match step
    case DoSend(msg, r) => SendNotices(c, msg, r);
    case DoSendInLoop(msg, r) => SendNotices(c, msg, r);
    case DoWrite(r) => WriteNotices(c, r);
    case _ =>
  }

  /** With a callback set, there is one notice for each upward crossing, with the backlog reached, and no other. */
  lemma {:induction false} NoticesAreCrossings(c: Conn, steps: seq<Step>)
    requires Runs(c, steps)
    ensures After(c, steps).notices == c.notices + if c.notifies then Crossings(c, steps) else []
    decreases |steps|
  {
    if steps != [] {
      var d := Apply(c, steps[0]);
      StepNotices(c, steps[0]);
      NoticesAreCrossings(d, steps[1..]);
      Reassociate(c.notices, Crossing(c, d), Crossings(d, steps[1..]));
    }
  }

  /** At some point of the run the backlog is below the mark. */
  predicate DipsBelow(c: Conn, steps: seq<Step>)
    requires Runs(c, steps)
    decreases |steps|
  {
    |c.out| < c.mark || (steps != [] && DipsBelow(Apply(c, steps[0]), steps[1..]))
  }

  /** From the state a notice leaves, the next one comes only after the backlog has been below the mark. */
  lemma {:induction false} BelowBetweenNotices(c: Conn, steps: seq<Step>)
    requires Runs(c, steps) && c.mark <= |c.out| && Crossings(c, steps) != []
    ensures DipsBelow(c, steps)
    decreases |steps|
  {
    StepNotices(c, steps[0]);
    if c.mark <= |Apply(c, steps[0]).out| {
      BelowBetweenNotices(Apply(c, steps[0]), steps[1..]);
    }
  }

  // ---------------------------------------------------------------------------------------------
  // The code
  // ---------------------------------------------------------------------------------------------

  /** Calls on the loop thread. The channel's flags are the two bits Pollers.NewEvents switches. */
  class TcpConnection {
    const outputBuffer: Buffer
    const highWaterMark: nat
    const notifies: bool
    const completes: bool
    var state: ConnState
    var reading: bool
    var writing: bool
    ghost var taken: string
    ghost var accepted: string
    var shutdowns: nat
    var notices: seq<nat>
    var completions: nat

    ghost predicate Valid()
      reads this, outputBuffer
    {
      outputBuffer.Valid()
    }

    ghost function View(): Conn
      requires Valid()
      reads this, outputBuffer, outputBuffer.data
    {
      Conn(state, reading, writing, outputBuffer.Readable(), highWaterMark, notifies, completes,
           taken, accepted, shutdowns, notices, completions)
    }

    constructor (growth: Growth, highWaterMark: nat, notifies: bool, completes: bool)
      ensures Valid() && View() == Start(highWaterMark, notifies, completes)
      ensures state == Connecting && !reading && !writing && shutdowns == completions == 0 && notices == []
      ensures fresh(outputBuffer) && fresh(outputBuffer.data) && outputBuffer.growth == growth
    {
      outputBuffer := new Buffer(growth);
      this.highWaterMark, this.notifies, this.completes := highWaterMark, notifies, completes;
      state, reading, writing := Connecting, false, false;
      taken, accepted, shutdowns, notices, completions := "", "", 0, [], 0;
    }

    /** The backlog takes the bytes without running out of bounds, see Buffer.Append. */
    ghost predicate HasRoom(rest: string)
      requires Valid()
      reads this, outputBuffer
    {
      rest == "" || outputBuffer.Shape().Safe(outputBuffer.growth, |rest|)
    }

    /** False when the append to the backlog ran out of bounds. */
    method SendInLoop(data: string, r: IoResult) returns (inBounds: bool)
      requires Valid() && Fits(View(), data, r)
      modifies this, outputBuffer, outputBuffer.data
      ensures outputBuffer.data == old(outputBuffer.data) || fresh(outputBuffer.data)
      ensures inBounds <==> old(HasRoom(Unsent(View(), data, r)))
      ensures outputBuffer.growth == Intended ==> inBounds
      ensures inBounds ==> Valid() && View() == Sent(old(View()), data, r)
    {
      var nwrite, remain, err := 0, |data|, false;
      var backlog := outputBuffer.writerIndex - outputBuffer.readerIndex;
      inBounds := true;
      if !writing && backlog == 0 {
        match r
        case Taken(count) =>
          nwrite, remain := count, |data| - count;
          if remain == 0 && completes {
            completions := completions + 1;
          }
        case PeerGone =>
          err := true;
        case _ =>
      }
      taken := taken + data[..nwrite];
      accepted := if err then accepted else accepted + data;
      if !err && remain > 0 {
        inBounds := QueueRest(data[nwrite..]);
      }
    }

    /** The last part of SendInLoop: the notice, the append and the writing flag. */
    method QueueRest(rest: string) returns (inBounds: bool)
      requires Valid() && rest != ""
      modifies this`notices, this`writing, outputBuffer, outputBuffer.data
      ensures outputBuffer.data == old(outputBuffer.data) || fresh(outputBuffer.data)
      ensures inBounds <==> old(HasRoom(rest))
      ensures outputBuffer.growth == Intended ==> inBounds
      ensures inBounds ==> Valid() && View() == Queued(old(View()), rest)
    {
      var backlog := outputBuffer.writerIndex - outputBuffer.readerIndex;
      if backlog + |rest| >= highWaterMark && backlog < highWaterMark && notifies {
        notices := notices + [backlog + |rest|];
      }
      inBounds := outputBuffer.Append(rest);
      if !writing {
        writing := true;
      }
    }

    method Send(data: string, r: IoResult) returns (inBounds: bool)
      requires Valid() && Fits(View(), data, r)
      modifies this, outputBuffer, outputBuffer.data
      ensures outputBuffer.data == old(outputBuffer.data) || fresh(outputBuffer.data)
      ensures inBounds <==> old(state != Connected || HasRoom(Unsent(View(), data, r)))
      ensures outputBuffer.growth == Intended ==> inBounds
      ensures inBounds ==> Valid() && View() == SentIfConnected(old(View()), data, r)
    {
      inBounds := true;
      if state == Connected {
        inBounds := SendInLoop(data, r);
      }
    }

    method ShutdownInLoop()
      requires Valid()
      modifies this`shutdowns
      ensures View() == ShutIfIdle(old(View()))
    {
      if !writing {
        shutdowns := shutdowns + 1;
      }
    }

    method Shutdown()
      requires Valid()
      modifies this
      ensures Valid() && View() == ShutDown(old(View()))
      ensures old(state) == Connected ==> state == Disconnecting && (!writing ==> shutdowns == old(shutdowns) + 1)
    {
      if state == Connected {
        state := Disconnecting;
        ShutdownInLoop();
      }
    }

    method HandleWrite(r: IoResult)
      requires Valid() && (r.Taken? ==> r.count <= |outputBuffer.Readable()|)
      modifies this, outputBuffer
      ensures Valid() && outputBuffer.data == old(outputBuffer.data)
      ensures View() == Written(old(View()), r)
    {
      if writing {
        var n := outputBuffer.WriteFromFd(r);
        if n > 0 {
          taken := taken + outputBuffer.Readable()[..n];
          outputBuffer.Retrieve(n);
          if outputBuffer.writerIndex - outputBuffer.readerIndex == 0 {
            writing := false;
            if completes {
              completions := completions + 1;
            }
            if state == Disconnecting {
              ShutdownInLoop();
            }
          }
        }
      }
    }

    method ConnectEstablished()
      requires Valid()
      modifies this
      ensures Valid() && View() == Established(old(View()))
    {
      state := Connected;
      reading := true;
    }

    method HandleClose()
      requires Valid()
      modifies this
      ensures Valid() && View() == Closed(old(View()))
    {
      state := Disconnected;
      reading, writing := false, false;
    }

    method ConnectDestroyed()
      requires Valid()
      modifies this
      ensures Valid() && View() == Destroyed(old(View()))
    {
      if state == Connected {
        state := Disconnected;
        reading, writing := false, false;
      }
    }
  }
}
