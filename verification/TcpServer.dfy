/**
  The life of the connections of a server (src/net/TcpServer.cpp, src/net/TcpConnection.cpp,
  src/net/EventLoop.cpp): accepted on the base loop, established, closed and destroyed on a loop of
  their own, by tasks that the loops queue for each other.

  `Server` is the state of all loops together; a step is what one loop thread does without another
  one being able to interfere: it accepts, handles one event, or runs one task. Loop 0 is the base
  loop. A task is a closure that owns its connection until the batch it was run in is thrown away.
 */
module TcpServers {
  import opened Decimals
  import Pollers
  import TcpConnections

  // ---------------------------------------------------------------------------------------------
  // One connection
  // ---------------------------------------------------------------------------------------------

  /** What happens to a connection: the callback's two reports, and the steps of its removal. */
  datatype Event = Up | Down | Erased | DestroyQueued | Destroyed

  const LIFE: seq<Event> := [Up, Down, Erased, DestroyQueued, Destroyed]

  /** `tied` and `callbacks` are those of its channel. */
  datatype Peer = Peer(
    name: string, loop: nat, state: TcpConnections.ConnState, channel: Pollers.Entry,
    tied: bool, callbacks: set<Pollers.Callback>, log: seq<Event>)
  {
    function Note(e: Event): Peer {
      this.(log := log + [e])
    }
  }

  function Accepted(name: string, loop: nat): Peer {
    Peer(name, loop, TcpConnections.Connecting, Pollers.UNUSED, false, {Pollers.OnRead, Pollers.OnWrite}, [])
  }

  function Established(k: Peer): Peer {
    k.(state := TcpConnections.Connected, tied := true, channel := Pollers.Apply(k.channel, Pollers.EnableReading)).Note(Up)
  }

  /** The beginning of HandleClose, up to the close callback. */
  function Closed(k: Peer): Peer {
    k.(state := TcpConnections.Disconnected, channel := Pollers.Apply(k.channel, Pollers.DisableAll)).Note(Down)
  }

  function TornDown(k: Peer): Peer {
    var d := if k.state == TcpConnections.Connected then Closed(k) else k;
    d.(channel := Pollers.Apply(d.channel, Pollers.Remove)).Note(Destroyed)
  }

  /** EnableWriting or DisableWriting, in the course of sending. */
  function SwitchWriting(k: Peer, on: bool): Peer {
    k.(channel := Pollers.Apply(k.channel, if on then Pollers.EnableWriting else Pollers.DisableWriting))
  }

  function Shutdown(k: Peer): Peer {
    if k.state == TcpConnections.Connected then k.(state := TcpConnections.Disconnecting) else k
  }

  /** How far it has come, and what the code's own variables say then. */
  ghost predicate PeerOk(k: Peer) {
    && Pollers.Agrees(k.channel)
    && k.log <= LIFE && (k.tied <==> k.log != []) && k.callbacks == {Pollers.OnRead, Pollers.OnWrite}
    && (|k.log| == 0 ==> k.state == TcpConnections.Connecting && k.channel == Pollers.UNUSED)
    && (|k.log| == 1 ==> (k.state == TcpConnections.Connected || k.state == TcpConnections.Disconnecting)
                         && k.channel.state == Pollers.ADD && k.channel.events & Pollers.READ_EVENTS != 0)
    && (2 <= |k.log| <= 4 ==> k.state == TcpConnections.Disconnected && k.channel.state == Pollers.DELETED)
    && (|k.log| == 5 ==> k.state == TcpConnections.Disconnected && k.channel == Pollers.UNUSED)
  }

  lemma AcceptedOk(name: string, loop: nat)
    ensures PeerOk(Accepted(name, loop)) && PeerOk(Established(Accepted(name, loop)))
    ensures Established(Accepted(name, loop)).log == [Up]
  {
  }

  lemma EstablishedOk(k: Peer)
    requires PeerOk(k) && k.log == []
    ensures PeerOk(Established(k)) && Established(k).log == [Up]
  {
  }

  lemma ClosedOk(k: Peer)
    requires PeerOk(k) && |k.log| == 1
    ensures PeerOk(Closed(k)) && Closed(k).log == [Up, Down]
  {
  }

  lemma RemovedOk(k: Peer)
    requires PeerOk(k) && |k.log| == 2
    ensures var n := k.Note(Erased).Note(DestroyQueued); PeerOk(n) && |n.log| == 4
  {
  }

  /** Closed and removed in one go, as on the base loop. */
  lemma LeftOk(k: Peer)
    requires PeerOk(k) && |k.log| == 1
    ensures var n := Closed(k).Note(Erased).Note(DestroyQueued);
            PeerOk(n) && n.log == [Up, Down, Erased, DestroyQueued]
  {
  }

  lemma DestroyedOk(k: Peer)
    requires PeerOk(k) && |k.log| == 4
    ensures PeerOk(TornDown(k)) && TornDown(k).log == LIFE
  {
  }

  /** Destroyed while it is still connected, as by the destructor of the server: it is reported down first. */
  lemma DestroyedWhileUp(k: Peer)
    requires PeerOk(k) && |k.log| == 1 && k.state == TcpConnections.Connected
    ensures var n := TornDown(k);
            n.log == [Up, Down, Destroyed] && n.state == TcpConnections.Disconnected && n.channel == Pollers.UNUSED
  {
  }

  lemma SwitchedOk(k: Peer, on: bool)
    requires PeerOk(k) && |k.log| == 1
    ensures PeerOk(SwitchWriting(k, on)) && SwitchWriting(k, on).log == k.log
    ensures SwitchWriting(k, on).channel.events == if on then k.channel.events | 0x04 else k.channel.events & 0xFB
  {
  }

  /**
    Why Switch is for connections that are up: EnableWriting on a closed one, as a send posted from
    another thread may come to it, puts its channel back into the kernel's set.
   */
  lemma LateSendRegisters(k: Peer)
    requires PeerOk(k) && 2 <= |k.log| <= 4
    ensures var c := SwitchWriting(k, true).channel;
            k.channel.kernel.None? && c.kernel.Some? && c.kernel.value == Pollers.POLLOUT && c.state == Pollers.ADD
  {
  }

  // ---------------------------------------------------------------------------------------------
  // The server and its loops
  // ---------------------------------------------------------------------------------------------

  datatype Task = Establish(c: nat) | RemoveInLoop(c: nat) | Destroy(c: nat)

  datatype Phase =
    | Polling
    | Dispatching(active: seq<nat>)                  // channels that were ready and are not handled yet
    | Running(ran: seq<Task>, rest: seq<Task>)

  datatype Loop = Loop(phase: Phase, queue: seq<Task>) {
    /** Tasks still to run. */
    function Pending(): seq<Task> {
      (if phase.Running? then phase.rest else []) + queue
    }

    /** Channels still to be handled. */
    function Active(): seq<nat> {
      if phase.Dispatching? then phase.active else []
    }

    /** Closures that exist, run or not. */
    function Held(): seq<Task> {
      (if phase.Running? then phase.ran else []) + Pending()
    }
  }

  /** `connections` maps a name to the number of the connection in `peers`, all that were ever accepted. */
  datatype Server = Server(
    name: string, nextId: nat, connections: map<string, nat>, loops: seq<Loop>, peers: seq<Peer>)

  /** A server with so many loops besides the base loop. */
  function Start(name: string, threads: nat): Server {
    Server(name, 1, map[], seq(threads + 1, i => Loop(Polling, [])), [])
  }

  function NameOf(server: string, id: nat): string {
    server + "#" + Decimal(id)
  }

  function Put(s: Server, c: nat, k: Peer): Server
    requires c < |s.peers|
  {
    s.(peers := s.peers[c := k])
  }

  function Push(s: Server, l: nat, t: Task): Server
    requires l < |s.loops|
  {
    s.(loops := s.loops[l := s.loops[l].(queue := s.loops[l].queue + [t])])
  }

  /** NewConnection, given the loop that GetNextLoop picks. RunInLoop is at once on the base loop. */
  function Added(s: Server, l: nat): Server
    requires l < |s.loops|
  {
    var c, k := |s.peers|, Accepted(NameOf(s.name, s.nextId), l);
    var n := s.(nextId := s.nextId + 1, connections := s.connections[k.name := c]);
    if l == 0 then n.(peers := n.peers + [Established(k)])
    else Push(n.(peers := n.peers + [k]), l, Establish(c))
  }

  function RemovedInLoop(s: Server, c: nat): Server
    requires c < |s.peers| && s.peers[c].loop < |s.loops|
  {
    var k := s.peers[c];
    var e := s.(connections := s.connections - {k.name});
    Push(Put(e, c, k.Note(Erased).Note(DestroyQueued)), k.loop, Destroy(c))
  }

  /** RemoveConnection, called on the loop of the connection. */
  function Removed(s: Server, c: nat): Server
    requires c < |s.peers| && s.peers[c].loop < |s.loops|
  {
    if s.peers[c].loop == 0 then RemovedInLoop(s, c) else Push(s, 0, RemoveInLoop(c))
  }

  function Execute(s: Server, t: Task): Server
    requires t.c < |s.peers| && s.peers[t.c].loop < |s.loops|
  {
    match t
    case Establish(c) => Put(s, c, Established(s.peers[c]))
    case RemoveInLoop(c) => RemovedInLoop(s, c)
    case Destroy(c) => Put(s, c, TornDown(s.peers[c]))
  }

  function SetPhase(s: Server, l: nat, phase: Phase): Server
    requires l < |s.loops|
  {
    s.(loops := s.loops[l := s.loops[l].(phase := phase)])
  }

  datatype Step =
    | Accept(l: nat)                          // the acceptor's read callback, in the dispatch of the base loop
    | PollReturns(l: nat, active: seq<nat>)
    | HandleEvent(l: nat, revents: Pollers.Events, atEnd: bool)   // atEnd: if read(2) is called it returns 0
    | EndDispatch(l: nat)                     // and, if the queue is not empty, its swap
    | RunTask(l: nat)
    | EndBatch(l: nat)                        // the batch and its closures are gone
    | CallShutdown(c: nat)
    | Switch(c: nat, on: bool)                // by send or HandleWrite

  ghost predicate Distinct<T>(s: seq<T>) {
    forall i, j :: 0 <= i < j < |s| ==> s[i] != s[j]
  }

  /** Callbacks run on the loop of the connection, during dispatch or in a batch. */
  predicate OnItsLoop(s: Server, c: nat) {
    && c < |s.peers| && s.peers[c].loop < |s.loops|
    && !s.loops[s.peers[c].loop].phase.Polling?
  }

  predicate HasReady(s: Server, l: nat) {
    l < |s.loops| && s.loops[l].phase.Dispatching? && s.loops[l].phase.active != []
  }

  ghost predicate Enabled(s: Server, step: Step) {
    match step
    case Accept(l) => l < |s.loops| && s.loops[0].phase.Dispatching?
    // epoll reports channels of this loop that are registered, each once
    case PollReturns(l, active) =>
      && l < |s.loops| && s.loops[l].phase.Polling? && Distinct(active)
      && forall c :: c in active ==> c < |s.peers| && s.peers[c].loop == l && s.peers[c].channel.kernel.Some?
    case HandleEvent(l, _, _) => HasReady(s, l)
    case EndDispatch(l) => l < |s.loops| && s.loops[l].phase == Dispatching([])
    case RunTask(l) => l < |s.loops| && s.loops[l].phase.Running? && s.loops[l].phase.rest != []
    case EndBatch(l) => l < |s.loops| && s.loops[l].phase.Running? && s.loops[l].phase.rest == []
    case CallShutdown(c) => OnItsLoop(s, c)
    case Switch(c, on) =>
      OnItsLoop(s, c) && (s.peers[c].state == TcpConnections.Connected || (s.peers[c].state == TcpConnections.Disconnecting && !on))
  }

  /** The map holds it, or a closure does. */
  ghost predicate Owned(s: Server, c: nat) {
    || (exists name :: name in s.connections && s.connections[name] == c)
    || (exists l, t :: 0 <= l < |s.loops| && t in s.loops[l].Held() && t.c == c)
  }

  /**
    Channel::HandleEvent makes this callback: it is set, the events ask for it, and if the channel is
    tied the connection is still there, which is what locking the weak pointer finds out.
   */
  ghost predicate Makes(s: Server, c: nat, revents: Pollers.Events, callback: Pollers.Callback)
    requires c < |s.peers|
  {
    (s.peers[c].tied ==> Owned(s, c)) && callback in s.peers[c].callbacks && Pollers.Asks(revents, callback)
  }

  /** The next ready connection is off the list, and closed if its read callback found the end. */
  ghost function Handled(s: Server, l: nat, ended: bool): Server
    requires Inv(s) && HasReady(s, l)
  {
    var active := s.loops[l].phase.active;
    var c := active[0];
    assert ReadyOk(s.peers, l, s.loops[l].Active());
    var n := SetPhase(s, l, Dispatching(active[1..]));
    if ended then Removed(Put(n, c, Closed(n.peers[c])), c) else n
  }

  function Swapped(s: Server, l: nat): Server
    requires l < |s.loops|
  {
    var queue := s.loops[l].queue;
    if queue == [] then SetPhase(s, l, Polling)
    else s.(loops := s.loops[l := Loop(Running([], queue), [])])
  }

  function TaskRun(s: Server, l: nat): Server
    requires l < |s.loops| && s.loops[l].phase.Running? && s.loops[l].phase.rest != []
    requires var c := s.loops[l].phase.rest[0].c; c < |s.peers| && s.peers[c].loop < |s.loops|
  {
    var p := s.loops[l].phase;
    Execute(SetPhase(s, l, Running(p.ran + [p.rest[0]], p.rest[1..])), p.rest[0])
  }

  ghost function Apply(s: Server, step: Step): Server
    requires Inv(s) && Enabled(s, step)
  {
    match step
    case Accept(l) => Added(s, l)
    case PollReturns(l, active) => SetPhase(s, l, Dispatching(active))
    case HandleEvent(l, revents, atEnd) =>
      assert ReadyOk(s.peers, l, s.loops[l].Active());
      Handled(s, l, Makes(s, s.loops[l].phase.active[0], revents, Pollers.OnRead) && atEnd)
    case EndDispatch(l) => Swapped(s, l)
    case RunTask(l) =>
      NextIsDue(s, l);
      TaskRun(s, l)
    case EndBatch(l) => SetPhase(s, l, Polling)
    case CallShutdown(c) => Put(s, c, Shutdown(s.peers[c]))
    case Switch(c, on) => Put(s, c, SwitchWriting(s.peers[c], on))
  }

  // ---------------------------------------------------------------------------------------------
  // The invariant
  // ---------------------------------------------------------------------------------------------

  /** The one task that a connection is waiting for, and the loop that has to run it. */
  predicate Waits(k: Peer) {
    |k.log| == 0 || |k.log| == 2 || |k.log| == 4
  }

  function TaskFor(k: Peer, c: nat): Task {
    if |k.log| == 0 then Establish(c) else if |k.log| == 2 then RemoveInLoop(c) else Destroy(c)
  }

  function LoopFor(k: Peer): nat {
    if |k.log| == 2 then 0 else k.loop
  }

  predicate Due(s: Server, l: nat, t: Task) {
    && t.c < |s.peers| && Waits(s.peers[t.c])
    && l == LoopFor(s.peers[t.c]) && t == TaskFor(s.peers[t.c], t.c)
  }

  /** The queues hold exactly the tasks that are due, each once. */
  ghost predicate TasksOk(s: Server) {
    && (forall l, t :: 0 <= l < |s.loops| ==> (t in s.loops[l].Pending() <==> Due(s, l, t)))
    && (forall l :: 0 <= l < |s.loops| ==> Distinct(s.loops[l].Pending()))
  }

  ghost predicate ReadyOk(peers: seq<Peer>, l: nat, active: seq<nat>) {
    && Distinct(active)
    && forall i :: 0 <= i < |active| ==>
         active[i] < |peers| && peers[active[i]].loop == l && |peers[active[i]].log| == 1
  }

  /** Channels reported ready are those of connections that are up. */
  ghost predicate ActiveOk(s: Server) {
    forall l :: 0 <= l < |s.loops| ==> ReadyOk(s.peers, l, s.loops[l].Active())
  }

  ghost predicate PeersOk(s: Server) {
    forall c :: 0 <= c < |s.peers| ==>
      && PeerOk(s.peers[c]) && s.peers[c].loop < |s.loops| && |s.peers[c].log| != 3
      && (s.peers[c].loop == 0 ==> |s.peers[c].log| != 0 && |s.peers[c].log| != 2)
      && s.peers[c].name == NameOf(s.name, c + 1)
  }

  /** The map has exactly the connections that were not erased. */
  ghost predicate MapOk(s: Server) {
    && (forall c :: 0 <= c < |s.peers| && |s.peers[c].log| <= 2 ==> s.peers[c].name in s.connections)
    && (forall name :: name in s.connections ==>
          && s.connections[name] < |s.peers| && name == s.peers[s.connections[name]].name
          && |s.peers[s.connections[name]].log| <= 2)
  }

  ghost predicate Inv(s: Server) {
    && |s.loops| > 0 && s.nextId == |s.peers| + 1
    && TasksOk(s) && ActiveOk(s) && PeersOk(s) && MapOk(s)
  }

  /** A name is that of the server, a number sign, and the number, which can be read back. */
  lemma NameParts(server: string, id: nat)
    ensures var s, k := NameOf(server, id), |server|;
            |s| > k + 1 && s[..k] == server && s[k] == '#' && AllDigits(s[k + 1..]) && Number(s[k + 1..]) == id
  {
    DecimalRoundTrip(id);
    AroundSign(server, Decimal(id));
  }

  lemma AroundSign(a: string, b: string)
    ensures var s := a + "#" + b; s[..|a|] == a && s[|a|] == '#' && s[|a| + 1..] == b
  {
  }

  lemma NamesDiffer(server: string, i: nat, j: nat)
    requires NameOf(server, i) == NameOf(server, j)
    ensures i == j
  {
    DecimalRoundTrip(i);
    DecimalRoundTrip(j);
    assert NameOf(server, i)[|server| + 1..] == Decimal(i);
    assert NameOf(server, j)[|server| + 1..] == Decimal(j);
  }

  lemma NextIsDue(s: Server, l: nat)
    requires Inv(s) && l < |s.loops| && s.loops[l].phase.Running? && s.loops[l].phase.rest != []
    ensures var t := s.loops[l].phase.rest[0];
            && Due(s, l, t) && s.peers[t.c].loop < |s.loops|
            && t == s.loops[l].Pending()[0]
  {
  }

  // ---------------------------------------------------------------------------------------------
  // Every step keeps it
  // ---------------------------------------------------------------------------------------------

  lemma PopAndPush<T>(a: seq<T>, pop: bool, push: bool, t: T)
    requires Distinct(a) && (pop ==> a != [])
    requires push ==> t !in a
    ensures var b := (if pop then a[1..] else a) + (if push then [t] else []);
            && Distinct(b)
            && forall x :: x in b <==> (x in a && !(pop && x == a[0])) || (push && x == t)
  {
  }

  /** Connection c takes a task from the head of one queue, or puts its next one at the end of one, or both. */
  lemma TasksMove(s: Server, n: Server, c: nat, popAt: int, pushAt: int, t: Task)
    requires TasksOk(s) && |n.loops| == |s.loops| && c < |n.peers| && |s.peers| <= |n.peers|
    requires forall d :: 0 <= d < |n.peers| && d != c ==> d < |s.peers| && n.peers[d] == s.peers[d]
    requires 0 <= popAt ==> popAt < |s.loops| && s.loops[popAt].Pending() != [] && s.loops[popAt].Pending()[0].c == c
    requires popAt < 0 ==> |s.peers| <= c || !Waits(s.peers[c])
    requires 0 <= pushAt ==> pushAt < |s.loops| && Due(n, pushAt, t) && t.c == c
    requires 0 <= pushAt && 0 <= popAt ==> pushAt != popAt
    requires pushAt < 0 ==> !Waits(n.peers[c])
    requires forall l :: 0 <= l < |s.loops| ==>
               n.loops[l].Pending() == (if l == popAt then s.loops[l].Pending()[1..] else s.loops[l].Pending())
                                       + (if l == pushAt then [t] else [])
    ensures TasksOk(n)
  {
    if 0 <= popAt {
      assert s.loops[popAt].Pending()[0] in s.loops[popAt].Pending();
    }
    forall l | 0 <= l < |s.loops|
      ensures Distinct(n.loops[l].Pending())
      ensures forall x :: x in n.loops[l].Pending() <==> Due(n, l, x)
    {
      var a := s.loops[l].Pending();
      assert l == pushAt ==> t !in a;
      PopAndPush(a, l == popAt, l == pushAt, t);
      forall x ensures x in n.loops[l].Pending() <==> Due(n, l, x) {
        assert x in a <==> Due(s, l, x);
      }
    }
  }

  /** Only phases change, and no task is lost by it. */
  lemma PhasesKeepInv(s: Server, n: Server)
    requires Inv(s) && n == s.(loops := n.loops) && |n.loops| == |s.loops| && ActiveOk(n)
    requires forall l :: 0 <= l < |s.loops| ==> n.loops[l].Pending() == s.loops[l].Pending()
    ensures Inv(n)
  {
  }

  /** No other connection changes, and no channel is newly reported ready. */
  ghost predicate OnlyShrinks(s: Server, n: Server, c: nat) {
    && |n.loops| == |s.loops| && |s.peers| <= |n.peers|
    && (forall d :: 0 <= d < |s.peers| && d != c ==> n.peers[d] == s.peers[d])
    && (forall l :: 0 <= l < |s.loops| ==>
          || n.loops[l].Active() == s.loops[l].Active()
          || (s.loops[l].Active() != [] && n.loops[l].Active() == s.loops[l].Active()[1..]))
  }

  /** What was reported stays so, unless it concerns the connection that changes. */
  lemma ReadyStays(s: Server, n: Server, c: nat)
    requires ActiveOk(s) && OnlyShrinks(s, n, c)
    requires (forall l :: 0 <= l < |s.loops| ==> c !in n.loops[l].Active())
             || (c < |s.peers| && n.peers[c].loop == s.peers[c].loop && |n.peers[c].log| == |s.peers[c].log|)
    ensures ActiveOk(n)
  {
    forall l | 0 <= l < |s.loops| ensures ReadyOk(n.peers, l, n.loops[l].Active()) {
      var a, b := s.loops[l].Active(), n.loops[l].Active();
      assert ReadyOk(s.peers, l, a);
      forall i | 0 <= i < |b|
        ensures b[i] < |n.peers| && n.peers[b[i]].loop == l && |n.peers[b[i]].log| == 1
      {
        assert b[i] in b;
        assert b[i] == if b == a then a[i] else a[i + 1];
      }
    }
  }

  /** A connection changes without getting any further. */
  lemma PeerKeepsInv(s: Server, c: nat, k: Peer)
    requires Inv(s) && c < |s.peers| && PeerOk(k)
    requires k.log == s.peers[c].log && k.loop == s.peers[c].loop && k.name == s.peers[c].name
    ensures Inv(Put(s, c, k))
  {
    var n := Put(s, c, k);
    forall l, t | 0 <= l < |n.loops| ensures t in n.loops[l].Pending() <==> Due(n, l, t) {
      assert t in s.loops[l].Pending() <==> Due(s, l, t);
    }
    ReadyStays(s, n, c);
  }

  lemma PeersStay(s: Server, n: Server, c: nat)
    requires PeersOk(s) && |n.loops| == |s.loops| && n.name == s.name && c < |n.peers| && |n.peers| <= |s.peers| + 1
    requires forall d :: 0 <= d < |n.peers| && d != c ==> d < |s.peers| && n.peers[d] == s.peers[d]
    requires var k := n.peers[c];
             && PeerOk(k) && k.loop < |n.loops| && |k.log| != 3 && (k.loop == 0 ==> |k.log| != 0 && |k.log| != 2)
             && k.name == NameOf(s.name, c + 1)
    ensures PeersOk(n)
  {
  }

  /** This is where its entry is erased. */
  predicate Leaves(s: Server, n: Server, c: nat)
    requires c < |s.peers| == |n.peers|
  {
    |s.peers[c].log| <= 2 < |n.peers[c].log|
  }

  lemma MapStays(s: Server, n: Server, c: nat)
    requires MapOk(s) && PeersOk(s) && c < |s.peers| && |n.peers| == |s.peers|
    requires forall d :: 0 <= d < |n.peers| && d != c ==> n.peers[d] == s.peers[d]
    requires n.peers[c].name == s.peers[c].name && |s.peers[c].log| <= |n.peers[c].log|
    requires n.connections == if Leaves(s, n, c) then s.connections - {s.peers[c].name} else s.connections
    ensures MapOk(n)
  {
    forall d | 0 <= d < |n.peers| && d != c ensures n.peers[d].name != s.peers[c].name {
      if n.peers[d].name == s.peers[c].name {
        NamesDiffer(s.name, d + 1, c + 1);
      }
    }
  }

  /** Accepting changes no other connection; it adds at most one task, and no ready channel. */
  lemma AcceptFrames(s: Server, l: nat)
    requires l < |s.loops|
    ensures var n := Added(s, l);
            && OnlyShrinks(s, n, |s.peers|) && |n.peers| == |s.peers| + 1
            && n.peers[|s.peers|].log == (if l == 0 then [Up] else [])
            && (forall m :: 0 <= m < |s.loops| ==>
                  && n.loops[m].Active() == s.loops[m].Active()
                  && n.loops[m].Pending() == s.loops[m].Pending() + (if m == l && l != 0 then [Establish(|s.peers|)] else []))
  {
    AcceptedOk(NameOf(s.name, s.nextId), l);
    PushAdds(s, l, Establish(|s.peers|));
  }

  lemma AcceptKeepsTasks(s: Server, l: nat)
    requires Inv(s) && l < |s.loops|
    ensures TasksOk(Added(s, l)) && ActiveOk(Added(s, l))
  {
    var c := |s.peers|;
    AcceptFrames(s, l);
    TasksMove(s, Added(s, l), c, -1, if l == 0 then -1 else l, Establish(c));
    forall m | 0 <= m < |s.loops| ensures c !in s.loops[m].Active() {
      assert ReadyOk(s.peers, m, s.loops[m].Active());
    }
    ReadyStays(s, Added(s, l), c);
  }

  lemma AcceptKeepsMap(s: Server, l: nat)
    requires Inv(s) && l < |s.loops|
    ensures PeersOk(Added(s, l)) && MapOk(Added(s, l))
  {
    var n, name := Added(s, l), NameOf(s.name, s.nextId);
    AcceptedOk(name, l);
    PeersStay(s, n, |s.peers|);
    forall d | 0 <= d < |s.peers| ensures s.peers[d].name != name {
      if s.peers[d].name == name {
        NamesDiffer(s.name, d + 1, s.nextId);
      }
    }
  }

  lemma AcceptKeepsInv(s: Server, l: nat)
    requires Inv(s) && l < |s.loops|
    ensures Inv(Added(s, l))
  {
    AcceptKeepsTasks(s, l);
    AcceptKeepsMap(s, l);
  }

  /** Only connection c gets further; tasks move as in TasksMove, and at most one report is used up. */
  ghost predicate Moved(s: Server, n: Server, c: nat, popAt: int, pushAt: int, t: Task) {
    && |n.loops| == |s.loops| && n.name == s.name && n.nextId == s.nextId
    && c < |s.peers| == |n.peers| && n.peers[c].name == s.peers[c].name && n.peers[c].loop == s.peers[c].loop
    && (forall d :: 0 <= d < |s.peers| && d != c ==> n.peers[d] == s.peers[d])
    && n.connections == (if Leaves(s, n, c) then s.connections - {s.peers[c].name} else s.connections)
    && (0 <= popAt ==> popAt < |s.loops| && s.loops[popAt].Pending() != [] && s.loops[popAt].Pending()[0].c == c)
    && (forall l :: 0 <= l < |s.loops| ==>
          n.loops[l].Pending() == (if l == popAt then s.loops[l].Pending()[1..] else s.loops[l].Pending())
                                  + (if l == pushAt then [t] else []))
  }

  /** What a connection was waiting for is taken from its queue, what it waits for now is put there. */
  ghost predicate TasksSettled(s: Server, n: Server, c: nat, popAt: int, pushAt: int, t: Task)
    requires c < |s.peers| && c < |n.peers|
  {
    && (popAt < 0 ==> !Waits(s.peers[c]))
    && (0 <= pushAt ==> pushAt < |s.loops| && pushAt != popAt && Due(n, pushAt, t) && t.c == c)
    && (pushAt < 0 ==> !Waits(n.peers[c]))
  }

  lemma MovedKeepsInv(s: Server, n: Server, c: nat, popAt: int, pushAt: int, t: Task)
    requires Inv(s) && Moved(s, n, c, popAt, pushAt, t) && TasksSettled(s, n, c, popAt, pushAt, t) && ActiveOk(n)
    requires var k := n.peers[c];
             PeerOk(k) && |k.log| != 3 && |s.peers[c].log| <= |k.log| && (k.loop == 0 ==> |k.log| != 0 && |k.log| != 2)
    ensures Inv(n)
  {
    TasksMove(s, n, c, popAt, pushAt, t);
    PeersStay(s, n, c);
    MapStays(s, n, c);
  }

  /** Taking the first task of a batch takes the first that is pending. */
  lemma PopTakes(s: Server, l: nat)
    requires l < |s.loops| && s.loops[l].phase.Running? && s.loops[l].phase.rest != []
    ensures var p := s.loops[l].phase;
            var n := SetPhase(s, l, Running(p.ran + [p.rest[0]], p.rest[1..]));
            n.loops[l].Pending() == s.loops[l].Pending()[1..] && s.loops[l].Pending()[0] == p.rest[0]
  {
  }

  lemma PushAdds(s: Server, l: nat, t: Task)
    requires l < |s.loops|
    ensures Push(s, l, t).loops[l].Pending() == s.loops[l].Pending() + [t]
  {
  }

  lemma EstablishKeepsInv(s: Server, l: nat)
    requires Inv(s) && Enabled(s, RunTask(l)) && s.loops[l].phase.rest[0].Establish?
    ensures Inv(Apply(s, RunTask(l)))
  {
    NextIsDue(s, l);
    var t := s.loops[l].phase.rest[0];
    var n := TaskRun(s, l);
    EstablishedOk(s.peers[t.c]);
    PopTakes(s, l);
    ReadyStays(s, n, t.c);
    MovedKeepsInv(s, n, t.c, l, -1, t);
  }

  lemma PopAndPushElsewhere(s: Server, l: nat, m: nat, t: Task)
    requires l < |s.loops| && m < |s.loops| && l != m && s.loops[l].phase.Running? && s.loops[l].phase.rest != []
    ensures var p := s.loops[l].phase;
            var n := Push(SetPhase(s, l, Running(p.ran + [p.rest[0]], p.rest[1..])), m, t);
            forall i :: 0 <= i < |s.loops| ==>
              && n.loops[i].Active() == s.loops[i].Active()
              && n.loops[i].Pending() == (if i == l then s.loops[i].Pending()[1..] else s.loops[i].Pending())
                                         + (if i == m then [t] else [])
  {
    PopTakes(s, l);
    PushAdds(s, m, t);
  }

  lemma RemoveMoves(s: Server, l: nat)
    requires l < |s.loops| && s.loops[l].phase.Running? && s.loops[l].phase.rest != []
    requires var t := s.loops[l].phase.rest[0];
             t.RemoveInLoop? && t.c < |s.peers| && s.peers[t.c].loop < |s.loops| && s.peers[t.c].loop != l && |s.peers[t.c].log| == 2
    ensures var c := s.loops[l].phase.rest[0].c;
            Moved(s, TaskRun(s, l), c, l, s.peers[c].loop, Destroy(c)) && OnlyShrinks(s, TaskRun(s, l), c)
  {
    var c := s.loops[l].phase.rest[0].c;
    PopTakes(s, l);
    PopAndPushElsewhere(s, l, s.peers[c].loop, Destroy(c));
  }

  lemma RemoveSettles(s: Server, l: nat)
    requires Inv(s) && Enabled(s, RunTask(l)) && s.loops[l].phase.rest[0].RemoveInLoop?
    ensures var c := s.loops[l].phase.rest[0].c;
            && c < |s.peers| && |s.peers[c].log| == 2 && s.peers[c].loop < |s.loops| && s.peers[c].loop != l && s.peers[c].loop != 0
            && TasksSettled(s, TaskRun(s, l), c, l, s.peers[c].loop, Destroy(c))
            && TaskRun(s, l).peers[c] == s.peers[c].Note(Erased).Note(DestroyQueued)
            && PeerOk(TaskRun(s, l).peers[c]) && |TaskRun(s, l).peers[c].log| == 4
  {
    NextIsDue(s, l);
    RemovedOk(s.peers[s.loops[l].phase.rest[0].c]);
  }

  lemma RemoveKeepsReady(s: Server, n: Server, c: nat)
    requires ActiveOk(s) && c < |s.peers| && |s.peers[c].log| == 2 && OnlyShrinks(s, n, c)
    ensures ActiveOk(n)
  {
    NotReady(s, c);
    ReadyStays(s, n, c);
  }

  lemma RemoveKeepsInv(s: Server, l: nat)
    requires Inv(s) && Enabled(s, RunTask(l)) && s.loops[l].phase.rest[0].RemoveInLoop?
    ensures Inv(Apply(s, RunTask(l)))
  {
    NextIsDue(s, l);
    RemoveSettles(s, l);
    RemoveMoves(s, l);
    var c := s.loops[l].phase.rest[0].c;
    RemoveKeepsReady(s, TaskRun(s, l), c);
    MovedKeepsInv(s, TaskRun(s, l), c, l, s.peers[c].loop, Destroy(c));
  }

  /** A connection that is not up is not among those reported ready. */
  lemma NotReady(s: Server, c: nat)
    requires ActiveOk(s) && c < |s.peers| && |s.peers[c].log| != 1
    ensures forall l :: 0 <= l < |s.loops| ==> c !in s.loops[l].Active()
  {
    forall l | 0 <= l < |s.loops| ensures c !in s.loops[l].Active() {
      assert ReadyOk(s.peers, l, s.loops[l].Active());
    }
  }

  lemma DestroyKeepsInv(s: Server, l: nat)
    requires Inv(s) && Enabled(s, RunTask(l)) && s.loops[l].phase.rest[0].Destroy?
    ensures Inv(Apply(s, RunTask(l)))
  {
    NextIsDue(s, l);
    var t := s.loops[l].phase.rest[0];
    var n := TaskRun(s, l);
    DestroyedOk(s.peers[t.c]);
    PopTakes(s, l);
    ReadyStays(s, n, t.c);
    MovedKeepsInv(s, n, t.c, l, -1, t);
  }

  /** A connection whose event is handled is up, in the map, and not ready a second time. */
  lemma HandledIsUp(s: Server, l: nat)
    requires Inv(s) && HasReady(s, l)
    ensures var c := s.loops[l].phase.active[0];
            && c < |s.peers| && s.peers[c].loop == l && |s.peers[c].log| == 1 && PeerOk(s.peers[c]) && Owned(s, c)
            && c !in s.loops[l].phase.active[1..]
            && forall m :: 0 <= m < |s.loops| && m != l ==> c !in s.loops[m].Active()
  {
    var c := s.loops[l].phase.active[0];
    assert ReadyOk(s.peers, l, s.loops[l].Active());
    MapIsRight(s, c);
    forall m | 0 <= m < |s.loops| && m != l ensures c !in s.loops[m].Active() {
      assert ReadyOk(s.peers, m, s.loops[m].Active());
    }
  }

  /** While it is in the map, its name leads to it. */
  lemma MapIsRight(s: Server, c: nat)
    requires Inv(s) && c < |s.peers| && |s.peers[c].log| <= 2
    ensures s.peers[c].name in s.connections && s.connections[s.peers[c].name] == c
  {
    NamesDiffer(s.name, s.connections[s.peers[c].name] + 1, c + 1);
  }

  lemma ClosePushes(s: Server, l: nat, t: Task)
    requires 0 < |s.loops| && l < |s.loops| && s.loops[l].phase.Dispatching? && s.loops[l].phase.active != []
    ensures var n := Push(SetPhase(s, l, Dispatching(s.loops[l].phase.active[1..])), 0, t);
            forall m :: 0 <= m < |s.loops| ==>
              && n.loops[m].Active() == (if m == l then s.loops[m].Active()[1..] else s.loops[m].Active())
              && n.loops[m].Pending() == s.loops[m].Pending() + (if m == 0 then [t] else [])
  {
  }

  /** What a close leaves of the connection, and the task it queues on the base loop. */
  function Leaving(k: Peer, l: nat): Peer {
    if l == 0 then Closed(k).Note(Erased).Note(DestroyQueued) else Closed(k)
  }

  function TaskOnClose(c: nat, l: nat): Task {
    if l == 0 then Destroy(c) else RemoveInLoop(c)
  }

  /** The state after the close of the connection next to be handled: erased at once on the base loop. */
  function AfterClose(s: Server, l: nat): Server
    requires l < |s.loops| && s.loops[l].phase.Dispatching? && s.loops[l].phase.active != []
    requires s.loops[l].phase.active[0] < |s.peers|
  {
    var active := s.loops[l].phase.active;
    var c := active[0];
    var e := if l == 0 then s.(connections := s.connections - {s.peers[c].name}) else s;
    Push(Put(SetPhase(e, l, Dispatching(active[1..])), c, Leaving(s.peers[c], l)), 0, TaskOnClose(c, l))
  }

  lemma CloseMoves(s: Server, l: nat)
    requires l < |s.loops| && s.loops[l].phase.Dispatching? && s.loops[l].phase.active != []
    requires var c := s.loops[l].phase.active[0]; c < |s.peers| && |s.peers[c].log| == 1
    ensures var c := s.loops[l].phase.active[0]; Moved(s, AfterClose(s, l), c, -1, 0, TaskOnClose(c, l))
  {
    ClosePushes(s, l, TaskOnClose(s.loops[l].phase.active[0], l));
  }

  lemma HandledIsClose(s: Server, l: nat)
    requires Inv(s) && HasReady(s, l)
    ensures s.loops[l].phase.active[0] < |s.peers| && Handled(s, l, true) == AfterClose(s, l)
  {
    HandledIsUp(s, l);
  }

  lemma CloseShrinks(s: Server, l: nat)
    requires l < |s.loops| && s.loops[l].phase.Dispatching? && s.loops[l].phase.active != []
    requires var active := s.loops[l].phase.active; active[0] < |s.peers| && active[0] !in active[1..]
    requires forall m :: 0 <= m < |s.loops| && m != l ==> s.loops[l].phase.active[0] !in s.loops[m].Active()
    ensures var c, n := s.loops[l].phase.active[0], AfterClose(s, l);
            OnlyShrinks(s, n, c) && forall m :: 0 <= m < |n.loops| ==> c !in n.loops[m].Active()
  {
    ClosePushes(s, l, TaskOnClose(s.loops[l].phase.active[0], l));
  }

  lemma CloseKeepsReady(s: Server, l: nat)
    requires Inv(s) && HasReady(s, l)
    ensures s.loops[l].phase.active[0] < |s.peers| && ActiveOk(AfterClose(s, l))
  {
    HandledIsUp(s, l);
    CloseShrinks(s, l);
    ReadyStays(s, AfterClose(s, l), s.loops[l].phase.active[0]);
  }

  lemma CloseSettles(s: Server, l: nat)
    requires Inv(s) && HasReady(s, l)
    ensures var c := s.loops[l].phase.active[0];
            && c < |s.peers| && |s.peers[c].log| == 1 && s.peers[c].loop == l
            && TasksSettled(s, AfterClose(s, l), c, -1, 0, TaskOnClose(c, l))
            && PeerOk(AfterClose(s, l).peers[c]) && |AfterClose(s, l).peers[c].log| == if l == 0 then 4 else 2
  {
    HandledIsUp(s, l);
    ClosedOk(s.peers[s.loops[l].phase.active[0]]);
    LeftOk(s.peers[s.loops[l].phase.active[0]]);
  }

  lemma CloseKeepsInv(s: Server, l: nat)
    requires Inv(s) && HasReady(s, l)
    ensures Inv(Handled(s, l, true))
  {
    var c := s.loops[l].phase.active[0];
    CloseSettles(s, l);
    CloseMoves(s, l);
    CloseKeepsReady(s, l);
    HandledIsClose(s, l);
    MovedKeepsInv(s, AfterClose(s, l), c, -1, 0, TaskOnClose(c, l));
  }

  lemma PollKeepsInv(s: Server, l: nat, active: seq<nat>)
    requires Inv(s) && Enabled(s, PollReturns(l, active))
    ensures Inv(SetPhase(s, l, Dispatching(active)))
  {
    var n := SetPhase(s, l, Dispatching(active));
    forall i | 0 <= i < |active| ensures active[i] < |s.peers| && |s.peers[active[i]].log| == 1 {
      assert active[i] in active;
    }
    forall m | 0 <= m < |n.loops| ensures ReadyOk(n.peers, m, n.loops[m].Active()) {
      assert ReadyOk(s.peers, m, s.loops[m].Active());
    }
    PhasesKeepInv(s, n);
  }

  lemma SwapKeepsInv(s: Server, l: nat)
    requires Inv(s) && Enabled(s, EndDispatch(l))
    ensures Inv(Swapped(s, l))
  {
    ReadyStays(s, Swapped(s, l), |s.peers|);
    PhasesKeepInv(s, Swapped(s, l));
  }

  lemma EndBatchKeepsInv(s: Server, l: nat)
    requires Inv(s) && Enabled(s, EndBatch(l))
    ensures Inv(SetPhase(s, l, Polling))
  {
    ReadyStays(s, SetPhase(s, l, Polling), |s.peers|);
    PhasesKeepInv(s, SetPhase(s, l, Polling));
  }

  lemma SkipKeepsInv(s: Server, l: nat)
    requires Inv(s) && HasReady(s, l)
    ensures Inv(Handled(s, l, false))
  {
    var n := SetPhase(s, l, Dispatching(s.loops[l].phase.active[1..]));
    ReadyStays(s, n, |s.peers|);
    PhasesKeepInv(s, n);
  }

  lemma TaskKeepsInv(s: Server, l: nat)
    requires Inv(s) && Enabled(s, RunTask(l))
    ensures Inv(Apply(s, RunTask(l)))
  {
    match s.loops[l].phase.rest[0]
    case Establish(_) => EstablishKeepsInv(s, l);
    case RemoveInLoop(_) => RemoveKeepsInv(s, l);
    case Destroy(_) => DestroyKeepsInv(s, l);
  }

  lemma HandleKeepsInv(s: Server, l: nat, ended: bool)
    requires Inv(s) && HasReady(s, l)
    ensures Inv(Handled(s, l, ended))
  {
    if ended {
      CloseKeepsInv(s, l);
    } else {
      SkipKeepsInv(s, l);
    }
  }

  lemma ShutdownKeepsInv(s: Server, c: nat)
    requires Inv(s) && Enabled(s, CallShutdown(c))
    ensures Inv(Put(s, c, Shutdown(s.peers[c])))
  {
    PeerKeepsInv(s, c, Shutdown(s.peers[c]));
  }

  lemma SwitchKeepsInv(s: Server, c: nat, on: bool)
    requires Inv(s) && Enabled(s, Switch(c, on))
    ensures Inv(Put(s, c, SwitchWriting(s.peers[c], on)))
  {
    SwitchedOk(s.peers[c], on);
    PeerKeepsInv(s, c, SwitchWriting(s.peers[c], on));
  }

  lemma StepKeepsInv(s: Server, step: Step)
    requires Inv(s) && Enabled(s, step)
    ensures Inv(Apply(s, step))
  {
    match step
    case Accept(l) => AcceptKeepsInv(s, l);
    case PollReturns(l, active) => PollKeepsInv(s, l, active);
    case HandleEvent(l, revents, atEnd) =>
      HandledIsUp(s, l);
      HandleKeepsInv(s, l, Makes(s, s.loops[l].phase.active[0], revents, Pollers.OnRead) && atEnd);
    case EndDispatch(l) => SwapKeepsInv(s, l);
    case EndBatch(l) => EndBatchKeepsInv(s, l);
    case RunTask(l) => TaskKeepsInv(s, l);
    case CallShutdown(c) => ShutdownKeepsInv(s, c);
    case Switch(c, on) => SwitchKeepsInv(s, c, on);
  }

  // ---------------------------------------------------------------------------------------------
  // Steps by what is at the head of a list
  // ---------------------------------------------------------------------------------------------

  /** Handling connection c, which is up, with those in `rest` still to come. */
  lemma HandlingStep(s: Server, l: nat, c: nat, rest: seq<nat>, revents: Pollers.Events, atEnd: bool)
    requires Inv(s) && l < |s.loops| && s.loops[l].phase == Dispatching([c] + rest)
    ensures c < |s.peers| && |s.peers[c].log| == 1 && s.peers[c].loop < |s.loops| && Enabled(s, HandleEvent(l, revents, atEnd))
    ensures var n := SetPhase(s, l, Dispatching(rest));
            Apply(s, HandleEvent(l, revents, atEnd))
            == if Pollers.Asks(revents, Pollers.OnRead) && atEnd then Removed(Put(n, c, Closed(n.peers[c])), c) else n
    ensures Inv(Apply(s, HandleEvent(l, revents, atEnd)))
  {
    assert ([c] + rest)[1..] == rest;
    HandledIsUp(s, l);
    StepKeepsInv(s, HandleEvent(l, revents, atEnd));
  }

  /** Running task t, which its connection was waiting for, with those in `rest` still to come. */
  lemma RunningStep(s: Server, l: nat, ran: seq<Task>, t: Task, rest: seq<Task>)
    requires Inv(s) && l < |s.loops| && s.loops[l].phase == Running(ran, [t] + rest)
    ensures t.c < |s.peers| && Waits(s.peers[t.c]) && s.peers[t.c].loop < |s.loops| && Enabled(s, RunTask(l))
    ensures Apply(s, RunTask(l)) == Execute(SetPhase(s, l, Running(ran + [t], rest)), t)
    ensures Inv(Apply(s, RunTask(l)))
  {
    assert ([t] + rest)[1..] == rest;
    NextIsDue(s, l);
    StepKeepsInv(s, RunTask(l));
  }

  // ---------------------------------------------------------------------------------------------
  // Every run
  // ---------------------------------------------------------------------------------------------

  ghost predicate Runs(s: Server, steps: seq<Step>)
    requires Inv(s)
    decreases |steps|
  {
    steps == [] ||
    (Enabled(s, steps[0]) && (StepKeepsInv(s, steps[0]); Runs(Apply(s, steps[0]), steps[1..])))
  }

  ghost function After(s: Server, steps: seq<Step>): (n: Server)
    requires Inv(s) && Runs(s, steps)
    ensures Inv(n)
    decreases |steps|
  {
    if steps == [] then s
    else
      StepKeepsInv(s, steps[0]);
      After(Apply(s, steps[0]), steps[1..])
  }

  lemma StartOk(name: string, threads: nat)
    ensures Inv(Start(name, threads))
  {
  }

  /** A run of a server from its start. */
  ghost predicate RunOf(name: string, threads: nat, steps: seq<Step>, n: Server) {
    StartOk(name, threads);
    Runs(Start(name, threads), steps) && n == After(Start(name, threads), steps)
  }

  /**
    Over every interleaving of the loops, whatever the callbacks do: each connection is reported up
    and then down, erased from the map, its destruction queued and then run, in that order, each at
    most once; and it is in the map, under its own name, exactly until it is erased.
   */
  lemma LifeInOrder(name: string, threads: nat, steps: seq<Step>, n: Server, c: nat)
    requires RunOf(name, threads, steps, n) && c < |n.peers|
    ensures var k := n.peers[c];
            && k.log <= LIFE
            && (Erased !in k.log <==> k.name in n.connections)
            && (k.name in n.connections ==> n.connections[k.name] == c)
  {
    var k := n.peers[c];
    assert PeerOk(k);
    if |k.log| <= 2 {
      MapIsRight(n, c);
    } else {
      assert k.log[2] == Erased;
      if k.name in n.connections {
        NamesDiffer(n.name, n.connections[k.name] + 1, c + 1);
      }
    }
  }

  lemma DueIsHeld(s: Server, c: nat)
    requires Inv(s) && c < |s.peers| && Waits(s.peers[c])
    ensures Owned(s, c)
  {
    var k := s.peers[c];
    var l, t := LoopFor(k), TaskFor(k, c);
    assert Due(s, l, t);
    assert t in s.loops[l].Pending();
    assert t in s.loops[l].Held();
  }

  /** What nothing owns has been through everything. */
  lemma UnownedIsDone(s: Server, c: nat)
    requires Inv(s) && c < |s.peers| && !Owned(s, c)
    ensures s.peers[c].log == LIFE && s.peers[c].channel == Pollers.UNUSED
  {
    assert PeerOk(s.peers[c]);
    if |s.peers[c].log| <= 2 {
      MapIsRight(s, c);
    } else if |s.peers[c].log| == 4 {
      DueIsHeld(s, c);
    }
  }

  /**
    While a channel is in the poller's map or the kernel's set, or in the list of a dispatch that
    has still to reach it, the map of the server or a queued closure owns its connection.
   */
  lemma OwnedWhileRegistered(name: string, threads: nat, steps: seq<Step>, n: Server, c: nat)
    requires RunOf(name, threads, steps, n) && c < |n.peers|
    ensures n.peers[c].channel.mapped || n.peers[c].channel.kernel.Some? ==> Owned(n, c)
    ensures forall l :: 0 <= l < |n.loops| && c in n.loops[l].Active() ==>
              Owned(n, c) && n.peers[c].channel.kernel.Some? && n.peers[c].loop == l
    ensures !Owned(n, c) ==> n.peers[c].log == LIFE
  {
    var k := n.peers[c];
    assert PeerOk(k);
    if !Owned(n, c) {
      UnownedIsDone(n, c);
    }
    forall l | 0 <= l < |n.loops| && c in n.loops[l].Active() ensures |k.log| == 1 && k.loop == l {
      assert ReadyOk(n.peers, l, n.loops[l].Active());
    }
  }

  /**
    No callback is made for a connection that is gone: over every run, what has been reported up is
    tied, so its channel makes exactly the callbacks for reading and writing that the events ask for
    while something owns it, and none when nothing does.
   */
  lemma NothingForTheDead(name: string, threads: nat, steps: seq<Step>, n: Server, c: nat,
                          revents: Pollers.Events, callback: Pollers.Callback)
    requires RunOf(name, threads, steps, n) && c < |n.peers|
    ensures Up in n.peers[c].log <==> n.peers[c].tied
    ensures Up in n.peers[c].log ==>
              (Makes(n, c, revents, callback) <==>
                && Owned(n, c)
                && ((callback == Pollers.OnRead && revents & 0x03 != 0) || (callback == Pollers.OnWrite && revents & 0x04 != 0)))
    ensures !Owned(n, c) ==> !Makes(n, c, revents, callback)
  {
    UpMeansTied(n.peers[c]);
    AskedByBits(revents, callback);
    if !Owned(n, c) {
      UnownedIsDone(n, c);
    }
  }

  lemma UpMeansTied(k: Peer)
    requires PeerOk(k)
    ensures (Up in k.log <==> k.tied) && k.callbacks == {Pollers.OnRead, Pollers.OnWrite}
  {
    assert k.log != [] ==> k.log[0] == Up;
  }

  lemma AskedByBits(revents: Pollers.Events, callback: Pollers.Callback)
    ensures callback in {Pollers.OnRead, Pollers.OnWrite} && Pollers.Asks(revents, callback) <==>
              (callback == Pollers.OnRead && revents & 0x03 != 0) || (callback == Pollers.OnWrite && revents & 0x04 != 0)
  {
  }

  ghost predicate Quiet(s: Server) {
    forall l :: 0 <= l < |s.loops| ==> s.loops[l] == Loop(Polling, [])
  }

  lemma QuietMeansNotWaiting(s: Server, c: nat)
    requires TasksOk(s) && PeersOk(s) && |s.loops| > 0 && Quiet(s) && c < |s.peers|
    ensures !Waits(s.peers[c])
  {
    var k := s.peers[c];
    assert s.loops[LoopFor(k)].Pending() == [];
    assert TaskFor(k, c) !in s.loops[LoopFor(k)].Pending();
    assert !Due(s, LoopFor(k), TaskFor(k, c));
  }

  /**
    Nothing is left behind: when all loops have come to rest, each connection is either up, in the
    map and registered, or it has been through everything, its channel is in no set, and nothing owns it.
   */
  lemma NothingLeaks(name: string, threads: nat, steps: seq<Step>, n: Server, c: nat)
    requires RunOf(name, threads, steps, n) && Quiet(n) && c < |n.peers|
    ensures var k := n.peers[c];
            || (k.log == [Up] && Owned(n, c) && k.channel.kernel.Some? && k.channel.mapped)
            || (k.log == LIFE && !Owned(n, c) && k.channel.kernel.None? && !k.channel.mapped)
  {
    var k := n.peers[c];
    assert PeerOk(k);
    QuietMeansNotWaiting(n, c);
    if |k.log| == 1 {
      MapIsRight(n, c);
      assert k.log == [Up];
    }
  }

  /**
    shutdown() on a connected connection starts the disconnect, and nothing takes that back: over every
    run from there on it is disconnecting until it is closed, so no send can make it write again.
   */
  lemma ShutdownStarts(s: Server, steps: seq<Step>, c: nat)
    requires Inv(s) && Enabled(s, CallShutdown(c)) && s.peers[c].state == TcpConnections.Connected
    requires Inv(Apply(s, CallShutdown(c))) && Runs(Apply(s, CallShutdown(c)), steps)
    ensures var n := After(Apply(s, CallShutdown(c)), steps);
            && c < |n.peers| && !Enabled(n, Switch(c, true))
            && n.peers[c].state == (if Down in n.peers[c].log then TcpConnections.Disconnected else TcpConnections.Disconnecting)
  {
    assert PeerOk(s.peers[c]);
    NeverConnectedAgain(Apply(s, CallShutdown(c)), steps, c);
    DownMeansClosed(After(Apply(s, CallShutdown(c)), steps).peers[c]);
  }

  lemma DownMeansClosed(k: Peer)
    requires PeerOk(k) && |k.log| >= 1 && k.state != TcpConnections.Connected
    ensures k.state == if Down in k.log then TcpConnections.Disconnected else TcpConnections.Disconnecting
  {
    assert forall i :: 0 <= i < |k.log| ==> k.log[i] == LIFE[i];
    if |k.log| >= 2 {
      assert k.log[1] == Down;
    }
  }

  ghost predicate PastConnected(s: Server, c: nat) {
    c < |s.peers| && |s.peers[c].log| >= 1 && s.peers[c].state != TcpConnections.Connected
  }

  lemma {:induction false} NeverConnectedAgain(s: Server, steps: seq<Step>, c: nat)
    requires Inv(s) && PastConnected(s, c) && Runs(s, steps)
    ensures PastConnected(After(s, steps), c)
    decreases |steps|
  {
    if steps != [] {
      StepKeepsInv(s, steps[0]);
      PastConnectedStays(s, steps[0], c);
      NeverConnectedAgain(Apply(s, steps[0]), steps[1..], c);
    }
  }

  lemma PastConnectedStays(s: Server, step: Step, c: nat)
    requires Inv(s) && Enabled(s, step) && PastConnected(s, c)
    ensures PastConnected(Apply(s, step), c)
  {
    match step
    case RunTask(l) => TaskLeavesPast(s, l, c);
    case HandleEvent(l, revents, atEnd) =>
      HandledIsUp(s, l);
      HandlingLeavesPast(s, l, Makes(s, s.loops[l].phase.active[0], revents, Pollers.OnRead) && atEnd, c);
    case Accept(l) => assert Added(s, l).peers[c] == s.peers[c];
    case _ =>
  }

  lemma HandlingLeavesPast(s: Server, l: nat, ended: bool, c: nat)
    requires Inv(s) && HasReady(s, l) && PastConnected(s, c)
    ensures PastConnected(Handled(s, l, ended), c)
  {
    HandledIsClose(s, l);
  }

  lemma TaskLeavesPast(s: Server, l: nat, c: nat)
    requires Inv(s) && Enabled(s, RunTask(l)) && PastConnected(s, c)
    ensures PastConnected(Apply(s, RunTask(l)), c)
  {
    NextIsDue(s, l);
    var t := s.loops[l].phase.rest[0];
    if t.c == c {
      assert PeerOk(s.peers[c]);
    }
  }

  /** ConnectDestroyed has nothing to report: its branch for kConnected is for the server's destructor. */
  lemma DestroyedAfterDown(s: Server, l: nat)
    requires Inv(s) && Enabled(s, RunTask(l)) && s.loops[l].phase.rest[0].Destroy?
    ensures var c := s.loops[l].phase.rest[0].c;
            && c < |s.peers| && s.peers[c].state == TcpConnections.Disconnected && s.peers[c].log == [Up, Down, Erased, DestroyQueued]
            && Apply(s, RunTask(l)).peers[c].log == LIFE
  {
    NextIsDue(s, l);
    var c := s.loops[l].phase.rest[0].c;
    DestroyedOk(s.peers[c]);
    assert s.peers[c].log == LIFE[..4];
  }
}
